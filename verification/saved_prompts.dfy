/**
 * The saved-prompt list as a value: the save step of the copy action,
 * which appends only new non-empty prompts, and the delete button, which
 * removes one position.
 */
module SavedPrompts {

  /** No prompt occurs twice. */
  predicate NoDuplicates(list: seq<string>) {
    forall i, j :: 0 <= i < j < |list| ==> list[i] != list[j]
  }

  /**
   * The list after the save step for an already trimmed base text: the text is
   * appended at the end when it is non-empty and not yet present; otherwise
   * the list stays as it is.
   */
  function WithSaved(list: seq<string>, text: string): (r: seq<string>)
    ensures list <= r && |r| <= |list| + 1
    ensures |r| == |list| + 1 <==> text != "" && text !in list
    ensures text != "" ==> text in r
    ensures forall x :: x in r ==> x in list || x == text
    ensures NoDuplicates(list) ==> NoDuplicates(r)
  {
    if text != "" && text !in list then list + [text] else list
  }

  /** The list after a series of copy actions that saved the given texts, oldest first. */
  function SaveAll(list: seq<string>, texts: seq<string>): seq<string>
    decreases texts
  {
    if texts == [] then list else SaveAll(WithSaved(list, texts[0]), texts[1..])
  }

  /**
   * Whatever the list holds (an import may have stored duplicates), a series
   * of saves keeps it as the front of the result and leaves every non-empty
   * saved text in the list.
   */
  lemma {:induction false} SaveAllKeepsSaved(list: seq<string>, texts: seq<string>)
    ensures list <= SaveAll(list, texts)
    ensures forall t :: t in texts && t != "" ==> t in SaveAll(list, texts)
    decreases texts
  {
    if texts != [] {
      var next := WithSaved(list, texts[0]);
      SaveAllKeepsSaved(next, texts[1..]);
      var r := SaveAll(list, texts);
      assert r == SaveAll(next, texts[1..]);
      forall t | t in texts && t != "" ensures t in r {
        if t == texts[0] {
          var i :| 0 <= i < |next| && next[i] == t;
          assert r[i] == t;
        } else {
          assert t in texts[1..];
        }
      }
    }
  }

  /** However many prompts are saved, a duplicate-free list stays duplicate-free. */
  lemma {:induction false} SaveAllKeepsNoDuplicates(list: seq<string>, texts: seq<string>)
    requires NoDuplicates(list)
    ensures NoDuplicates(SaveAll(list, texts))
    decreases texts
  {
    if texts != [] {
      SaveAllKeepsNoDuplicates(WithSaved(list, texts[0]), texts[1..]);
    }
  }

  /** The list after removing position i, as splice(i, 1) does. */
  function Without(list: seq<string>, i: nat): (r: seq<string>)
    requires i < |list|
    ensures |r| == |list| - 1
    ensures forall j :: 0 <= j < i ==> r[j] == list[j]
    ensures forall j :: i <= j < |r| ==> r[j] == list[j + 1]
    ensures multiset(r) + multiset{list[i]} == multiset(list)
    ensures NoDuplicates(list) ==> NoDuplicates(r) && list[i] !in r
  {
    assert list == list[..i] + [list[i]] + list[i + 1..];
    list[..i] + list[i + 1..]
  }
}
