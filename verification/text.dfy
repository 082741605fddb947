/**
 * The two string operations of the page script that come from the JavaScript
 * runtime: String.prototype.trim, which removes ECMAScript white space and
 * line terminators from both ends, and Array.prototype.join.
 */
module Text {

  /** The characters trim removes: ECMAScript WhiteSpace and LineTerminator. */
  predicate IsWhitespace(c: char) {
    || '\t' <= c <= '\r'            // tab, line feed, vertical tab, form feed, carriage return
    || c == ' '
    || c == '\U{00A0}'              // no-break space
    || c == '\U{1680}'              // ogham space mark
    || '\U{2000}' <= c <= '\U{200A}'  // en quad .. hair space
    || c == '\U{2028}' || c == '\U{2029}'  // line and paragraph separators
    || c == '\U{202F}' || c == '\U{205F}' || c == '\U{3000}'
    || c == '\U{FEFF}'              // byte order mark
  }

  predicate AllWhitespace(s: string) {
    forall i :: 0 <= i < |s| ==> IsWhitespace(s[i])
  }

  /** A string that is empty or starts and ends with a non-whitespace character. */
  predicate Trimmed(s: string) {
    s == "" || (!IsWhitespace(s[0]) && !IsWhitespace(s[|s| - 1]))
  }

  /**
   * The position of the first character at or after i that trim keeps, or
   * |s| when there is none: every character skipped is whitespace.
   */
  function SkipLeading(s: string, i: nat): (k: nat)
    requires i <= |s|
    ensures i <= k <= |s|
    ensures forall j :: i <= j < k ==> IsWhitespace(s[j])
    ensures k < |s| ==> !IsWhitespace(s[k])
    decreases |s| - i
  {
    if i < |s| && IsWhitespace(s[i]) then SkipLeading(s, i + 1) else i
  }

  /**
   * The position just past the last character before j (and not before lo)
   * that trim keeps, or lo when there is none: every character skipped is
   * whitespace.
   */
  function SkipTrailing(s: string, lo: nat, j: nat): (k: nat)
    requires lo <= j <= |s|
    ensures lo <= k <= j
    ensures forall i :: k <= i < j ==> IsWhitespace(s[i])
    ensures k > lo ==> !IsWhitespace(s[k - 1])
    decreases j
  {
    if j > lo && IsWhitespace(s[j - 1]) then SkipTrailing(s, lo, j - 1) else j
  }

  /** The number of whitespace characters trim drops at the front of s. */
  function Leading(s: string): nat {
    SkipLeading(s, 0)
  }

  /** String.prototype.trim: the middle of s once the whitespace at both ends is gone. */
  function Trim(s: string): (r: string)
    ensures Trimmed(r)
    ensures Leading(s) + |r| <= |s| && r == s[Leading(s)..Leading(s) + |r|]
    ensures forall i :: 0 <= i < Leading(s) ==> IsWhitespace(s[i])
    ensures forall i :: Leading(s) + |r| <= i < |s| ==> IsWhitespace(s[i])
  {
    var lo := SkipLeading(s, 0);
    var hi := SkipTrailing(s, lo, |s|);
    s[lo..hi]
  }

  /** Trim yields the empty string exactly when s is whitespace only. */
  lemma TrimEmpty(s: string)
    ensures Trim(s) == "" <==> AllWhitespace(s)
  {
    var k := Leading(s);
    if Trim(s) != "" {
      assert Trim(s)[0] == s[k];
    }
  }

  /** Whitespace in front of a character trim keeps (or of nothing) is exactly what trim skips at the front. */
  lemma SkipLeadingOf(s: string, n: nat)
    requires n <= |s|
    requires forall j :: 0 <= j < n ==> IsWhitespace(s[j])
    requires n == |s| || !IsWhitespace(s[n])
    ensures SkipLeading(s, 0) == n
  {
  }

  /** Whitespace behind a character trim keeps is exactly what trim skips at the back. */
  lemma SkipTrailingOf(s: string, lo: nat, n: nat)
    requires lo <= n <= |s|
    requires forall i :: n <= i < |s| ==> IsWhitespace(s[i])
    requires n == lo || !IsWhitespace(s[n - 1])
    ensures SkipTrailing(s, lo, |s|) == n
  {
  }

  /** Trim is characterised by its contract: whitespace padding around a trimmed middle is removed, and only it. */
  lemma TrimOf(p: string, m: string, q: string)
    requires AllWhitespace(p) && AllWhitespace(q) && Trimmed(m)
    ensures Trim(p + m + q) == m
  {
    var s := p + m + q;
    assert forall j :: 0 <= j < |p| ==> s[j] == p[j];
    assert forall j :: 0 <= j < |m| ==> s[|p| + j] == m[j];
    assert forall j :: |p| + |m| <= j < |s| ==> s[j] == q[j - |p| - |m|];
    if m == "" {
      SkipLeadingOf(s, |s|);
    } else {
      SkipLeadingOf(s, |p|);
      SkipTrailingOf(s, |p|, |p| + |m|);
      assert s[|p|..|p| + |m|] == m;
    }
  }

  /** A trimmed string is left as it is. */
  lemma TrimmedFixed(m: string)
    requires Trimmed(m)
    ensures Trim(m) == m
  {
    assert "" + m + "" == m;
    TrimOf("", m, "");
  }

  /** Trimming a trimmed string changes nothing. */
  lemma TrimIdempotent(s: string)
    ensures Trim(Trim(s)) == Trim(s)
  {
    TrimmedFixed(Trim(s));
  }

  /** Two whitespace-only strings make a whitespace-only string. */
  lemma AllWhitespaceConcat(a: string, b: string)
    requires AllWhitespace(a) && AllWhitespace(b)
    ensures AllWhitespace(a + b)
  {
    forall i | 0 <= i < |a + b| ensures IsWhitespace((a + b)[i]) {
      if i < |a| { assert (a + b)[i] == a[i]; } else { assert (a + b)[i] == b[i - |a|]; }
    }
  }

  /** Cutting a string at two positions and gluing the pieces gives it back. */
  lemma SplitAt(s: string, i: nat, j: nat)
    requires i <= j <= |s|
    ensures s == s[..i] + s[i..j] + s[j..]
  {
  }

  /**
   * Regrouping padding around a split string: the outer padding joins the
   * inner one on each side. Kept apart so that the sequence reasoning runs
   * without the trim facts in scope.
   */
  lemma Regroup(w1: string, p: string, m: string, q: string, w2: string)
    ensures w1 + (p + m + q) + w2 == (w1 + p) + m + (q + w2)
  {
  }

  /** Extra whitespace around a field does not change what trim makes of it. */
  lemma TrimIgnoresPadding(w1: string, s: string, w2: string)
    requires AllWhitespace(w1) && AllWhitespace(w2)
    ensures Trim(w1 + s + w2) == Trim(s)
  {
    var m, k := Trim(s), Leading(s);
    var p, q := s[..k], s[k + |m|..];
    assert AllWhitespace(p);
    assert AllWhitespace(q);
    SplitAt(s, k, k + |m|);
    assert s == p + m + q;
    Regroup(w1, p, m, q, w2);
    AllWhitespaceConcat(w1, p);
    AllWhitespaceConcat(q, w2);
    TrimOf(w1 + p, m, q + w2);
  }

  /** The total length of the parts. */
  function TotalLength(parts: seq<string>): nat {
    if parts == [] then 0 else |parts[0]| + TotalLength(parts[1..])
  }

  /** Array.prototype.join on strings: the parts with sep between neighbours, "" for no parts. */
  function Join(parts: seq<string>, sep: string): string {
    if parts == [] then ""
    else if |parts| == 1 then parts[0]
    else parts[0] + sep + Join(parts[1..], sep)
  }

  /**
   * The joined string starts with the first part and holds every part plus
   * one separator between each pair of neighbours.
   */
  lemma {:induction false} JoinShape(parts: seq<string>, sep: string)
    ensures |Join(parts, sep)| == TotalLength(parts) + (if parts == [] then 0 else (|parts| - 1) * |sep|)
    ensures parts != [] ==> Join(parts, sep)[..|parts[0]|] == parts[0]
  {
    if |parts| > 1 {
      JoinShape(parts[1..], sep);
    }
  }

  /** Joining one more part at the end adds the separator and that part. */
  lemma {:induction false} JoinSnoc(parts: seq<string>, sep: string, last: string)
    requires parts != []
    ensures Join(parts + [last], sep) == Join(parts, sep) + sep + last
  {
    var ps := parts + [last];
    assert ps[1..] == parts[1..] + [last];
    if |parts| == 1 {
      assert ps[1..] == [last];
    } else {
      JoinSnoc(parts[1..], sep, last);
    }
  }
}
