/**
 * The translation template: an instruction sentence built from the
 * settings panel (target language, style, output format and the two
 * permission check boxes) by pushing fixed clauses in a fixed order and
 * joining them with single spaces.
 */
module Translation {
  import opened Text

  const KeepWording := "Keep the wording as close to the original as possible."
  const SoundNatural := "Make the translation sound natural in the target language."
  const NoSlang := "Do not use slang."
  const NoAbbreviations := "Do not use abbreviations."
  const UseMarkdown := "Use Markdown formatting."
  const UseCodeBlock := "Output the translation inside a Markdown code block."
  const PlainText := "Output plain text only."

  const Opening := "Translate the following text into "

  /** The opening clause, which names the target language and closes with a full stop. */
  function Directive(targetLang: string): (r: string)
    ensures |r| == |Opening| + |targetLang| + 1
    ensures r[..|Opening|] == Opening
    ensures r[|Opening|..|r| - 1] == targetLang
    ensures r[|r| - 1] == '.'
  {
    var r := Opening + targetLang + ".";
    assert r[|Opening|..|r| - 1] == targetLang;
    r
  }

  /** The style radio value "faithful" selects literal wording; every other value a natural one. */
  function StyleClause(style: string): (r: string)
    ensures r == KeepWording || r == SoundNatural
    ensures r == KeepWording <==> style == "faithful"
  {
    if style == "faithful" then KeepWording else SoundNatural
  }

  /** The output-format radio value: "markdown", "codeblock", anything else plain text. */
  function FormatClause(outputFormat: string): (r: string)
    ensures r == UseMarkdown || r == UseCodeBlock || r == PlainText
    ensures r == UseMarkdown <==> outputFormat == "markdown"
    ensures r == UseCodeBlock <==> outputFormat == "codeblock"
  {
    if outputFormat == "markdown" then UseMarkdown
    else if outputFormat == "codeblock" then UseCodeBlock
    else PlainText
  }

  /** The clauses in the order they are pushed. */
  function Clauses(targetLang: string, style: string, outputFormat: string, allowSlang: bool, allowAbbrev: bool): (cs: seq<string>)
    ensures |cs| == 3 + (if allowSlang then 0 else 1) + (if allowAbbrev then 0 else 1)
    ensures cs[0] == Directive(targetLang) && cs[1] == StyleClause(style)
    ensures cs[|cs| - 1] == FormatClause(outputFormat)
    ensures NoSlang in cs <==> !allowSlang
    ensures NoAbbreviations in cs <==> !allowAbbrev
  {
    var d := Directive(targetLang);
    assert d[0] == 'T';
    [d, StyleClause(style)]
      + (if allowSlang then [] else [NoSlang])
      + (if allowAbbrev then [] else [NoAbbreviations])
      + [FormatClause(outputFormat)]
  }

  /** An optional clause as it appears in the joined text: nothing, or a space and the clause. */
  function Optional(clause: seq<string>): string {
    if clause == [] then "" else " " + clause[0]
  }

  /**
   * Joining two fixed clauses, two optional ones and a closing one with
   * spaces gives the clauses in that order with one space between
   * neighbours.
   */
  lemma JoinLayout(first: string, second: string, a: seq<string>, b: seq<string>, last: string)
    requires |a| <= 1 && |b| <= 1
    ensures Join([first, second] + a + b + [last], " ")
      == first + " " + second + Optional(a) + Optional(b) + " " + last
  {
    var head := [first, second];
    assert Join(head, " ") == first + " " + second by {
      assert head[1..] == [second];
    }
    var withA := head + a;
    assert Join(withA, " ") == first + " " + second + Optional(a) by {
      if a != [] { assert a == [a[0]]; JoinSnoc(head, " ", a[0]); } else { assert withA == head; }
    }
    var withB := withA + b;
    assert Join(withB, " ") == first + " " + second + Optional(a) + Optional(b) by {
      if b != [] { assert b == [b[0]]; JoinSnoc(withA, " ", b[0]); } else { assert withB == withA; }
    }
    JoinSnoc(withB, " ", last);
  }

  /** The template text, as it is written into the base prompt; its clause order is that of ClauseOrder below. */
  function TranslationPrompt(targetLang: string, style: string, outputFormat: string, allowSlang: bool, allowAbbrev: bool): (r: string)
    ensures r == Directive(targetLang) + " " + StyleClause(style)
         + (if allowSlang then "" else " " + NoSlang)
         + (if allowAbbrev then "" else " " + NoAbbreviations)
         + " " + FormatClause(outputFormat)
  {
    ClauseOrder(targetLang, style, outputFormat, allowSlang, allowAbbrev);
    Join(Clauses(targetLang, style, outputFormat, allowSlang, allowAbbrev), " ")
  }

  /**
   * The clause-ordering law: the joined clauses are the directive, the style
   * clause, the slang clause only when slang is disallowed, the abbreviation
   * clause only when abbreviations are disallowed, and the format clause,
   * with one space between neighbours.
   */
  lemma ClauseOrder(targetLang: string, style: string, outputFormat: string, allowSlang: bool, allowAbbrev: bool)
    ensures Join(Clauses(targetLang, style, outputFormat, allowSlang, allowAbbrev), " ")
      == Directive(targetLang) + " " + StyleClause(style)
         + (if allowSlang then "" else " " + NoSlang)
         + (if allowAbbrev then "" else " " + NoAbbreviations)
         + " " + FormatClause(outputFormat)
  {
    var a: seq<string> := if allowSlang then [] else [NoSlang];
    var b: seq<string> := if allowAbbrev then [] else [NoAbbreviations];
    JoinLayout(Directive(targetLang), StyleClause(style), a, b, FormatClause(outputFormat));
  }
}
