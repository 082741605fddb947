/**
 * The copy payload: both text fields are trimmed, and unless both are
 * empty the payload is the base, a line holding "=", and the addon.
 */
module Compose {
  import opened Wrappers
  import opened Text

  /** What goes between the base and the addon: a newline, "=", a newline. */
  const Separator := "\n=\n"

  /** The payload of a copy, or None when the copy action returns early. */
  function Payload(base: string, addon: string): (r: Option<string>)
    ensures r == None <==> AllWhitespace(base) && AllWhitespace(addon)
    ensures r.Some? ==>
      var b, a := Trim(base), Trim(addon);
      && |r.value| == |b| + |Separator| + |a|
      && r.value[..|b|] == b
      && r.value[|b|..|b| + |Separator|] == Separator
      && r.value[|b| + |Separator|..] == a
  {
    var b, a := Trim(base), Trim(addon);
    TrimEmpty(base);
    TrimEmpty(addon);
    if b == "" && a == "" then None else Some(b + Separator + a)
  }

  /** Whitespace typed around either field does not change the payload. */
  lemma PayloadIgnoresPadding(base: string, addon: string, w1: string, w2: string, w3: string, w4: string)
    requires AllWhitespace(w1) && AllWhitespace(w2) && AllWhitespace(w3) && AllWhitespace(w4)
    ensures Payload(w1 + base + w2, w3 + addon + w4) == Payload(base, addon)
  {
    TrimIgnoresPadding(w1, base, w2);
    TrimIgnoresPadding(w3, addon, w4);
    TrimEmpty(base);
    TrimEmpty(addon);
    TrimEmpty(w1 + base + w2);
    TrimEmpty(w3 + addon + w4);
  }
}
