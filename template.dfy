/**
  The editor page is built once, in the component's constructor, by putting
  the configured colours into an HTML template with `String.prototype.replace`
  called with a string pattern: only the first occurrence is replaced.
 */
module Template {
  import opened Codec

  const BACKGROUND_PLACEHOLDER := "{editorBackgroundColor}"
  const TEXT_COLOR_PLACEHOLDER := "{editorTextColor}"

  /** `pat` occurs in `s` starting at index `i`. */
  predicate OccursAt(s: string, pat: string, i: nat) {
    i + |pat| <= |s| && s[i..i + |pat|] == pat
  }

  /** `i` is the first index at which `pat` occurs in `s`. */
  predicate FirstOccurrence(s: string, pat: string, i: nat) {
    OccursAt(s, pat, i) && forall j: nat :: j < i ==> !OccursAt(s, pat, j)
  }

  /** `s.indexOf(pat, from)`, as an option. */
  function IndexFrom(s: string, pat: string, from: nat): (r: Option<nat>)
    decreases |s| - from
    ensures r.Some? ==> from <= r.value && OccursAt(s, pat, r.value)
    ensures r.Some? ==> forall j: nat :: from <= j < r.value ==> !OccursAt(s, pat, j)
    ensures r.None? ==> forall j: nat :: from <= j ==> !OccursAt(s, pat, j)
  {
    if from + |pat| > |s| then None
    else if s[from..from + |pat|] == pat then Some(from)
    else IndexFrom(s, pat, from + 1)
  }

  /** `s.replace(pat, rep)` for a string pattern and a replacement without `$` patterns. */
  function ReplaceFirst(s: string, pat: string, rep: string): (r: string)
    ensures (forall i: nat :: !OccursAt(s, pat, i)) ==> r == s
    ensures forall i: nat :: FirstOccurrence(s, pat, i) ==> r == s[..i] + rep + s[i + |pat|..]
  {
    match IndexFrom(s, pat, 0)
    case None => s
    case Some(i) =>
      assert FirstOccurrence(s, pat, i);
      forall k: nat | FirstOccurrence(s, pat, k) ensures k == i {
        FirstOccurrenceUnique(s, pat, k, i);
      }
      s[..i] + rep + s[i + |pat|..]
  }

  lemma FirstOccurrenceUnique(s: string, pat: string, i: nat, k: nat)
    requires FirstOccurrence(s, pat, i) && FirstOccurrence(s, pat, k)
    ensures i == k
  {
  }

  /** The page the constructor builds from the template and the two colour props. */
  function EditorHtml(template: string, backgroundColor: string, color: string): (page: string)
    ensures (forall i: nat :: !OccursAt(template, BACKGROUND_PLACEHOLDER, i) && !OccursAt(template, TEXT_COLOR_PLACEHOLDER, i))
            ==> page == template
  {
    ReplaceFirst(ReplaceFirst(template, BACKGROUND_PLACEHOLDER, backgroundColor), TEXT_COLOR_PLACEHOLDER, color)
  }

  /**
    A template `a {editorBackgroundColor} b {editorTextColor} c` whose
    placeholders are the first of their kind (the text one after the
    background colour is filled in) becomes `a bg b color c`.
   */
  lemma EditorHtmlFillsPlaceholders(a: string, b: string, c: string, bg: string, color: string)
    requires FirstOccurrence(a + BACKGROUND_PLACEHOLDER + b + TEXT_COLOR_PLACEHOLDER + c, BACKGROUND_PLACEHOLDER, |a|)
    requires FirstOccurrence(a + bg + b + TEXT_COLOR_PLACEHOLDER + c, TEXT_COLOR_PLACEHOLDER, |a + bg + b|)
    ensures EditorHtml(a + BACKGROUND_PLACEHOLDER + b + TEXT_COLOR_PLACEHOLDER + c, bg, color) == a + bg + b + color + c
  {
    ReplaceTwice(a, BACKGROUND_PLACEHOLDER, b, TEXT_COLOR_PLACEHOLDER, c, bg, color);
  }

  /** Two first-occurrence replacements in turn, each occurrence known. */
  lemma ReplaceTwice(a: string, p1: string, b: string, p2: string, c: string, r1: string, r2: string)
    requires FirstOccurrence(a + p1 + b + p2 + c, p1, |a|)
    requires FirstOccurrence(a + r1 + b + p2 + c, p2, |a + r1 + b|)
    ensures ReplaceFirst(ReplaceFirst(a + p1 + b + p2 + c, p1, r1), p2, r2) == a + r1 + b + r2 + c
  {
    ReplaceFirstOfFive(a, p1, b, p2, c, r1);
    ReplaceFirstAt(a + r1 + b + p2 + c, a + r1 + b, p2, c, r2);
  }

  /** The first of the two replacements, stated on the same five pieces. */
  lemma ReplaceFirstOfFive(a: string, p1: string, b: string, p2: string, c: string, r1: string)
    requires FirstOccurrence(a + p1 + b + p2 + c, p1, |a|)
    ensures ReplaceFirst(a + p1 + b + p2 + c, p1, r1) == a + r1 + b + p2 + c
  {
    ReplaceFirstAt(a + p1 + b + p2 + c, a, p1, b + p2 + c, r1);
  }

  /** Replacing the first occurrence of `pat` in `t`, known to sit right after the prefix `x`. */
  lemma ReplaceFirstAt(t: string, x: string, pat: string, y: string, rep: string)
    requires t == x + pat + y
    requires FirstOccurrence(t, pat, |x|)
    ensures ReplaceFirst(t, pat, rep) == x + rep + y
  {
    assert t[..|x|] == x;
    assert t[|x| + |pat|..] == y;
  }
}
