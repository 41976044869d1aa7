/** The context string the `/summary` handler builds from the three context
    fields the user typed (backend/index.js). The label of the first field is
    spelled `happing:`; that spelling is what the provider receives. */
module LemurContext {
  import opened Objects

  const HappeningLabel: string := "happing:"
  const LocationLabel: string := " location:"
  const AdditionalLabel: string := " additional:"

  /** `${x}` of a property that may be `undefined`. */
  function Display(x: Option<string>): string
  {
    if x.None? then "undefined" else x.value
  }

  /** The `context` property of a summary request: the object of three
      fields the frontend sends, the string the handler overwrites it with,
      or no value at all. A field the object lacks is None (`undefined`). */
  datatype Context =
    | Structured(happening: Option<string>, location: Option<string>, additional: Option<string>)
    | Flattened(text: string)
    | Absent

  /** `const { happening, location, additional } = context`. A string has
      none of the three properties; destructuring a missing value throws,
      which is None here. */
  function Destructure(c: Context): Option<(Option<string>, Option<string>, Option<string>)>
  {
    match c
    case Structured(h, l, a) => Some((h, l, a))
    case Flattened(_) => Some((None, None, None))
    case Absent => None
  }

  /** `${context}`: what a template literal shows for the property. */
  function ContextText(c: Context): string
  {
    match c
    case Structured(_, _, _) => "[object Object]"
    case Flattened(s) => s
    case Absent => "undefined"
  }

  /** The template literal `happing:${h} location:${l} additional:${a}`. */
  function Flatten(h: string, l: string, a: string): string
  {
    HappeningLabel + h + LocationLabel + l + AdditionalLabel + a
  }

  /** The same template over fields that may be `undefined`. */
  function FlattenFields(h: Option<string>, l: Option<string>, a: Option<string>): string
  {
    Flatten(Display(h), Display(l), Display(a))
  }

  /** `pat` occurs in `s` starting at index `i`. */
  predicate OccursAt(s: string, pat: string, i: int)
  {
    0 <= i && i + |pat| <= |s| && s[i..i + |pat|] == pat
  }

  predicate Contains(s: string, pat: string)
  {
    exists i :: 0 <= i <= |s| && OccursAt(s, pat, i)
  }

  /** The first occurrence of `pat` in `s` at or after `from`. */
  function IndexFrom(s: string, pat: string, from: nat): (r: Option<nat>)
    ensures r.Some? ==> from <= r.value && OccursAt(s, pat, r.value)
    ensures forall j :: from <= j && (r.None? || j < r.value) ==> !OccursAt(s, pat, j)
    decreases |s| - from
  {
    if from + |pat| > |s| then None
    else if s[from..from + |pat|] == pat then Some(from)
    else IndexFrom(s, pat, from + 1)
  }

  /** `s.indexOf(pat)`, with None for -1. */
  function IndexOf(s: string, pat: string): (r: Option<nat>)
    ensures r.Some? ==> OccursAt(s, pat, r.value) && forall j :: 0 <= j < r.value ==> !OccursAt(s, pat, j)
    ensures r.None? <==> !Contains(s, pat)
  {
    IndexFrom(s, pat, 0)
  }

  datatype Fields = Fields(happening: string, location: string, additional: string)

  /** Reads the three fields back out of a flattened context: the first
      `happing:` prefix, then everything up to the first ` location:`, then
      everything up to the next ` additional:`. */
  function Parse(s: string): Option<Fields>
  {
    if |s| < |HappeningLabel| || s[..|HappeningLabel|] != HappeningLabel then None
    else
      var rest := s[|HappeningLabel|..];
      match IndexOf(rest, LocationLabel)
      case None => None
      case Some(i) =>
        var tail := rest[i + |LocationLabel|..];
        match IndexOf(tail, AdditionalLabel)
        case None => None
        case Some(j) => Some(Fields(rest[..i], tail[..j], tail[j + |AdditionalLabel|..]))
  }

  /** A label whose only space is its first character cannot straddle the
      end of a text that does not contain it. */
  lemma {:induction false} FirstOccurrence(x: string, pat: string, y: string)
    requires |pat| > 0 && pat[0] == ' '
    requires forall i :: 0 < i < |pat| ==> pat[i] != ' '
    requires !Contains(x, pat)
    ensures IndexOf(x + pat + y, pat) == Some(|x|)
  {
    var s := x + pat + y;
    assert s[|x|..|x| + |pat|] == pat;
    assert OccursAt(s, pat, |x|);
    forall j | 0 <= j < |x|
      ensures !OccursAt(s, pat, j)
    {
      if j + |pat| <= |x| {
        assert s[j..j + |pat|] == x[j..j + |pat|];
        assert !OccursAt(x, pat, j);
      } else {
        assert s[|x|] == pat[0];
        assert s[j..j + |pat|][|x| - j] == s[|x|];
      }
    }
  }

  /** An occurrence splits the text around it. */
  lemma SplitAt(t: string, pat: string, j: nat)
    requires OccursAt(t, pat, j)
    ensures t == t[..j] + pat + t[j + |pat|..]
  {
    assert t == t[..j] + t[j..j + |pat|] + t[j + |pat|..];
  }

  /** The flattened context can be read back whenever the first field does
      not contain ` location:` and the second does not contain ` additional:`. */
  lemma ParseFlatten(h: string, l: string, a: string)
    requires !Contains(h, LocationLabel) && !Contains(l, AdditionalLabel)
    ensures Parse(Flatten(h, l, a)) == Some(Fields(h, l, a))
  {
    var s := Flatten(h, l, a);
    var tail := l + AdditionalLabel + a;
    assert s == HappeningLabel + (h + LocationLabel + tail);
    assert s[..|HappeningLabel|] == HappeningLabel;
    assert s[|HappeningLabel|..] == h + LocationLabel + tail;
    FirstOccurrence(h, LocationLabel, tail);
    assert (h + LocationLabel + tail)[|h| + |LocationLabel|..] == tail;
    assert (h + LocationLabel + tail)[..|h|] == h;
    FirstOccurrence(l, AdditionalLabel, a);
    assert tail[..|l|] == l;
    assert tail[|l| + |AdditionalLabel|..] == a;
  }

  /** Whatever parses was produced by flattening what it parses to. */
  lemma FlattenParse(s: string, f: Fields)
    requires Parse(s) == Some(f)
    ensures Flatten(f.happening, f.location, f.additional) == s
  {
    var rest := s[|HappeningLabel|..];
    var i := IndexOf(rest, LocationLabel).value;
    var tail := rest[i + |LocationLabel|..];
    var j := IndexOf(tail, AdditionalLabel).value;
    assert f == Fields(rest[..i], tail[..j], tail[j + |AdditionalLabel|..]);
    SplitAt(tail, AdditionalLabel, j);
    SplitAt(rest, LocationLabel, i);
    assert s[..|HappeningLabel|] == HappeningLabel;
    assert s == HappeningLabel + rest;
    Associate(HappeningLabel, f.happening, LocationLabel, f.location, AdditionalLabel, f.additional);
  }

  lemma Associate(a: string, b: string, c: string, d: string, e: string, g: string)
    ensures a + b + c + d + e + g == a + (b + c + (d + e + g))
  {
  }

  /** Different field values can flatten to the same context: the provider
      cannot always tell where one field ends. */
  lemma FlattenNotInjective()
    ensures Flatten("a location:b", "c", "d") == Flatten("a", "b location:c", "d")
    ensures Fields("a location:b", "c", "d") != Fields("a", "b location:c", "d")
  {
  }
}
