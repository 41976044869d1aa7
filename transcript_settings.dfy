/** The state updates of the transcription settings panel
    (frontend/src/components/TranscriptSettings.tsx): adding and removing
    word-boost terms, and choosing the summary model and type. Each update
    computes a new settings value from the old one. */
module TranscriptSettings {
  import opened Sequences
  import opened TranscriptTypes

  /** The characters `String.prototype.trim` removes: white space and line
      terminators as JavaScript defines them. */
  predicate IsSpace(c: char)
  {
    || c == '\t' || c == '\n' || c == '\U{000B}' || c == '\U{000C}' || c == '\r' || c == ' '
    || c == '\U{00A0}' || c == '\U{1680}' || ('\U{2000}' <= c <= '\U{200A}')
    || c == '\U{2028}' || c == '\U{2029}' || c == '\U{202F}' || c == '\U{205F}'
    || c == '\U{3000}' || c == '\U{FEFF}'
  }

  predicate AllSpace(s: string)
  {
    forall i :: 0 <= i < |s| ==> IsSpace(s[i])
  }

  /** The number of white-space characters `s` starts with. */
  function LeadingSpace(s: string): (k: nat)
    ensures k <= |s| && AllSpace(s[..k])
    ensures k < |s| ==> !IsSpace(s[k])
  {
    if s == [] || !IsSpace(s[0]) then 0
    else
      var k := 1 + LeadingSpace(s[1..]);
      assert forall i :: 1 <= i < k ==> s[i] == s[1..][i - 1];
      k
  }

  /** The number of white-space characters `s` ends with. */
  function TrailingSpace(s: string): (k: nat)
    ensures k <= |s| && AllSpace(s[|s| - k..])
    ensures k < |s| ==> !IsSpace(s[|s| - k - 1])
  {
    if s == [] || !IsSpace(s[|s| - 1]) then 0
    else
      var k := 1 + TrailingSpace(s[..|s| - 1]);
      assert forall i :: |s| - k <= i < |s| - 1 ==> s[i] == s[..|s| - 1][i];
      k
  }

  /** `s.trim()`: `s` without its leading and trailing white space. */
  function Trim(s: string): (r: string)
    ensures exists i, j :: 0 <= i <= j <= |s| && r == s[i..j] && AllSpace(s[..i]) && AllSpace(s[j..])
    ensures r != [] ==> !IsSpace(r[0]) && !IsSpace(r[|r| - 1])
    ensures r == [] <==> AllSpace(s)
  {
    var a := LeadingSpace(s);
    var t := s[a..];
    var b := TrailingSpace(t);
    var r := t[..|t| - b];
    assert r == s[a..|s| - b];
    assert s[|s| - b..] == t[|t| - b..];
    r
  }

  /** Trimming twice is trimming once. */
  lemma TrimIdempotent(s: string)
    ensures Trim(Trim(s)) == Trim(s)
  {
    var r := Trim(s);
    assert LeadingSpace(r) == 0;
    assert TrailingSpace(r[0..]) == 0;
    assert r[0..] == r;
  }

  /** The settings panel's editable state: the speech settings it shows and
      the word-boost input box. */
  datatype Panel = Panel(settings: SpeechSettings, input: string)

  /** `handleWordBoostAdd`: on Enter, with something besides white space in
      the box, append the trimmed input and clear the box. */
  function HandleWordBoostAdd(p: Panel, key: string): Panel
  {
    if key == "Enter" && Trim(p.input) != "" then
      Panel(p.settings.(wordBoost := p.settings.wordBoost + [Trim(p.input)]), "")
    else p
  }

  /** `removeWordBoost`: drop every occurrence of `word`. */
  function RemoveWordBoost(s: SpeechSettings, word: string): SpeechSettings
  {
    s.(wordBoost := Filter(s.wordBoost, w => w != word))
  }

  /** An accepted add appends the trimmed word at the end, clears the box and
      changes nothing else; a word already present is added once more. */
  lemma AddAppendsTrimmed(p: Panel, key: string)
    requires key == "Enter" && !AllSpace(p.input)
    ensures var q := HandleWordBoostAdd(p, key);
      && q.settings.wordBoost[..|p.settings.wordBoost|] == p.settings.wordBoost
      && |q.settings.wordBoost| == |p.settings.wordBoost| + 1
      && q.settings.wordBoost[|p.settings.wordBoost|] == Trim(p.input)
      && q.input == ""
      && q.settings.(wordBoost := p.settings.wordBoost) == p.settings
      && multiset(q.settings.wordBoost)[Trim(p.input)] == multiset(p.settings.wordBoost)[Trim(p.input)] + 1
  {
    var q := HandleWordBoostAdd(p, key);
    assert q.settings.wordBoost == p.settings.wordBoost + [Trim(p.input)];
  }

  /** Any other key, or a box holding only white space, changes nothing. */
  lemma AddIgnored(p: Panel, key: string)
    requires key != "Enter" || AllSpace(p.input)
    ensures HandleWordBoostAdd(p, key) == p
  {
  }

  /** Removal keeps every other word, in order and as often as it occurred,
      and changes no other setting. */
  lemma RemoveKeepsOthers(s: SpeechSettings, word: string)
    ensures word !in RemoveWordBoost(s, word).wordBoost
    ensures forall w :: w != word ==> multiset(RemoveWordBoost(s, word).wordBoost)[w] == multiset(s.wordBoost)[w]
    ensures IsSubsequence(RemoveWordBoost(s, word).wordBoost, s.wordBoost)
    ensures RemoveWordBoost(s, word).(wordBoost := s.wordBoost) == s
  {
  }

  /** Removing a word just added removes every copy, the new one included. */
  lemma RemoveAfterAdd(p: Panel)
    requires !AllSpace(p.input)
    ensures RemoveWordBoost(HandleWordBoostAdd(p, "Enter").settings, Trim(p.input))
         == RemoveWordBoost(p.settings, Trim(p.input))
  {
    var w := Trim(p.input);
    FilterConcat(p.settings.wordBoost, [w], x => x != w);
    assert Filter([w], x => x != w) == [];
  }

  /** The summary-type dropdown lists the supported types of the model. */
  function SummaryTypeOptions(m: SummaryModel): seq<SummaryType>
  {
    SummaryModelConfig(m).supportedSummaryTypes
  }

  /** Choosing option `i` of the type dropdown. */
  function SelectSummaryType(ai: AudioIntelligence, i: nat): (r: AudioIntelligence)
    requires i < |SummaryTypeOptions(ai.summaryModel)|
    ensures Supported(r.summaryModel, r.summaryType)
    ensures r.(summaryType := ai.summaryType) == ai
  {
    ai.(summaryType := SummaryTypeOptions(ai.summaryModel)[i])
  }

  /** Choosing a model from the model dropdown; the type is kept. */
  function SelectSummaryModel(ai: AudioIntelligence, m: SummaryModel): AudioIntelligence
  {
    ai.(summaryModel := m)
  }

  /** Changing the model does not revisit the type, so a supported pair can
      become unsupported: bullets chosen under informative stays selected
      after switching to catchy. */
  lemma ModelChangeKeepsUnsupportedType()
    ensures var ai := SelectSummaryType(AudioIntelligence(true, Paragraph, Informative), 0);
      && Supported(ai.summaryModel, ai.summaryType)
      && SelectSummaryModel(ai, Catchy) == AudioIntelligence(true, Bullets, Catchy)
      && !Supported(Catchy, Bullets)
  {
  }
}
