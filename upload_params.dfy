/** How the `/upload` handler turns the user's settings into the parameter
    object it sends to the transcription provider (backend/index.js). */
module UploadParams {
  import opened Objects
  import opened TranscriptTypes

  /** The `parameters` object of the handler. */
  type Params = Object<RequestKey>

  /** `extra_params`: the bundle chosen by `summary_model`. The branch for
      `conversational` leaves `dual_channel` out. */
  function Preset(m: SummaryModel): Params
  {
    if m == Informative then
      [Entry(PunctuateKey, Bool(true)), Entry(FormatTextKey, Bool(true))]
    else if m == Conversational then
      [Entry(PunctuateKey, Bool(true)), Entry(FormatTextKey, Bool(true)), Entry(SpeakerLabelsKey, Bool(true))]
    else
      [Entry(PunctuateKey, Bool(true)), Entry(FormatTextKey, Bool(true))]
  }

  /** `...(word_boost.length > 0 && { word_boost, boost_param: 'high' })` */
  function BoostSpread(wordBoost: seq<string>): Params
  {
    if |wordBoost| > 0 then [Entry(WordBoostKey, StrList(wordBoost)), Entry(BoostParamKey, Str("high"))] else []
  }

  /** `...(summarization && { summarization, summary_type, summary_model })` */
  function SummarySpread(ai: AudioIntelligence): Params
  {
    if ai.summarization then
      [Entry(SummarizationKey, Bool(true)),
       Entry(SummaryTypeKey, Str(SummaryTypeText(ai.summaryType))),
       Entry(SummaryModelKey, Str(SummaryModelText(ai.summaryModel)))]
    else []
  }

  function Head(audio: string, s: SpeechSettings): Params
  {
    [Entry(AudioKey, Str(audio)), Entry(SpeechModelKey, Str(SpeechModelText(s.speechModel)))]
  }

  function Middle(s: SpeechSettings): Params
  {
    [Entry(FilterProfanityKey, Bool(s.filterProfanity)),
     Entry(AudioStartFromKey, Num(s.audioStartFrom)),
     Entry(AudioEndAtKey, Num(s.audioEndAt))]
  }

  /** The object literal the handler builds, spreads in source order. No key
      of one part occurs in another, so the spreads only ever add keys. */
  function Derive(audio: string, s: SpeechSettings, ai: AudioIntelligence): Params
  {
    Head(audio, s) + (BoostSpread(s.wordBoost) + (Middle(s) + (SummarySpread(ai) + Preset(ai.summaryModel))))
  }

  /** A property of the derived object is read from the first part that has it. */
  lemma DeriveGet(audio: string, s: SpeechSettings, ai: AudioIntelligence, k: RequestKey)
    ensures Get(Derive(audio, s, ai), k)
         == OrElse(Get(Head(audio, s), k), OrElse(Get(BoostSpread(s.wordBoost), k),
            OrElse(Get(Middle(s), k), OrElse(Get(SummarySpread(ai), k), Get(Preset(ai.summaryModel), k)))))
  {
    var summ := SummarySpread(ai) + Preset(ai.summaryModel);
    var mid := Middle(s) + summ;
    var boost := BoostSpread(s.wordBoost) + mid;
    GetConcat(SummarySpread(ai), Preset(ai.summaryModel), k);
    GetConcat(Middle(s), summ, k);
    GetConcat(BoostSpread(s.wordBoost), mid, k);
    GetConcat(Head(audio, s), boost, k);
  }

  lemma GetHead(audio: string, s: SpeechSettings, k: RequestKey)
    ensures Get(Head(audio, s), k)
         == if k == AudioKey then Some(Str(audio))
            else if k == SpeechModelKey then Some(Str(SpeechModelText(s.speechModel)))
            else None
  {
    GetOfTwo(Entry(AudioKey, Str(audio)), Entry(SpeechModelKey, Str(SpeechModelText(s.speechModel))), k);
  }

  lemma GetBoostSpread(ws: seq<string>, k: RequestKey)
    ensures Get(BoostSpread(ws), k)
         == if |ws| > 0 && k == WordBoostKey then Some(StrList(ws))
            else if |ws| > 0 && k == BoostParamKey then Some(Str("high"))
            else None
  {
    GetOfTwo(Entry(WordBoostKey, StrList(ws)), Entry(BoostParamKey, Str("high")), k);
  }

  lemma GetMiddle(s: SpeechSettings, k: RequestKey)
    ensures Get(Middle(s), k)
         == if k == FilterProfanityKey then Some(Bool(s.filterProfanity))
            else if k == AudioStartFromKey then Some(Num(s.audioStartFrom))
            else if k == AudioEndAtKey then Some(Num(s.audioEndAt))
            else None
  {
    GetOfThree(Entry(FilterProfanityKey, Bool(s.filterProfanity)), Entry(AudioStartFromKey, Num(s.audioStartFrom)),
               Entry(AudioEndAtKey, Num(s.audioEndAt)), k);
  }

  lemma GetSummarySpread(ai: AudioIntelligence, k: RequestKey)
    ensures Get(SummarySpread(ai), k)
         == if ai.summarization && k == SummarizationKey then Some(Bool(true))
            else if ai.summarization && k == SummaryTypeKey then Some(Str(SummaryTypeText(ai.summaryType)))
            else if ai.summarization && k == SummaryModelKey then Some(Str(SummaryModelText(ai.summaryModel)))
            else None
  {
    GetOfThree(Entry(SummarizationKey, Bool(true)), Entry(SummaryTypeKey, Str(SummaryTypeText(ai.summaryType))),
               Entry(SummaryModelKey, Str(SummaryModelText(ai.summaryModel))), k);
  }

  lemma GetPreset(m: SummaryModel, k: RequestKey)
    ensures Get(Preset(m), k)
         == if k == PunctuateKey || k == FormatTextKey then Some(Bool(true))
            else if k == SpeakerLabelsKey && m == Conversational then Some(Bool(true))
            else None
  {
    GetOfTwo(Entry(PunctuateKey, Bool(true)), Entry(FormatTextKey, Bool(true)), k);
    GetOfThree(Entry(PunctuateKey, Bool(true)), Entry(FormatTextKey, Bool(true)), Entry(SpeakerLabelsKey, Bool(true)), k);
  }

  /** What the provider receives under each key, key by key: an independent
      statement of the handler's rules, against which `Derive` is proved. */
  function Expected(audio: string, s: SpeechSettings, ai: AudioIntelligence, k: RequestKey): Option<Value>
  {
    match k
    case AudioKey => Some(Str(audio))
    case SpeechModelKey => Some(Str(SpeechModelText(s.speechModel)))
    case WordBoostKey => if |s.wordBoost| > 0 then Some(StrList(s.wordBoost)) else None
    case BoostParamKey => if |s.wordBoost| > 0 then Some(Str("high")) else None
    case FilterProfanityKey => Some(Bool(s.filterProfanity))
    case AudioStartFromKey => Some(Num(s.audioStartFrom))
    case AudioEndAtKey => Some(Num(s.audioEndAt))
    case SummarizationKey => if ai.summarization then Some(Bool(true)) else None
    case SummaryTypeKey => if ai.summarization then Some(Str(SummaryTypeText(ai.summaryType))) else None
    case SummaryModelKey => if ai.summarization then Some(Str(SummaryModelText(ai.summaryModel))) else None
    case PunctuateKey => Some(Bool(true))
    case FormatTextKey => Some(Bool(true))
    case SpeakerLabelsKey => if ai.summaryModel == Conversational then Some(Bool(true)) else None
    case DualChannelKey => None
  }

  lemma DeriveMeetsExpected(audio: string, s: SpeechSettings, ai: AudioIntelligence, k: RequestKey)
    ensures Get(Derive(audio, s, ai), k) == Expected(audio, s, ai, k)
  {
    DeriveGet(audio, s, ai, k);
    GetHead(audio, s, k);
    GetBoostSpread(s.wordBoost, k);
    GetMiddle(s, k);
    GetSummarySpread(ai, k);
    GetPreset(ai.summaryModel, k);
  }

  /** The audio source and the speech settings are copied as given. */
  lemma DeriveCopiesSettings(audio: string, s: SpeechSettings, ai: AudioIntelligence)
    ensures Get(Derive(audio, s, ai), AudioKey) == Some(Str(audio))
    ensures Get(Derive(audio, s, ai), SpeechModelKey) == Some(Str(SpeechModelText(s.speechModel)))
    ensures Get(Derive(audio, s, ai), FilterProfanityKey) == Some(Bool(s.filterProfanity))
    ensures Get(Derive(audio, s, ai), AudioStartFromKey) == Some(Num(s.audioStartFrom))
    ensures Get(Derive(audio, s, ai), AudioEndAtKey) == Some(Num(s.audioEndAt))
  {
    DeriveMeetsExpected(audio, s, ai, AudioKey);
    DeriveMeetsExpected(audio, s, ai, SpeechModelKey);
    DeriveMeetsExpected(audio, s, ai, FilterProfanityKey);
    DeriveMeetsExpected(audio, s, ai, AudioStartFromKey);
    DeriveMeetsExpected(audio, s, ai, AudioEndAtKey);
  }

  /** `word_boost` and `boost_param: 'high'` are both present exactly when
      the word list is non-empty; an empty list sends neither. */
  lemma DeriveWordBoost(audio: string, s: SpeechSettings, ai: AudioIntelligence)
    ensures HasKey(Derive(audio, s, ai), WordBoostKey) <==> |s.wordBoost| > 0
    ensures HasKey(Derive(audio, s, ai), BoostParamKey) <==> |s.wordBoost| > 0
    ensures |s.wordBoost| > 0 ==> Get(Derive(audio, s, ai), WordBoostKey) == Some(StrList(s.wordBoost))
    ensures |s.wordBoost| > 0 ==> Get(Derive(audio, s, ai), BoostParamKey) == Some(Str("high"))
  {
    DeriveMeetsExpected(audio, s, ai, WordBoostKey);
    DeriveMeetsExpected(audio, s, ai, BoostParamKey);
  }

  /** The three summarization fields are present exactly when summarization
      is on, and then carry the chosen type and model. */
  lemma DeriveSummarization(audio: string, s: SpeechSettings, ai: AudioIntelligence)
    ensures HasKey(Derive(audio, s, ai), SummarizationKey) <==> ai.summarization
    ensures HasKey(Derive(audio, s, ai), SummaryTypeKey) <==> ai.summarization
    ensures HasKey(Derive(audio, s, ai), SummaryModelKey) <==> ai.summarization
    ensures ai.summarization ==>
      && Get(Derive(audio, s, ai), SummarizationKey) == Some(Bool(true))
      && Get(Derive(audio, s, ai), SummaryTypeKey) == Some(Str(SummaryTypeText(ai.summaryType)))
      && Get(Derive(audio, s, ai), SummaryModelKey) == Some(Str(SummaryModelText(ai.summaryModel)))
  {
    DeriveMeetsExpected(audio, s, ai, SummarizationKey);
    DeriveMeetsExpected(audio, s, ai, SummaryTypeKey);
    DeriveMeetsExpected(audio, s, ai, SummaryModelKey);
  }

  /** `punctuate` and `format_text` are always sent, whether or not
      summarization is on; `speaker_labels` only for the conversational
      model; `dual_channel` never. */
  lemma DerivePreset(audio: string, s: SpeechSettings, ai: AudioIntelligence)
    ensures Get(Derive(audio, s, ai), PunctuateKey) == Some(Bool(true))
    ensures Get(Derive(audio, s, ai), FormatTextKey) == Some(Bool(true))
    ensures HasKey(Derive(audio, s, ai), SpeakerLabelsKey) <==> ai.summaryModel == Conversational
    ensures ai.summaryModel == Conversational ==> Get(Derive(audio, s, ai), SpeakerLabelsKey) == Some(Bool(true))
    ensures !HasKey(Derive(audio, s, ai), DualChannelKey)
  {
    DeriveMeetsExpected(audio, s, ai, PunctuateKey);
    DeriveMeetsExpected(audio, s, ai, FormatTextKey);
    DeriveMeetsExpected(audio, s, ai, SpeakerLabelsKey);
    DeriveMeetsExpected(audio, s, ai, DualChannelKey);
  }

  /** The backend does not check the type against the model's supported
      types: an unsupported pair is sent to the provider unchanged. */
  lemma DeriveSendsUnsupportedPair(audio: string, s: SpeechSettings)
    ensures !Supported(Catchy, Bullets)
    ensures Get(Derive(audio, s, AudioIntelligence(true, Bullets, Catchy)), SummaryTypeKey) == Some(Str("bullets"))
  {
    DeriveSummarization(audio, s, AudioIntelligence(true, Bullets, Catchy));
  }

  /** The conversational row of the frontend table asks for `dual_channel`;
      the backend bundle for that model does not send it. For the other two
      models bundle and table agree. */
  lemma PresetAgainstTable(m: SummaryModel)
    ensures m != Conversational ==> Preset(m) == SummaryModelConfig(m).requiredParameters
    ensures Preset(Conversational) + [Entry(DualChannelKey, Bool(true))]
         == SummaryModelConfig(Conversational).requiredParameters
  {
  }

  /** Position of each key in the fixed order of the parameter object. */
  function Rank(k: RequestKey): nat
  {
    match k
    case AudioKey => 0
    case SpeechModelKey => 1
    case WordBoostKey => 2
    case BoostParamKey => 3
    case FilterProfanityKey => 4
    case AudioStartFromKey => 5
    case AudioEndAtKey => 6
    case SummarizationKey => 7
    case SummaryTypeKey => 8
    case SummaryModelKey => 9
    case PunctuateKey => 10
    case FormatTextKey => 11
    case SpeakerLabelsKey => 12
    case DualChannelKey => 13
  }

  /** Keys in strictly increasing rank, all within `[lo, hi)`. */
  predicate OrderedWithin(ks: seq<RequestKey>, lo: nat, hi: nat)
  {
    && (forall i :: 0 <= i < |ks| ==> lo <= Rank(ks[i]) < hi)
    && (forall i, j :: 0 <= i < j < |ks| ==> Rank(ks[i]) < Rank(ks[j]))
  }

  lemma {:induction false} OrderedConcat(a: seq<RequestKey>, b: seq<RequestKey>, lo: nat, mid: nat, hi: nat)
    requires lo <= mid <= hi
    requires OrderedWithin(a, lo, mid) && OrderedWithin(b, mid, hi)
    ensures OrderedWithin(a + b, lo, hi)
  {
    var ab := a + b;
    forall i | 0 <= i < |ab|
      ensures lo <= Rank(ab[i]) < hi
    {
      if i < |a| {
        assert ab[i] == a[i];
      } else {
        assert ab[i] == b[i - |a|];
      }
    }
    forall i, j | 0 <= i < j < |ab|
      ensures Rank(ab[i]) < Rank(ab[j])
    {
      if j < |a| {
        assert ab[i] == a[i] && ab[j] == a[j];
      } else if i < |a| {
        assert ab[i] == a[i] && ab[j] == b[j - |a|];
      } else {
        assert ab[i] == b[i - |a|] && ab[j] == b[j - |a|];
      }
    }
  }

  lemma HeadKeys(audio: string, s: SpeechSettings)
    ensures OrderedWithin(Keys(Head(audio, s)), 0, 2)
  {
    KeysOfTwo(Entry(AudioKey, Str(audio)), Entry(SpeechModelKey, Str(SpeechModelText(s.speechModel))), 0, 2);
  }

  lemma BoostSpreadKeys(ws: seq<string>)
    ensures OrderedWithin(Keys(BoostSpread(ws)), 2, 4)
  {
    if |ws| > 0 {
      KeysOfTwo(Entry(WordBoostKey, StrList(ws)), Entry(BoostParamKey, Str("high")), 2, 4);
    }
  }

  lemma MiddleKeys(s: SpeechSettings)
    ensures OrderedWithin(Keys(Middle(s)), 4, 7)
  {
    KeysOfThree(Entry(FilterProfanityKey, Bool(s.filterProfanity)), Entry(AudioStartFromKey, Num(s.audioStartFrom)),
                Entry(AudioEndAtKey, Num(s.audioEndAt)), 4, 7);
  }

  lemma SummarySpreadKeys(ai: AudioIntelligence)
    ensures OrderedWithin(Keys(SummarySpread(ai)), 7, 10)
  {
    if ai.summarization {
      KeysOfThree(Entry(SummarizationKey, Bool(true)), Entry(SummaryTypeKey, Str(SummaryTypeText(ai.summaryType))),
                  Entry(SummaryModelKey, Str(SummaryModelText(ai.summaryModel))), 7, 10);
    }
  }

  lemma PresetKeys(m: SummaryModel)
    ensures OrderedWithin(Keys(Preset(m)), 10, 13)
  {
    if m == Conversational {
      KeysOfThree(Entry(PunctuateKey, Bool(true)), Entry(FormatTextKey, Bool(true)), Entry(SpeakerLabelsKey, Bool(true)), 10, 13);
    } else {
      KeysOfTwo(Entry(PunctuateKey, Bool(true)), Entry(FormatTextKey, Bool(true)), 10, 13);
    }
  }

  lemma KeysOfTwo(e1: Entry<RequestKey>, e2: Entry<RequestKey>, lo: nat, hi: nat)
    requires lo <= Rank(e1.key) < Rank(e2.key) < hi
    ensures OrderedWithin(Keys([e1, e2]), lo, hi)
  {
    assert Keys([e1, e2]) == [e1.key, e2.key];
  }

  lemma KeysOfThree(e1: Entry<RequestKey>, e2: Entry<RequestKey>, e3: Entry<RequestKey>, lo: nat, hi: nat)
    requires lo <= Rank(e1.key) < Rank(e2.key) < Rank(e3.key) < hi
    ensures OrderedWithin(Keys([e1, e2, e3]), lo, hi)
  {
    assert Keys([e1, e2, e3]) == [e1.key, e2.key, e3.key];
  }

  /** Keys in strictly increasing rank are pairwise different. */
  lemma OrderedDistinct(o: Params, lo: nat, hi: nat)
    requires OrderedWithin(Keys(o), lo, hi)
    ensures DistinctKeys(o)
  {
    forall i, j | 0 <= i < j < |o|
      ensures o[i].key != o[j].key
    {
      assert Rank(Keys(o)[i]) < Rank(Keys(o)[j]);
    }
  }

  /** The parameter object always lists its keys in the order
      audio, speech_model, [word_boost, boost_param], filter_profanity,
      audio_start_from, audio_end_at, [summarization, summary_type,
      summary_model], punctuate, format_text, [speaker_labels];
      in particular no key occurs twice. */
  lemma DeriveKeyOrder(audio: string, s: SpeechSettings, ai: AudioIntelligence)
    ensures OrderedWithin(Keys(Derive(audio, s, ai)), 0, 13)
    ensures DistinctKeys(Derive(audio, s, ai))
  {
    var head, boost, middle, summ, preset :=
      Head(audio, s), BoostSpread(s.wordBoost), Middle(s), SummarySpread(ai), Preset(ai.summaryModel);
    HeadKeys(audio, s);
    BoostSpreadKeys(s.wordBoost);
    MiddleKeys(s);
    SummarySpreadKeys(ai);
    PresetKeys(ai.summaryModel);
    KeysConcat(summ, preset);
    OrderedConcat(Keys(summ), Keys(preset), 7, 10, 13);
    KeysConcat(middle, summ + preset);
    OrderedConcat(Keys(middle), Keys(summ + preset), 4, 7, 13);
    KeysConcat(boost, middle + (summ + preset));
    OrderedConcat(Keys(boost), Keys(middle + (summ + preset)), 2, 4, 13);
    KeysConcat(head, boost + (middle + (summ + preset)));
    OrderedConcat(Keys(head), Keys(boost + (middle + (summ + preset))), 0, 2, 13);
    OrderedDistinct(Derive(audio, s, ai), 0, 13);
  }

  /** The parameter object as a mutable JavaScript object: the snippet
      renderer assigns to its `audio` property in place. */
  class RequestParams {
    var entries: Params

    constructor (entries: Params)
      ensures this.entries == entries
    {
      this.entries := entries;
    }
  }
}
