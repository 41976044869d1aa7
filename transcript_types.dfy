/** The transcription settings the frontend edits and sends to the backend,
    and the table of summary models (frontend/src/types/transcript.ts). */
module TranscriptTypes {
  import opened Objects

  datatype SpeechModel = Best | Nano

  datatype SummaryType = Bullets | BulletsVerbose | Gist | Headline | Paragraph

  datatype SummaryModel = Informative | Conversational | Catchy

  /** The string each option is sent as. */
  function SpeechModelText(m: SpeechModel): string
  {
    match m
    case Best => "best"
    case Nano => "nano"
  }

  function SummaryTypeText(t: SummaryType): string
  {
    match t
    case Bullets => "bullets"
    case BulletsVerbose => "bullets_verbose"
    case Gist => "gist"
    case Headline => "headline"
    case Paragraph => "paragraph"
  }

  function SummaryModelText(m: SummaryModel): string
  {
    match m
    case Informative => "informative"
    case Conversational => "conversational"
    case Catchy => "catchy"
  }

  /** Audio offsets are milliseconds; the frontend derives them from the
      media duration, so they are JavaScript numbers, not integers. */
  datatype SpeechSettings = SpeechSettings(
    speechModel: SpeechModel,
    wordBoost: seq<string>,
    filterProfanity: bool,
    audioStartFrom: real,
    audioEndAt: real)

  datatype AudioIntelligence = AudioIntelligence(
    summarization: bool,
    summaryType: SummaryType,
    summaryModel: SummaryModel)

  /** The keys of a transcription request sent to the provider, and of the
      `required_parameters` of the table below. */
  datatype RequestKey =
    | AudioKey | SpeechModelKey | WordBoostKey | BoostParamKey
    | FilterProfanityKey | AudioStartFromKey | AudioEndAtKey
    | SummarizationKey | SummaryTypeKey | SummaryModelKey
    | PunctuateKey | FormatTextKey | SpeakerLabelsKey | DualChannelKey

  function KeyText(k: RequestKey): string
  {
    match k
    case AudioKey => "audio"
    case SpeechModelKey => "speech_model"
    case WordBoostKey => "word_boost"
    case BoostParamKey => "boost_param"
    case FilterProfanityKey => "filter_profanity"
    case AudioStartFromKey => "audio_start_from"
    case AudioEndAtKey => "audio_end_at"
    case SummarizationKey => "summarization"
    case SummaryTypeKey => "summary_type"
    case SummaryModelKey => "summary_model"
    case PunctuateKey => "punctuate"
    case FormatTextKey => "format_text"
    case SpeakerLabelsKey => "speaker_labels"
    case DualChannelKey => "dual_channel"
  }

  /** One row of `summaryModelConfig`. */
  datatype ModelConfig = ModelConfig(
    isDefault: bool,
    whenToUse: string,
    supportedSummaryTypes: seq<SummaryType>,
    requiredParameters: Object<RequestKey>)

  function SummaryModelConfig(m: SummaryModel): ModelConfig
  {
    match m
    case Informative =>
      ModelConfig(
        true,
        "Best for files with a single speaker, such as presentations or lectures.",
        [Bullets, BulletsVerbose, Headline, Paragraph],
        [Entry(PunctuateKey, Bool(true)), Entry(FormatTextKey, Bool(true))])
    case Conversational =>
      ModelConfig(
        false,
        "Best for any 2-person conversation, such as customer/agent or interview/interviewee calls.",
        [Bullets, BulletsVerbose, Headline, Paragraph],
        [Entry(PunctuateKey, Bool(true)), Entry(FormatTextKey, Bool(true)),
         Entry(SpeakerLabelsKey, Bool(true)), Entry(DualChannelKey, Bool(true))])
    case Catchy =>
      ModelConfig(
        false,
        "Best for creating video, podcast, or media titles.",
        [Headline, Gist],
        [Entry(PunctuateKey, Bool(true)), Entry(FormatTextKey, Bool(true))])
  }

  /** The summary types the settings dropdown offers for a model. Only the
      dropdown consults this; the backend never checks the pairing. */
  predicate Supported(m: SummaryModel, t: SummaryType)
  {
    t in SummaryModelConfig(m).supportedSummaryTypes
  }

  lemma CatchySupportsHeadlineAndGist(t: SummaryType)
    ensures Supported(Catchy, t) <==> t == Headline || t == Gist
  {
  }

  lemma InformativeAndConversationalSupport(t: SummaryType)
    ensures Supported(Informative, t) <==> t in {Bullets, BulletsVerbose, Headline, Paragraph}
    ensures Supported(Conversational, t) <==> Supported(Informative, t)
    ensures !Supported(Informative, Gist)
  {
  }

  /** No summary type is unreachable in the dropdown. */
  lemma EverySummaryTypeHasAModel(t: SummaryType)
    ensures exists m :: Supported(m, t)
  {
    if t == Gist {
      assert Supported(Catchy, t);
    } else {
      assert Supported(Informative, t);
    }
  }

  lemma RequiredParametersOfEveryModel(m: SummaryModel)
    ensures Get(SummaryModelConfig(m).requiredParameters, PunctuateKey) == Some(Bool(true))
    ensures Get(SummaryModelConfig(m).requiredParameters, FormatTextKey) == Some(Bool(true))
    ensures HasKey(SummaryModelConfig(m).requiredParameters, SpeakerLabelsKey) <==> m == Conversational
    ensures HasKey(SummaryModelConfig(m).requiredParameters, DualChannelKey) <==> m == Conversational
  {
    match m
    case Informative =>
    case Conversational =>
    case Catchy =>
  }

  lemma InformativeIsTheOnlyDefault(m: SummaryModel)
    ensures SummaryModelConfig(m).isDefault <==> m == Informative
  {
  }
}
