/** The two code-snippet renderers of the backend (backend/index.js): the
    example program returned with a transcript, and the one returned with a
    summary. A snippet is a list of pieces: literal chunks of the template,
    interpolated values, and the serialised parameter object. */
module Snippets {
  import opened Objects
  import opened TranscriptTypes
  import opened UploadParams
  import opened LemurContext

  /** The literal chunks of the two templates, in the order they occur. */
  datatype Fragment =
    | Prelude
    | TranscriptAfterKey | TranscriptAfterParams | SummaryLog | TranscriptClosing
    | SummaryAfterKey
    | TaskOpen | TaskAfterPrompt | TaskAfterId | TaskAfterModel | TaskAfterTemperature | TaskClose
    | BlockGap
    | CustomOpen | CustomAfterId | CustomAfterModel | CustomAfterPrompt
    | CustomAfterTemperature | CustomAfterContext | CustomAfterFormat | CustomClose
    | SummaryClosing

  /** The opening of both snippets, up to the quote before the API key. */
  const PreludeBeforeQuote: string := "\n// Make sure you installed the assemblyai package\nconst { AssemblyAI } = require('assemblyai');\n\n// Initialize the AssemblyAI client with the provided API key\nconst client = new AssemblyAI({\n  apiKey: "

  function FragmentText(f: Fragment): string
  {
    match f
    case Prelude => PreludeBeforeQuote + "'"
    case TranscriptAfterKey => "'" + "\n});\n\n// Parameters for the transcription request\nconst params = "
    case TranscriptAfterParams => ";\n\n// Function to run the transcription\nconst run = async () => {\n  try {\n    // Send the transcription request to AssemblyAI\n    const transcript = await client.transcripts.transcribe(params);\n\n    if (transcript.status === 'error') {\n      // Throw an error if the transcription failed\n      throw new Error(transcript.error);\n    } else {\n     // Log the transcript text\n      console.log('Transcription successful:', transcript.text);\n      "
    case SummaryLog => "\n      // Log the summary text\n      console.log('Summary successful:', transcript.summary);\n      "
    case TranscriptClosing => "\n    }\n  } catch (error) {\n    // Log any errors that occur during the transcription process\n    console.error('Error occurred during transcription:', error.message);\n  }\n};\n\n// Run the transcription function\nrun();\n    "
    case SummaryAfterKey => "'" + "\n});\n\nconst run = async () => {\n  try {\n    "
    case TaskOpen => "\n    // Step 1: Define a summarization prompt.\n    const prompt = \""
    case TaskAfterPrompt => "\";\n\n    // Step 2: Apply LeMUR.\n    const { response } = await client.lemur.task({\n        transcript_ids: [\""
    case TaskAfterId => "\"],\n        prompt,\n        final_model: '"
    case TaskAfterModel => "',\n        temperature: "
    case TaskAfterTemperature => ",\n        max_output_size: "
    case TaskClose => "\n    });\n\n    console.log(response)\n    "
    case BlockGap => "\n    "
    case CustomOpen => "\n    const { response } = await client.lemur.summary({\n    transcript_ids: [\""
    case CustomAfterId => "\"],\n    final_model: '"
    case CustomAfterModel => "',\n    prompt: \""
    case CustomAfterPrompt => "\",\n    temperature: "
    case CustomAfterTemperature => ",\n    context: \""
    case CustomAfterContext => "\",\n    answer_format: '"
    case CustomAfterFormat => "',\n    max_output_size: "
    case CustomClose => "\n    })\n\n    console.log(response)\n    "
    case SummaryClosing => "\n    }\n  } catch (error) {\n    // Log any errors that occur during the summary generation process\n    console.error('Error occurred during summary:', error.message);\n  }\n};\n\n// Run the transcription function\nrun();\n    "
  }

  datatype Piece =
    | Lit(f: Fragment)
    | Interp(v: Value)
    | Json(p: Params)

  /** `${v}` for the values that occur in the templates; numbers are shown
      by `numText`, JavaScript's number-to-string conversion. */
  function ValueText(v: Value, numText: real -> string): string
  {
    match v
    case Str(s) => s
    case Bool(b) => if b then "true" else "false"
    case Num(n) => numText(n)
    case StrList(items) => Join(items)
  }

  /** `${array}`: the elements separated by commas. `ValueText` covers every
      `Value`, but neither template interpolates a list. */
  function Join(items: seq<string>): string
  {
    if items == [] then "" else if |items| == 1 then items[0] else items[0] + "," + Join(items[1..])
  }

  function PieceText(x: Piece, stringify: Params -> string, numText: real -> string): string
  {
    match x
    case Lit(f) => FragmentText(f)
    case Interp(v) => ValueText(v, numText)
    case Json(p) => stringify(p)
  }

  /** The snippet as text, each piece shown by `show`. */
  function Text(pieces: seq<Piece>, show: Piece -> string): string
  {
    if pieces == [] then "" else show(pieces[0]) + Text(pieces[1..], show)
  }

  /** The text of the template; `stringify` stands for
      `JSON.stringify(_, null, 2)`. */
  function Show(stringify: Params -> string, numText: real -> string): Piece -> string
  {
    x => PieceText(x, stringify, numText)
  }

  lemma {:induction false} TextConcat(a: seq<Piece>, b: seq<Piece>, show: Piece -> string)
    ensures Text(a + b, show) == Text(a, show) + Text(b, show)
  {
    if a == [] {
      assert a + b == b;
    } else {
      assert (a + b)[0] == a[0];
      assert (a + b)[1..] == a[1..] + b;
      TextConcat(a[1..], b, show);
    }
  }

  /** The audio path written into snippets for uploaded files. */
  const AudioPlaceholder: string := "replace_with_your_actual_audio_system_path"

  /** The parameters after the renderer's in-place edit: an uploaded file's
      staging path is replaced by the placeholder; a URL is kept. */
  function SnippetParams(p: Params, isURL: bool): Params
  {
    if isURL then p else Put(p, AudioKey, Str(AudioPlaceholder))
  }

  lemma SnippetParamsAudio(p: Params, isURL: bool)
    ensures Get(SnippetParams(p, isURL), AudioKey) == if isURL then Get(p, AudioKey) else Some(Str(AudioPlaceholder))
    ensures forall k :: k != AudioKey ==> Get(SnippetParams(p, isURL), k) == Get(p, k)
    ensures HasKey(p, AudioKey) ==> Keys(SnippetParams(p, isURL)) == Keys(p)
  {
  }

  /** The transcription example program for `p`. */
  function TranscriptionSnippet(p: Params, apiKey: string): (r: seq<Piece>)
    ensures Lit(SummaryLog) in r <==> Truthy(Get(p, SummarizationKey))
    ensures forall q :: Json(q) in r <==> q == p
  {
    [Lit(Prelude), Interp(Str(apiKey)), Lit(TranscriptAfterKey), Json(p), Lit(TranscriptAfterParams)]
    + (if Truthy(Get(p, SummarizationKey)) then [Lit(SummaryLog)] else [])
    + [Lit(TranscriptClosing)]
  }

  /** `generateCodeSnippet`: edits `audio` in place for an upload, then
      renders the edited object. */
  method GenerateCodeSnippet(parameters: RequestParams, apiKey: string, isURL: bool) returns (snippet: seq<Piece>)
    modifies parameters
    ensures parameters.entries == SnippetParams(old(parameters.entries), isURL)
    ensures snippet == TranscriptionSnippet(parameters.entries, apiKey)
  {
    if !isURL {
      parameters.entries := Put(parameters.entries, AudioKey, Str(AudioPlaceholder));
    }
    snippet := TranscriptionSnippet(parameters.entries, apiKey);
  }

  /** The snippet returned by `/upload`: it serialises the derived request
      with the placeholder for uploads, keeps the key order of the request,
      and logs the summary exactly when summarization was requested. */
  lemma UploadSnippet(audio: string, s: SpeechSettings, ai: AudioIntelligence, isURL: bool, apiKey: string)
    ensures var p := SnippetParams(Derive(audio, s, ai), isURL);
      && Keys(p) == Keys(Derive(audio, s, ai))
      && Get(p, AudioKey) == Some(Str(if isURL then audio else AudioPlaceholder))
      && (forall k :: k != AudioKey ==> Get(p, k) == Get(Derive(audio, s, ai), k))
      && (Lit(SummaryLog) in TranscriptionSnippet(p, apiKey) <==> ai.summarization)
  {
    var d := Derive(audio, s, ai);
    DeriveCopiesSettings(audio, s, ai);
    DeriveSummarization(audio, s, ai);
    SnippetParamsAudio(d, isURL);
  }

  /** The text of a snippet begins with the text of its first three pieces. */
  lemma {:induction false} TextOpening(pieces: seq<Piece>, show: Piece -> string)
    requires |pieces| >= 3
    ensures show(pieces[0]) + show(pieces[1]) + show(pieces[2]) <= Text(pieces, show)
  {
    var rest := pieces[3..];
    assert pieces == pieces[..3] + rest;
    TextConcat(pieces[..3], rest, show);
    var three := pieces[..3];
    assert three[0] == pieces[0] && three[1..][0] == pieces[1] && three[1..][1..][0] == pieces[2];
    assert three[1..][1..][1..] == [];
    assert Text(three[1..][1..], show) == show(pieces[2]) + "";
    assert Text(three[1..], show) == show(pieces[1]) + (show(pieces[2]) + "");
    assert Text(three, show) == show(pieces[0]) + (show(pieces[1]) + (show(pieces[2]) + ""));
  }

  /** Interpolating a string inserts it verbatim, without quoting or
      escaping; the chunks on either side of the API key are the quotes of
      `apiKey: '…'`. */
  lemma VerbatimKey(s: string, stringify: Params -> string, numText: real -> string)
    ensures Show(stringify, numText)(Interp(Str(s))) == s
    ensures FragmentText(Prelude)[|FragmentText(Prelude)| - 1] == '\''
    ensures FragmentText(TranscriptAfterKey)[0] == '\'' && FragmentText(SummaryAfterKey)[0] == '\''
  {
    EndsWithQuote(PreludeBeforeQuote);
  }

  lemma EndsWithQuote(x: string)
    ensures (x + "'")[|x + "'"| - 1] == '\''
  {
  }

  /** Both snippets open with the client construction and the API key
      between its quotes. */
  lemma TranscriptionSnippetKey(p: Params, apiKey: string, show: Piece -> string)
    ensures show(Lit(Prelude)) + show(Interp(Str(apiKey))) + show(Lit(TranscriptAfterKey))
         <= Text(TranscriptionSnippet(p, apiKey), show)
  {
    TextOpening(TranscriptionSnippet(p, apiKey), show);
  }

  /** The body of a summary request (`req.body.config`) apart from its
      context. Temperature and output size are JavaScript numbers. */
  datatype LemurConfig = LemurConfig(
    apiKey: string,
    finalModel: string,
    maxOutputSize: real,
    answerFormat: string,
    transcriptId: string,
    prompt: string,
    temperature: real,
    summaryType: string)

  /** The `lemur.task` block of the summary snippet. */
  function TaskBlock(c: LemurConfig): seq<Piece>
  {
    [Lit(TaskOpen), Interp(Str(c.prompt)), Lit(TaskAfterPrompt), Interp(Str(c.transcriptId)),
     Lit(TaskAfterId), Interp(Str(c.finalModel)), Lit(TaskAfterModel), Interp(Num(c.temperature)),
     Lit(TaskAfterTemperature), Interp(Num(c.maxOutputSize)), Lit(TaskClose)]
  }

  /** The `lemur.summary` block of the summary snippet. */
  function CustomBlock(c: LemurConfig, context: Context): seq<Piece>
  {
    [Lit(CustomOpen), Interp(Str(c.transcriptId)), Lit(CustomAfterId), Interp(Str(c.finalModel)),
     Lit(CustomAfterModel), Interp(Str(c.prompt)), Lit(CustomAfterPrompt), Interp(Num(c.temperature)),
     Lit(CustomAfterTemperature), Interp(Str(ContextText(context))), Lit(CustomAfterContext),
     Interp(Str(c.answerFormat)), Lit(CustomAfterFormat), Interp(Num(c.maxOutputSize)), Lit(CustomClose)]
  }

  /** `generateCodeSnippetSummary`: only the block of the requested summary
      type is rendered, and neither for any other type. */
  function SummarySnippet(c: LemurConfig, context: Context): (r: seq<Piece>)
    ensures Lit(TaskOpen) in r <==> c.summaryType == "basic"
    ensures Lit(CustomOpen) in r <==> c.summaryType == "custom"
    ensures c.summaryType == "custom" ==> Interp(Str(ContextText(context))) in r
    ensures c.summaryType == "basic" || c.summaryType == "custom" ==>
      && Interp(Str(c.transcriptId)) in r && Interp(Str(c.prompt)) in r && Interp(Str(c.finalModel)) in r
      && Interp(Num(c.temperature)) in r && Interp(Num(c.maxOutputSize)) in r
    ensures c.summaryType == "custom" ==> Interp(Str(c.answerFormat)) in r
  {
    [Lit(Prelude), Interp(Str(c.apiKey)), Lit(SummaryAfterKey)]
    + (if c.summaryType == "basic" then TaskBlock(c) else [])
    + [Lit(BlockGap)]
    + (if c.summaryType == "custom" then CustomBlock(c, context) else [])
    + [Lit(SummaryClosing)]
  }

  lemma SummarySnippetKey(c: LemurConfig, context: Context, show: Piece -> string)
    ensures show(Lit(Prelude)) + show(Interp(Str(c.apiKey))) + show(Lit(SummaryAfterKey))
         <= Text(SummarySnippet(c, context), show)
  {
    TextOpening(SummarySnippet(c, context), show);
  }
}
