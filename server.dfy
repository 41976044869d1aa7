/** The two request handlers of the backend (backend/index.js): `/upload`,
    which resolves the audio source, sends the derived parameters to the
    transcriber and cleans up in `finally`, and `/summary`, which flattens
    the context and calls LeMUR. The provider calls are parameters: each
    handler receives how the call it makes ends. */
module Server {
  import opened Objects
  import opened TranscriptTypes
  import opened UploadParams
  import opened LemurContext
  import opened Snippets

  /** The fields of a provider transcript the handler looks at; the rest is
      passed back to the client untouched. */
  datatype Transcript = Transcript(status: string, error: Option<string>, text: Option<string>)

  /** How a provider call ended: it threw an error with a message, or it
      returned a value. */
  datatype Outcome<T> = Threw(message: string) | Returned(value: T)

  datatype Body =
    | ErrorOnly(error: string)
    | ErrorDetails(error: string, details: string)
    | TranscriptBody(transcript: Transcript, codeSnippet: seq<Piece>)
    | SummaryBody(summary: string, codeSnippet: seq<Piece>)

  datatype Response = Response(status: int, body: Body)

  const TranscribeError: string := "Error occurred while transcribing"
  const SummaryError: string := "Error occurred while generating summary"

  /** The `/upload` form: the path multer staged the file part at, if there
      was one, and the parsed `assemblyai` field. */
  datatype UploadRequest = UploadRequest(
    file: Option<string>,
    fileUrl: Option<string>,
    apiKey: string,
    speechSettings: SpeechSettings,
    audioIntelligence: AudioIntelligence)

  /** Where the audio comes from: a staged upload or a caller-supplied URL. */
  datatype AudioSource = AudioSource(path: string, isURL: bool)

  /** The handler's choice of audio source: the file part, else a non-empty
      `fileUrl`, else nothing. */
  function Source(req: UploadRequest): (r: Option<AudioSource>)
    ensures req.file.Some? ==> r == Some(AudioSource(req.file.value, false))
    ensures req.file.None? ==> (r.Some? <==> Truthy(if req.fileUrl.None? then None else Some(Str(req.fileUrl.value))))
    ensures req.file.None? && req.fileUrl.Some? && req.fileUrl.value != "" ==>
      r == Some(AudioSource(req.fileUrl.value, true))
    ensures r.Some? && r.value.isURL ==> req.fileUrl == Some(r.value.path)
  {
    if req.file.Some? then Some(AudioSource(req.file.value, false))
    else if req.fileUrl.Some? && req.fileUrl.value != "" then Some(AudioSource(req.fileUrl.value, true))
    else None
  }

  /** `new Error(transcript.error).message`: an undefined error gives "". */
  function ErrorText(e: Option<string>): string
  {
    if e.None? then "" else e.value
  }

  /** The `details` of a failed transcription. */
  function FailureMessage(outcome: Outcome<Transcript>): string
  {
    match outcome
    case Threw(m) => m
    case Returned(t) => ErrorText(t.error)
  }

  /** The response `run` sends for a transcription outcome, `p` being the
      parameters the transcriber received. */
  function TranscriptionResponse(outcome: Outcome<Transcript>, p: Params, apiKey: string, isURL: bool): (r: Response)
    ensures r.status == 200 <==> outcome.Returned? && outcome.value.status != "error"
    ensures r.status != 200 ==> r == Response(500, ErrorDetails(TranscribeError, FailureMessage(outcome)))
    ensures r.status == 200 ==>
      r.body == TranscriptBody(outcome.value, TranscriptionSnippet(SnippetParams(p, isURL), apiKey))
  {
    match outcome
    case Threw(m) => Response(500, ErrorDetails(TranscribeError, m))
    case Returned(t) =>
      if t.status == "error" then Response(500, ErrorDetails(TranscribeError, ErrorText(t.error)))
      else Response(200, TranscriptBody(t, TranscriptionSnippet(SnippetParams(p, isURL), apiKey)))
  }

  /** A provider transcript with status `error` is reported like a thrown
      call: same status, same error text, its `error` as the details. */
  lemma ProviderErrorLikeThrow(t: Transcript, p: Params, apiKey: string, isURL: bool)
    requires t.status == "error"
    ensures TranscriptionResponse(Returned(t), p, apiKey, isURL)
         == TranscriptionResponse(Threw(ErrorText(t.error)), p, apiKey, isURL)
  {
  }

  /** One `unlinkSync` call: the path, and whether it threw because no
      such file existed. */
  datatype Unlink = Unlink(path: string, threw: bool)

  /** Which path the `finally` block unlinks. */
  datatype CleanupPolicy =
    | AsWritten    // the source: whatever the audio source was
    | StagedOnly   // only a file this handler staged

  function CleanupTarget(policy: CleanupPolicy, src: AudioSource): Option<string>
  {
    match policy
    case AsWritten => Some(src.path)
    case StagedOnly => if src.isURL then None else Some(src.path)
  }

  /** The files left after unlinking `target`, and the attempt made. */
  function Cleanup(files: set<string>, target: Option<string>): (set<string>, seq<Unlink>)
  {
    if target.None? then (files, []) else (files - {target.value}, [Unlink(target.value, target.value !in files)])
  }

  /** As written, a request that names its audio by URL has the URL passed
      to `unlinkSync`: if no file has that name the call throws after the
      response is sent, and the handler's promise rejects unhandled; if a
      file has that name, that file is deleted. */
  lemma AsWrittenUnlinksUrl(files: set<string>, url: string)
    ensures var r := Cleanup(files, CleanupTarget(AsWritten, AudioSource(url, true)));
      && r.1 == [Unlink(url, url !in files)]
      && (url in files ==> r.0 == files - {url} && r.0 != files)
  {
  }

  /** A concrete request that shows it: a remote URL and an empty upload
      directory make `unlinkSync` throw. */
  lemma AsWrittenRejectsOnRemoteUrl()
    ensures Cleanup({}, CleanupTarget(AsWritten, AudioSource("https://example.com/talk.mp3", true))).1
         == [Unlink("https://example.com/talk.mp3", true)]
  {
  }

  /** Cleaning only staged uploads never touches anything for a URL and,
      for an upload that is still staged, removes exactly that file without
      throwing. */
  lemma StagedOnlyCleanup(files: set<string>, src: AudioSource)
    requires !src.isURL ==> src.path in files
    ensures var r := Cleanup(files, CleanupTarget(StagedOnly, src));
      && (src.isURL ==> r == (files, []))
      && (!src.isURL ==> r == (files - {src.path}, [Unlink(src.path, false)]))
      && (forall u :: u in r.1 ==> !u.threw)
  {
  }

  /** The calls the `/summary` handler makes to LeMUR. */
  datatype LemurCall =
    | TaskCall(transcriptIds: seq<string>, prompt: string, finalModel: string,
               maxOutputSize: real, temperature: real)
    | SummaryCall(transcriptIds: seq<string>, prompt: string, finalModel: string,
                  maxOutputSize: real, temperature: real, context: string, answerFormat: string)

  /** The call made for a summary type with the flattened context `flat`:
      `lemur.task` without a context for `basic`, `lemur.summary` with the
      context and answer format for `custom`, none otherwise. */
  function LemurCalls(c: LemurConfig, flat: string): (r: seq<LemurCall>)
    ensures |r| <= 1
    ensures r == [] <==> c.summaryType != "basic" && c.summaryType != "custom"
    ensures c.summaryType == "basic" ==> r[0].TaskCall? && r[0].transcriptIds == [c.transcriptId]
    ensures c.summaryType == "custom" ==>
      r[0].SummaryCall? && r[0].transcriptIds == [c.transcriptId] && r[0].context == flat
      && r[0].answerFormat == c.answerFormat
    ensures forall call :: call in r ==>
      call.prompt == c.prompt && call.finalModel == c.finalModel
      && call.maxOutputSize == c.maxOutputSize && call.temperature == c.temperature
  {
    if c.summaryType == "basic" then
      [TaskCall([c.transcriptId], c.prompt, c.finalModel, c.maxOutputSize, c.temperature)]
    else if c.summaryType == "custom" then
      [SummaryCall([c.transcriptId], c.prompt, c.finalModel, c.maxOutputSize, c.temperature, flat, c.answerFormat)]
    else []
  }

  /** The response the `/summary` handler sends, if any. */
  function SummaryResponse(c: LemurConfig, flat: string, outcome: Outcome<string>): (r: Option<Response>)
    ensures r.Some? <==> c.summaryType == "basic" || c.summaryType == "custom"
    ensures r.Some? && outcome.Threw? ==> r == Some(Response(500, ErrorDetails(SummaryError, outcome.message)))
    ensures r.Some? && outcome.Returned? ==>
      r == Some(Response(200, SummaryBody(outcome.value, SummarySnippet(c, Flattened(flat)))))
  {
    if c.summaryType != "basic" && c.summaryType != "custom" then None
    else
      match outcome
      case Threw(m) => Some(Response(500, ErrorDetails(SummaryError, m)))
      case Returned(summary) => Some(Response(200, SummaryBody(summary, SummarySnippet(c, Flattened(flat)))))
  }

  /** The snippet of a successful summary shows the call that was made: the
      block of its type only, and for `custom` the same context string the
      provider received. */
  lemma SummarySnippetMatchesCall(c: LemurConfig, flat: string, summary: string)
    requires c.summaryType == "basic" || c.summaryType == "custom"
    ensures var snippet := SummaryResponse(c, flat, Returned(summary)).value.body.codeSnippet;
      && (Lit(TaskOpen) in snippet <==> LemurCalls(c, flat)[0].TaskCall?)
      && (Lit(CustomOpen) in snippet <==> LemurCalls(c, flat)[0].SummaryCall?)
      && (LemurCalls(c, flat)[0].SummaryCall? ==> Interp(Str(LemurCalls(c, flat)[0].context)) in snippet)
  {
  }

  /** A context that is already a string has none of the three fields, so
      what is sent is the template over three `undefined`s. */
  lemma StringContextReflattened(s: string)
    ensures var f := Destructure(Flattened(s)).value;
      FlattenFields(f.0, f.1, f.2) == Flatten("undefined", "undefined", "undefined")
  {
  }

  /** The summary request object; the handler overwrites its `context`. */
  class LemurData {
    const config: LemurConfig
    var context: Context

    constructor (config: LemurConfig, context: Context)
      ensures this.config == config && this.context == context
    {
      this.config := config;
      this.context := context;
    }
  }

  /** The backend process: the paths that exist for it (the upload directory
      and any other file it can reach by a path), and logs
      of the provider calls and `unlinkSync` attempts made so far. */
  class Server {
    var files: set<string>
    var transcribeCalls: seq<Params>
    var lemurCalls: seq<LemurCall>
    var unlinks: seq<Unlink>

    constructor (files: set<string>)
      ensures this.files == files
      ensures transcribeCalls == [] && lemurCalls == [] && unlinks == []
    {
      this.files := files;
      transcribeCalls := [];
      lemurCalls := [];
      unlinks := [];
    }

    /** The `/upload` handler and its `run`. Multer has staged the file part,
        if any, under `files`. Without an audio source the handler answers
        400 and does nothing else; otherwise it sends the derived parameters
        to the transcriber exactly once, answers according to the outcome,
        and then unlinks according to `policy` (the source: `AsWritten`). */
    method Upload(req: UploadRequest, outcome: Outcome<Transcript>, policy: CleanupPolicy) returns (res: Response)
      requires req.file.Some? ==> req.file.value in files
      modifies this
      ensures lemurCalls == old(lemurCalls)
      ensures Source(req).None? ==>
        && res == Response(400, ErrorOnly("File not found"))
        && files == old(files) && transcribeCalls == old(transcribeCalls) && unlinks == old(unlinks)
      ensures Source(req).Some? ==>
        var src := Source(req);
        var p := Derive(src.value.path, req.speechSettings, req.audioIntelligence);
        var cleaned := Cleanup(old(files), CleanupTarget(policy, src.value));
        && transcribeCalls == old(transcribeCalls) + [p]
        && res == TranscriptionResponse(outcome, p, req.apiKey, src.value.isURL)
        && files == cleaned.0
        && unlinks == old(unlinks) + cleaned.1
    {
      var path: string;
      var isURL := false;
      if req.file.Some? {
        path := req.file.value;
      } else if req.fileUrl.Some? && req.fileUrl.value != "" {
        path := req.fileUrl.value;
        isURL := true;
      } else {
        return Response(400, ErrorOnly("File not found"));
      }
      var parameters := new RequestParams(Derive(path, req.speechSettings, req.audioIntelligence));
      transcribeCalls := transcribeCalls + [parameters.entries];
      match outcome {
        case Threw(m) =>
          res := Response(500, ErrorDetails(TranscribeError, m));
        case Returned(t) =>
          if t.status == "error" {
            res := Response(500, ErrorDetails(TranscribeError, ErrorText(t.error)));
          } else {
            var snippet := GenerateCodeSnippet(parameters, req.apiKey, isURL);
            res := Response(200, TranscriptBody(t, snippet));
          }
      }
      // finally
      var target := CleanupTarget(policy, AudioSource(path, isURL));
      if target.Some? {
        unlinks := unlinks + [Unlink(target.value, target.value !in files)];
        files := files - {target.value};
      }
    }

    /** The `/summary` handler. Destructuring a missing context throws before
        anything else: no call, no response. Otherwise the context is
        overwritten with its flattened form, the call of the summary type is
        made, and a response is sent only for `basic` and `custom`. */
    method Summary(data: LemurData, outcome: Outcome<string>) returns (res: Option<Response>)
      modifies this, data
      ensures files == old(files) && transcribeCalls == old(transcribeCalls) && unlinks == old(unlinks)
      ensures old(data.context).Absent? ==>
        res.None? && lemurCalls == old(lemurCalls) && data.context == old(data.context)
      ensures !old(data.context).Absent? ==>
        var f := Destructure(old(data.context)).value;
        var flat := FlattenFields(f.0, f.1, f.2);
        && data.context == Flattened(flat)
        && lemurCalls == old(lemurCalls) + LemurCalls(data.config, flat)
        && res == SummaryResponse(data.config, flat, outcome)
    {
      if data.context.Absent? {
        return None;
      }
      var f := Destructure(data.context).value;
      var flat := FlattenFields(f.0, f.1, f.2);
      data.context := Flattened(flat);
      var c := data.config;
      res := None;
      if c.summaryType == "basic" {
        lemurCalls := lemurCalls + [TaskCall([c.transcriptId], c.prompt, c.finalModel, c.maxOutputSize, c.temperature)];
        match outcome {
          case Returned(summary) =>
            data.context := Flattened(flat);
            var snippet := SummarySnippet(c, data.context);
            return Some(Response(200, SummaryBody(summary, snippet)));
          case Threw(m) =>
            res := Some(Response(500, ErrorDetails(SummaryError, m)));
        }
      }
      if c.summaryType == "custom" {
        lemurCalls := lemurCalls + [SummaryCall([c.transcriptId], c.prompt, c.finalModel, c.maxOutputSize,
                                                c.temperature, flat, c.answerFormat)];
        match outcome {
          case Returned(summary) =>
            var snippet := SummarySnippet(c, data.context);
            return Some(Response(200, SummaryBody(summary, snippet)));
          case Threw(m) =>
            res := Some(Response(500, ErrorDetails(SummaryError, m)));
        }
      }
    }
  }
}
