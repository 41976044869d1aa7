# DialogueAI core, modelled in Dafny

DialogueAI is a web front end to a speech provider. Its Express backend has two
handlers:

- `/upload` turns the settings chosen in the browser into a transcription
  request, calls the transcriber, answers with the transcript and an example
  program, and deletes the audio in a `finally` block.
- `/summary` flattens a three-field context into one string, calls the
  provider's LeMUR task or summary endpoint, and answers with the summary and
  an example program.

The frontend keeps its state in React cells. The modelled updates are:

- the word-boost list and the summary model/type dropdowns of the settings
  panel;
- the one-way achievement unlock;
- the notes list.

The model is organised by source file:

| file | module | models |
|---|---|---|
| `objects.dfy` | `Objects` | JavaScript objects as ordered key/value lists; truthiness |
| `sequences.dfy` | `Sequences` | `Array.prototype.filter` and `map` |
| `transcript_types.dfy` | `TranscriptTypes` | the settings types and the summary-model table of `frontend/src/types/transcript.ts` |
| `upload_params.dfy` | `UploadParams` | the request object `/upload` builds, key by key and in key order |
| `lemur_context.dfy` | `LemurContext` | the context template of `/summary` and reading it back |
| `snippets.dfy` | `Snippets` | the two example-program generators |
| `server.dfy` | `Server` | the two handlers, as methods of a `Server` class that owns the upload directory and logs the provider calls |
| `transcript_settings.dfy` | `TranscriptSettings` | the settings panel updates |
| `achievements.dfy` | `Achievements` | the achievement list and its store |
| `notes.dfy` | `Notes` | the notes page |

Some entities are updated in place by the source, so they are classes:

- the parameter object that `generateCodeSnippet` edits;
- the LeMUR request whose `context` the handler overwrites;
- the backend process;
- the achievement hook's state;
- the notes page's state.

Values that the source computes without mutation are datatypes and functions.

Each example program is a sequence of pieces:

- fixed template text, given by `FragmentText`;
- an interpolated value;
- the serialised parameter object.

Properties about where the API key appears are proved for any rendering of the
pieces.

## Model

| member | source | states |
|---|---|---|
| Objects.Put | backend/index.js:12 | assigning a property keeps an existing key's position (or appends a new key), sets that key, and leaves every other key's value unchanged |
| Objects.GetConcat | backend/index.js:103-112 | a property of a concatenation is found in the first part that has it, and exists iff some part has it; this is the property read of a spread when no key occurs in both parts, as holds for the parameter object (`UploadParams.DeriveKeyOrder`) |
| Sequences.Filter | frontend/src/pages/Notes.tsx:45 | `filter` keeps exactly the passing elements, in order, each as often as before |
| Sequences.FilterConcat | frontend/src/components/TranscriptSettings.tsx:43 | filtering a concatenation filters each part |
| Sequences.Map | frontend/src/pages/Notes.tsx:49-51 | `map` keeps the length and applies the function at every index |
| TranscriptTypes.CatchySupportsHeadlineAndGist | frontend/src/types/transcript.ts:46-49 | the catchy model supports exactly headline and gist |
| TranscriptTypes.InformativeAndConversationalSupport | frontend/src/types/transcript.ts:26-45 | informative and conversational support the same four types, and gist is not one of them |
| TranscriptTypes.EverySummaryTypeHasAModel | frontend/src/types/transcript.ts:25-55 | every summary type is supported by some model |
| TranscriptTypes.RequiredParametersOfEveryModel | frontend/src/types/transcript.ts:30-33 | every model requires punctuate and format_text; only conversational requires speaker_labels and dual_channel |
| TranscriptTypes.SummaryModelConfig | frontend/src/types/transcript.ts:25-55 | the model table as data; its contents are stated by `CatchySupportsHeadlineAndGist`, `InformativeAndConversationalSupport`, `RequiredParametersOfEveryModel` and `InformativeIsTheOnlyDefault` |
| TranscriptTypes.Supported | frontend/src/types/transcript.ts:29-49 | membership in a model's supported types; stated per model by `CatchySupportsHeadlineAndGist` and `InformativeAndConversationalSupport` |
| TranscriptTypes.InformativeIsTheOnlyDefault | frontend/src/types/transcript.ts:27 | informative is the default model, and no other model is |
| UploadParams.Derive | backend/index.js:103-112 | the request object literal; its value under each key is stated by `DeriveMeetsExpected` and its key order by `DeriveKeyOrder` |
| UploadParams.Preset | backend/index.js:80-101 | the per-model bundle; stated by `DerivePreset` and compared with the frontend table by `PresetAgainstTable` |
| UploadParams.DeriveMeetsExpected | backend/index.js:78-112 | for every key, the request object holds exactly what the handler's rules give for that key (independent key-by-key definition `Expected`) |
| UploadParams.DeriveCopiesSettings | backend/index.js:103-109 | the audio source and the speech settings are copied unchanged |
| UploadParams.DeriveWordBoost | backend/index.js:106 | `word_boost` and `boost_param: 'high'` are present iff the word list is non-empty |
| UploadParams.DeriveSummarization | backend/index.js:110 | the three summarization fields are present iff summarization is on, and then carry the chosen type and model |
| UploadParams.DerivePreset | backend/index.js:80-101 | punctuate and format_text are always sent; speaker_labels iff the model is conversational; dual_channel never |
| UploadParams.DeriveSendsUnsupportedPair | backend/index.js:79-110 | a type the model does not support is forwarded to the provider without a check |
| UploadParams.PresetAgainstTable | backend/index.js:88-95 | the backend's bundle agrees with the frontend table except that dual_channel is missing for conversational |
| UploadParams.DeriveKeyOrder | backend/index.js:103-112 | the keys follow the literal's order and no key occurs twice |
| UploadParams.RequestParams.constructor | backend/index.js:103 | the mutable parameter object starts with the derived entries |
| LemurContext.Flatten | backend/index.js:202 | the context template; its read-back is stated by `ParseFlatten` and `FlattenParse`, its ambiguity by `FlattenNotInjective` |
| LemurContext.ParseFlatten | backend/index.js:202 | the flattened context reads back to its three fields when the first has no ` location:` and the second no ` additional:` |
| LemurContext.FlattenParse | backend/index.js:202 | every string that reads back is the flattening of what it reads back to |
| LemurContext.FlattenNotInjective | backend/index.js:234 | two different field triples can flatten to the same context string |
| Snippets.SnippetParams | backend/index.js:12 | the in-place edit of `audio`, as a value; stated by `SnippetParamsAudio` and `UploadSnippet` |
| Snippets.SnippetParamsAudio | backend/index.js:12 | for an upload, `audio` becomes the placeholder, other properties are unchanged, and the key order is kept; a URL is kept |
| Snippets.TranscriptionSnippet | backend/index.js:14-51 | the summary log line appears iff `summarization` is truthy; the serialised object is exactly the parameters |
| Snippets.GenerateCodeSnippet | backend/index.js:10-54 | the parameter object is edited in place as `SnippetParams` says, and the snippet renders the edited object |
| Snippets.UploadSnippet | backend/index.js:12-41 | the upload snippet shows the derived request with the placeholder or the URL, in the same key order, and logs the summary iff summarization was requested |
| Snippets.TextConcat | backend/index.js:14-51 | the text of concatenated pieces is the concatenation of their texts |
| Snippets.TextOpening | backend/index.js:14-21 | a snippet's text starts with the text of its first three pieces |
| Snippets.VerbatimKey | backend/index.js:20 | the API key is inserted verbatim; the text before it ends with a single quote and the text after it starts with one |
| Snippets.TranscriptionSnippetKey | backend/index.js:14-21 | the transcription snippet opens with the client construction holding the API key |
| Snippets.SummarySnippet | backend/index.js:138-191 | the `lemur.task` block appears iff the type is basic, the `lemur.summary` block iff custom; either block shows the request's transcript id, prompt, final model, temperature and output size, and the custom block also the context and answer format |
| Snippets.SummarySnippetKey | backend/index.js:140-147 | the summary snippet opens with the client construction holding the API key |
| Server.Source | backend/index.js:68-76 | the staged file wins; otherwise a truthy `fileUrl` is the source, marked as a URL; otherwise there is no source |
| Server.TranscriptionResponse | backend/index.js:114-128 | 200 iff the call returned a transcript whose status is not error, with the transcript and the snippet of the edited parameters; otherwise 500 with the error message |
| Server.ProviderErrorLikeThrow | backend/index.js:118-119 | a transcript with status error is answered exactly like a thrown call with its error text |
| Server.CleanupTarget | backend/index.js:130 | the path the `finally` block unlinks under each policy; stated by `AsWrittenUnlinksUrl` and `StagedOnlyCleanup` |
| Server.AsWrittenUnlinksUrl | backend/index.js:130 | as written, a URL source is passed to `unlinkSync`: it throws if no such file exists and deletes the file if one does |
| Server.AsWrittenRejectsOnRemoteUrl | backend/index.js:130 | a concrete remote URL with an empty upload directory makes `unlinkSync` throw |
| Server.StagedOnlyCleanup | backend/index.js:129-131 | cleaning only staged uploads leaves a URL request's directory alone and removes a staged file without throwing |
| Server.LemurCalls | backend/index.js:205-245 | basic makes one `lemur.task` call without context, custom one `lemur.summary` call with the flattened context and answer format, any other type none; prompt, model, temperature and size are copied |
| Server.SummaryResponse | backend/index.js:205-245 | a response is sent iff the type is basic or custom: 500 with the message on a throw, 200 with the summary and its snippet otherwise |
| Server.SummarySnippetMatchesCall | backend/index.js:217-239 | the snippet of a successful summary shows the block of the call made, with the same context string |
| Server.StringContextReflattened | backend/index.js:199-202 | a context that is already a string flattens to the template over three `undefined`s |
| Server.LemurData.constructor | backend/index.js:195 | the request object starts with the given config and context |
| Server.Server.constructor | backend/index.js:7 | the server starts with the given upload directory and no calls made |
| Server.Server.Upload | backend/index.js:60-136 | no source: 400 and nothing else changes; otherwise one transcriber call with the derived object, the response of its outcome, and the cleanup of the chosen policy applied to the directory |
| Server.Server.Summary | backend/index.js:193-248 | a missing context: no call and no response; otherwise the context is overwritten with its flattened form, the type's call is logged, and the response is `SummaryResponse` |
| TranscriptSettings.LeadingSpace | frontend/src/components/TranscriptSettings.tsx:31 | the count of leading white space, which is followed by a non-space |
| TranscriptSettings.TrailingSpace | frontend/src/components/TranscriptSettings.tsx:31 | the count of trailing white space, which is preceded by a non-space |
| TranscriptSettings.Trim | frontend/src/components/TranscriptSettings.tsx:31 | `trim` returns a slice with only white space cut off on each side, non-space at both ends, and empty iff the input is all white space |
| TranscriptSettings.TrimIdempotent | frontend/src/components/TranscriptSettings.tsx:34 | trimming twice is trimming once |
| TranscriptSettings.HandleWordBoostAdd | frontend/src/components/TranscriptSettings.tsx:30-38 | the Enter handler; stated by `AddAppendsTrimmed` and `AddIgnored` |
| TranscriptSettings.RemoveWordBoost | frontend/src/components/TranscriptSettings.tsx:40-45 | the removal; stated by `RemoveKeepsOthers` and `RemoveAfterAdd` |
| TranscriptSettings.AddAppendsTrimmed | frontend/src/components/TranscriptSettings.tsx:30-38 | Enter with non-blank input appends the trimmed word at the end (even if already present), clears the box, and changes no other setting |
| TranscriptSettings.AddIgnored | frontend/src/components/TranscriptSettings.tsx:31 | any other key, or a blank box, changes nothing |
| TranscriptSettings.RemoveKeepsOthers | frontend/src/components/TranscriptSettings.tsx:40-45 | removal drops every copy of the word and keeps the others in order and multiplicity; no other setting changes |
| TranscriptSettings.RemoveAfterAdd | frontend/src/components/TranscriptSettings.tsx:30-45 | removing a word just added gives the same list as removing it before the add |
| TranscriptSettings.SelectSummaryType | frontend/src/components/TranscriptSettings.tsx:230-241 | a type chosen from the dropdown is supported by the current model; nothing else changes |
| TranscriptSettings.SelectSummaryModel | frontend/src/components/TranscriptSettings.tsx:208-211 | the model dropdown's update; stated by `ModelChangeKeepsUnsupportedType` |
| TranscriptSettings.ModelChangeKeepsUnsupportedType | frontend/src/components/TranscriptSettings.tsx:206-211 | changing the model keeps the type, so a supported pair can become unsupported |
| Achievements.InitialAchievementsWellFormed | frontend/src/hooks/useAchievements.ts:12-62 | seven achievements, all locked, no id twice |
| Achievements.Find | frontend/src/hooks/useAchievements.ts:78 | `find` returns the first entry with the id, and nothing iff no entry has it |
| Achievements.Unlock | frontend/src/hooks/useAchievements.ts:77-87 | the updater passed to `setAchievements`; stated by `UnlockFlipsOnlyThatId`, `UnlockNoChange`, `UnlockMonotone`, `UnlockIdempotent` and `LatestIffChanged` |
| Achievements.UnlockFlipsOnlyThatId | frontend/src/hooks/useAchievements.ts:79-84 | unlocking a known, locked id unlocks the entries with that id and changes no other entry |
| Achievements.UnlockNoChange | frontend/src/hooks/useAchievements.ts:86 | an unknown or already unlocked id returns the list unchanged and records nothing |
| Achievements.UnlockMonotone | frontend/src/hooks/useAchievements.ts:77-87 | unlocking never locks an entry and never changes an id or a text |
| Achievements.FindAfterFlip | frontend/src/hooks/useAchievements.ts:80-82 | after the map, the first entry with the id is the unlocked form of the old one |
| Achievements.UnlockIdempotent | frontend/src/hooks/useAchievements.ts:76-88 | unlocking twice is unlocking once, and the second call records nothing |
| Achievements.LatestIffChanged | frontend/src/hooks/useAchievements.ts:79-86 | a latest achievement is recorded iff the list changes, and it is the unlocked entry for the id |
| Achievements.AchievementStore.constructor | frontend/src/hooks/useAchievements.ts:65-70 | the store starts from the initial list with no latest achievement |
| Achievements.AchievementStore.UnlockAchievement | frontend/src/hooks/useAchievements.ts:76-88 | the list takes the updater's result, and the latest achievement is replaced only when one is recorded |
| Notes.DeleteNote | frontend/src/pages/Notes.tsx:44-46 | the filter of `deleteNote`; stated by `DeleteRemovesOnlyThatId` and `DeleteAbsent` |
| Notes.UpdateNote | frontend/src/pages/Notes.tsx:48-52 | the map of `updateNote`; stated by `UpdateChangesOnlyContent` and `UpdateAbsent` |
| Notes.DeleteRemovesOnlyThatId | frontend/src/pages/Notes.tsx:44-46 | deletion removes every note with the id and keeps the others, in order and multiplicity |
| Notes.FilterAllKept | frontend/src/pages/Notes.tsx:45 | filtering with a test every note passes returns the list |
| Notes.DeleteAbsent | frontend/src/pages/Notes.tsx:44-46 | deleting an id no note has changes nothing |
| Notes.UpdateChangesOnlyContent | frontend/src/pages/Notes.tsx:48-52 | an update changes only the content of the notes with the id; ids, timestamps, order and length stay |
| Notes.UpdateAbsent | frontend/src/pages/Notes.tsx:48-52 | updating an id no note has changes nothing |
| Notes.NotesPage.constructor | frontend/src/pages/Notes.tsx:13-15 | the page starts with no notes and nothing being edited |
| Notes.NotesPage.AddNote | frontend/src/pages/Notes.tsx:33-42 | an empty note is appended and opened for editing, and the first-note achievement is unlocked |
| Notes.NotesPage.HandleAddNote | frontend/src/pages/Notes.tsx:19-27 | a note with the event's content is appended, the edited note is kept, and the first-note achievement is unlocked |
| Notes.NotesPage.Delete | frontend/src/pages/Notes.tsx:44-46 | the notes become `DeleteNote` of the old notes; nothing else changes |
| Notes.NotesPage.Update | frontend/src/pages/Notes.tsx:48-52 | the notes become `UpdateNote` of the old notes; nothing else changes |

## Left out

- The Express, multer and CORS wiring is not modelled. This covers routing, `JSON.parse` of the `assemblyai` form field and the listening port. A request arrives already parsed, and the staged upload is a path in `Server.files`.
- The provider SDK is not modelled. Each call (`transcripts.transcribe`, `lemur.task`, `lemur.summary`) is replaced by an `Outcome` parameter that says how the call ended. The model logs the arguments of each call.
- The two 10-second `setTimeout` waits in `/summary` are not modelled, because the model has no clock.
- `/upload` starts `run()` without awaiting it. The model runs it to completion inside `Server.Upload`, so interleavings with other requests are not modelled.
- Console logging is not modelled.
- `JSON.stringify(parameters, null, 2)` is a parameter (`stringify`) of the text rendering, and the rendering of numbers in template literals is another (`numText`). Exact white space and number formatting are not modelled.
- Snippets.TranscriptionSnippetKey and Snippets.SummarySnippetKey: these state where the API key appears for any rendering function `show`. They do not evaluate the fixed template text itself.
- Snippets.SummarySnippet: the stray closing brace after the custom block of the summary template (backend/index.js:179) is kept in the fragment text. Nothing is proved about whether the generated program parses.
- Speech settings numbers (`audio_start_from`, `audio_end_at`) and LeMUR temperature and output size are modelled as reals. The slider clamping and media duration in the settings panel are not modelled.
- `localStorage` persistence of achievements is not modelled, and neither is the launch-week early-bird check, which reads the clock.
- The React state cells are not modelled as React does them. The setters are treated as applied immediately, in order. `Notes.NotesPage.AddNote` therefore does not model the stale `notes` closure that a React batch could expose.
- Note ids and timestamps come from `Date.now()` and `new Date()` in the source. Here they are parameters.
- `shareNote` (clipboard and DOM) is not modelled.
- The rendering of the settings panel, the achievement popup and every other component is not modelled. The code-generation language choice is only a type in the source, and it is not modelled either.
- Where the code's behaviour is surprising, the model follows the code:
  - the backend never checks the summary type against the model;
  - `dual_channel` is not sent;
  - the context label is spelled `happing:`;
  - the word-boost list may hold the same word twice;
  - a provider error status and a thrown call get the same 500 answer;
  - only the JavaScript example program is produced.

## Findings

| source | as written | input that shows it | evidently intended | confidence | as-written member | corrected member |
|---|---|---|---|---|---|---|
| backend/index.js:130 | the `finally` block calls `fs.unlinkSync(FILE_URL)` for every request, including one whose audio is a caller-supplied URL | `fileUrl` `https://example.com/talk.mp3` with no file part. `unlinkSync` throws after the response is sent, and the promise of `run()` rejects unhandled. A `fileUrl` that names a file the server can reach deletes that file | only a file multer staged for this request is deleted | not executed | Server.AsWrittenUnlinksUrl, Server.AsWrittenRejectsOnRemoteUrl | Server.StagedOnlyCleanup |
