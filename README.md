# Gemini creative studio: service gateway and three components

This project models the core of a browser front end over a remote generative-AI
service, and proves properties of the model in Dafny:

- **The service gateway** (`services/geminiService.ts`, module `GeminiService`).
  Each operation first obtains a client. That needs the API key, read from the
  environment at call time. Each operation then sends one request and picks one
  payload out of the nested response, or throws a fixed Error. The remote's
  answer is a parameter (a `Result` of a response whose every field may be
  absent). Each operation returns a `Call`: the requests it sent and what it
  returned or threw.
- **The video generator** (`components/VideoGenerator.tsx`, module
  `VideoGeneration`):
  - the rotating loading message;
  - the long-running generation job: submit once, poll while the operation is
    not done, build the download URL, classify the failure;
  - the key-selection flag;
  - the resets on upload.

  The component is the class `VideoGenerator`. Its handlers are methods, and
  the polling is a `while` loop proved against the function `Poll`.
- **The image editor** (`components/ImageEditor.tsx`, module `ImageEditing`):
  the submit guard, the data URL of the edited image, and the download name
  derived from that URL by `split`. It is the class `ImageEditor`.
- **The speech player** (`components/TextToSpeech.tsx`, module
  `SpeechPlayback`):
  - one audio context per mount of the component, made at 24000 Hz;
  - the guard chain before a request;
  - the rule that stops the playing source before a new one starts.

  The classes `AudioContext`, `SourceNode` and `TextToSpeech` carry it. `Valid`
  keeps the invariant that at most one source is playing. A ghost log on the
  context records, in order, when it was resumed and when its sources were
  started and stopped.

Shared modules:

- `JsValues` holds the JavaScript semantics the code relies on: `undefined`,
  thrown Errors as `Failure(message)`, truthiness of strings, template-literal
  interpolation, `String.prototype.includes`, `String.prototype.split` with a
  one-character separator, and `Array.prototype.indexOf`.
- `Types` holds the aspect-ratio unions of `types.ts` and the uploaded-image
  record.

Awaited remote calls in the components are described by their outcomes:

- A video job is a `Step` for the submission and a finite list of `Step`s for
  the status queries. Each step says how often the 5-second loading-message
  interval fired while the call was awaited, and what the call returned or
  threw.
- `Settles` requires that the remote eventually answers "done" or throws. The
  loop in the source has no bound.

## Model

| member | source | states |
|---|---|---|
| JsValues.Includes | components/VideoGenerator.tsx:129 | `includes` is true exactly when the text occurs at some position of the message |
| JsValues.Split | components/ImageEditor.tsx:55-56 | `split` yields at least one field, and no field holds the separator |
| JsValues.Field | components/ImageEditor.tsx:55-56 | `s.split(sep)[k]`: an existing field holds no separator |
| JsValues.SplitAtSeparator | components/ImageEditor.tsx:55-56 | a separator right after separator-free text ends the first field there |
| JsValues.SplitFree | components/ImageEditor.tsx:55-56 | text without the separator splits into itself |
| JsValues.JoinSplit | components/ImageEditor.tsx:55-56 | joining the fields of a split with the separator gives back the string |
| JsValues.SplitJoin | components/ImageEditor.tsx:55-56 | splitting a join of separator-free fields gives back the fields |
| JsValues.Truthy | services/geminiService.ts:6 | defines JavaScript truthiness of a possibly undefined string: defined and non-empty; no contract of its own, used by `GetAiClient` and `Completion` |
| JsValues.Interpolate | components/ImageEditor.tsx:39 | defines `${x}` of a possibly undefined string, which spells undefined as "undefined"; no contract of its own, its effect on data URLs is proved in `ImageEditing.EditedImageDownloads` |
| JsValues.IndexOf | components/VideoGenerator.tsx:48 | defines `Array.prototype.indexOf`; no contract of its own, its meaning is proved in `IndexOfFindsFirst` |
| JsValues.IndexOfFindsFirst | components/VideoGenerator.tsx:48 | `indexOf` is -1 exactly when the value is absent, and otherwise the position of its first occurrence |
| Types.AspectRatio.Text | types.ts:4 | spells each image ratio as its literal of the union: "1:1", "16:9", "9:16", "4:3", "3:4"; no contract of its own, `AspectRatioTextInjective` proves the spellings distinct |
| Types.VideoAspectRatio.Text | types.ts:5 | spells each video ratio as its literal of the union: "16:9", "9:16"; no contract of its own, `AsImageRatio` relates it to the image spellings |
| Types.VideoAspectRatio.AsImageRatio | types.ts:4-5 | every video ratio is also an image ratio, spelled with the same literal |
| Types.AspectRatioTextInjective | types.ts:4 | distinct image ratios have distinct literals |
| GeminiService.GetAiClient | services/geminiService.ts:5-10 | a client is made exactly when the key is defined and non-empty, else "API_KEY environment variable not set." is thrown |
| GeminiService.FirstCandidateParts | services/geminiService.ts:35 | defines `response.candidates?.[0]?.content?.parts`, read again at `services/geminiService.ts:78`, empty when any link is absent; no contract of its own, what the operations read from it is proved in `EditImageIgnoresLaterParts` and `SpeechLooksOnlyAtFirstPart` |
| GeminiService.FindInlineData | services/geminiService.ts:35 | `find` stops at the first part with inline data, and every earlier part has none |
| GeminiService.EditImage | services/geminiService.ts:13-40 | without a key nothing is sent; otherwise one image-modality request with the image and prompt; the result is the inline data of the first part that has any, and "No image generated in response." exactly when no part has inline data |
| GeminiService.GenerateImage | services/geminiService.ts:43-60 | one request for one JPEG at the caller's ratio; the first image's bytes when truthy, "Image generation failed." otherwise, a TypeError when the image list is absent |
| GeminiService.GenerateSpeech | services/geminiService.ts:63-83 | one audio request with the fixed voice; the first part's data when truthy, "Text-to-speech generation failed." otherwise |
| GeminiService.GenerateQuickText | services/geminiService.ts:86-93 | one request for the prompt; the response text is returned as is, even undefined |
| GeminiService.FindInlineDataAfter | services/geminiService.ts:35 | parts before the first one with inline data are skipped, whatever follows |
| GeminiService.EditImageIgnoresLaterParts | services/geminiService.ts:35-38 | any two responses whose first candidate's parts agree up to the inline data of the first part that has any give the same result, with or without a key; with a key it is that inline data |
| GeminiService.SpeechLooksOnlyAtFirstPart | services/geminiService.ts:78-82 | in any response whose first candidate's first part has no inline data, audio in a later part is not found |
| VideoGeneration.LoadingMessagesDistinct | components/VideoGenerator.tsx:10-18 | the seven loading messages are pairwise distinct |
| VideoGeneration.ModWrap | components/VideoGenerator.tsx:49 | adding one modulo the length steps forward and wraps from the last position, and from -1, to the first |
| VideoGeneration.NextIn | components/VideoGenerator.tsx:47-50 | defines the interval's updater over a message list; no contract of its own, its behaviour is proved in `NextInFollows` and `NextInAt` |
| VideoGeneration.NextMessage | components/VideoGenerator.tsx:47-50 | the updater over the component's seven messages; no contract of its own, proved in `NextMessageFollows` |
| VideoGeneration.NextInFollows | components/VideoGenerator.tsx:47-50 | the updater over a list without repeats lands in the list, moves to the following message, wraps the last to the first, and sends an unknown message to the first |
| VideoGeneration.NextInAt | components/VideoGenerator.tsx:47-50 | the message at position i is followed by the one at i + 1, the last by the first |
| VideoGeneration.NextMessageFollows | components/VideoGenerator.tsx:47-50 | the same four facts for the component's own message list |
| VideoGeneration.Shown | components/VideoGenerator.tsx:45-52 | the message after w firings from the first; no contract of its own, `NextShown` proves it is what w updater steps give and `ShownCycles` that it cycles with period seven |
| VideoGeneration.NextShown | components/VideoGenerator.tsx:45-52 | after w firings the message is the one at w mod 7, and one more firing shows the next one |
| VideoGeneration.ShownCycles | components/VideoGenerator.tsx:10-18 | seven firings bring the message back to where it was, and it is always one of the list |
| VideoGeneration.Poll | components/VideoGenerator.tsx:113-116 | defines the polling loop as a function of the answers; no contract of its own, its queries and its end are proved in `PollQueries`, and `PollUntilDone` is proved to follow it |
| VideoGeneration.PollUnfold | components/VideoGenerator.tsx:113-116 | a pending operation is queried once, and the polling then ends with that query's Error or continues from its answer |
| VideoGeneration.ResumeAppend | components/VideoGenerator.tsx:113-116 | the queries and firings so far and those still to come add up to the whole polling |
| VideoGeneration.PollAdvance | components/VideoGenerator.tsx:113-116 | one turn of the loop keeps the run so far and the run still to come adding up to the whole run |
| VideoGeneration.PollQueries | components/VideoGenerator.tsx:113-116 | no query when the operation is already done; otherwise the first query is for it, each query asks about an operation not yet done with the current key, each later query is for the operation the previous answer returned, polling ends only on a done answer or on a throwing query, never asks more often than it is answered, and ends with the starting operation when that was done and otherwise with the answer to its last query |
| VideoGeneration.TwoPendingAnswersTwoQueries | components/VideoGenerator.tsx:98-116 | a submission answered "not done", a status answered "not done" and then "done" make exactly two status queries, for the latest operation each time |
| VideoGeneration.Generation | components/VideoGenerator.tsx:98-116 | defines the whole job: the submission's Error, or the polling from the operation it returned; no contract of its own, its query count is shown in `TwoPendingAnswersTwoQueries` and `Generate` is proved to follow it |
| VideoGeneration.IsDone | components/VideoGenerator.tsx:113 | the loop's test `operation.done`: only a flag that is present and true ends the polling, and a missing flag counts as pending like `false`; no contract of its own, `PollQueries` proves the polling stops exactly there |
| VideoGeneration.DownloadLink | components/VideoGenerator.tsx:118 | defines `operation.response?.generatedVideos?.[0]?.video?.uri`; no contract of its own, its use is proved in `Completion` and `MissingLinkKeepsKeySelection` |
| VideoGeneration.Completion | components/VideoGenerator.tsx:118-124 | a URL exactly when the done operation has a truthy link and the key is truthy, and it is the link followed by "&key=" and the key; otherwise the missing-link Error or the Error that was thrown |
| VideoGeneration.ReportFailure | components/VideoGenerator.tsx:129-134 | an Error whose message contains "Requested entity was not found" gives the key error and drops the key selection; any other is shown prefixed and keeps it |
| VideoGeneration.Conclude | components/VideoGenerator.tsx:118-137 | a URL is shown exactly when the job completed with a link and a key, with no error and the key selection unchanged; otherwise the reported error is shown and the selection is dropped exactly when the message names a missing entity |
| VideoGeneration.MissingLinkKeepsKeySelection | components/VideoGenerator.tsx:123-133 | a job that completed without a link is reported as "Video generation failed: ..." and keeps the key selection |
| VideoGeneration.VideoGenerator.constructor | components/VideoGenerator.tsx:21-29 | the initial state: no key selected, no image, the default prompt, 16:9, the first loading message |
| VideoGeneration.VideoGenerator.CheckApiKey | components/VideoGenerator.tsx:31-41 | with a key-selection facility the flag takes its answer; without one it is unchanged |
| VideoGeneration.VideoGenerator.SelectKey | components/VideoGenerator.tsx:57-66 | with the facility the key counts as selected; without it the flag is unchanged and the unavailability error is shown |
| VideoGeneration.VideoGenerator.FileChange | components/VideoGenerator.tsx:68-82 | a read file becomes the image and clears the video and the error; a failed read shows "Failed to read file." and changes nothing else; no file changes nothing |
| VideoGeneration.VideoGenerator.SetPrompt | components/VideoGenerator.tsx:185 | the prompt becomes the typed text |
| VideoGeneration.VideoGenerator.SetAspectRatio | components/VideoGenerator.tsx:195 | the ratio becomes the chosen one |
| VideoGeneration.VideoGenerator.Submit | components/VideoGenerator.tsx:84-138 | without an image only the error changes; otherwise one generation request with the image, prompt, one video, 720p and the ratio, then exactly the status queries of the polling; loading ends; the message is the one after all firings; URL, error and key flag are as `Conclude` gives them |
| VideoGeneration.VideoGenerator.Begin | components/VideoGenerator.tsx:89-111 | loading starts with error and video cleared and the first message shown, and the generation request is sent |
| VideoGeneration.VideoGenerator.Generate | components/VideoGenerator.tsx:98-116 | the submission and, when it did not throw, the polling: the queries of `Generation`, its outcome, and the message after its firings |
| VideoGeneration.VideoGenerator.PollUntilDone | components/VideoGenerator.tsx:113-116 | the loop sends exactly the queries of `Poll`, ends with its operation or Error, and counts its firings |
| VideoGeneration.VideoGenerator.Wait | components/VideoGenerator.tsx:43-55 | n firings of the interval move the message on by n places |
| VideoGeneration.VideoGenerator.Tick | components/VideoGenerator.tsx:46-51 | one firing shows the next message |
| VideoGeneration.VideoGenerator.Settle | components/VideoGenerator.tsx:118-137 | the URL, error and key flag end as `Conclude` gives them |
| ImageEditing.DataUrl | components/ImageEditor.tsx:39 | defines the data URL of the edited image; no contract of its own, `MimeTypeOfDataUrl` and `EditedImageDownloads` prove what the download handler reads back from it |
| ImageEditing.DownloadName | components/ImageEditor.tsx:55-58 | defines the download name, or the throw when the URL has no MIME type; no contract of its own, proved in `DownloadNameOfEdit`, `DownloadNameOfUntypedEdit` and `DownloadThrowsWithoutScheme` |
| ImageEditing.MimeTypeOf | components/ImageEditor.tsx:55 | the MIME type read from a URL holds neither ':' nor ';' |
| ImageEditing.Extension | components/ImageEditor.tsx:56 | the extension is never empty and never holds '/' |
| ImageEditing.SubFieldFree | components/ImageEditor.tsx:55 | a field of a split cannot hold a character its whole string lacks |
| ImageEditing.DataUrlHead | components/ImageEditor.tsx:39-55 | the part of a built data URL before its first ';' is "data:" followed by the written MIME type up to its own first ';' |
| JsValues.SplitFirstField | components/ImageEditor.tsx:55 | whatever follows a separator leaves the first field of a split as it was |
| ImageEditing.MimeTypeOfDataUrl | components/ImageEditor.tsx:39-55 | the MIME type read back from a built data URL is the written one cut at its first ';' and then at its first ':'; so for a MIME type without ';' it is the part before the first ':', and the whole written type when it has neither |
| ImageEditing.ExtensionOfSubtype | components/ImageEditor.tsx:56 | for "type/subtype" the extension is the subtype up to a further '/', or "png" when that is empty |
| ImageEditing.ExtensionWithoutSubtype | components/ImageEditor.tsx:56 | a MIME type without '/' gets "png" |
| ImageEditing.DownloadNameOfEdit | components/ImageEditor.tsx:39-58 | an edited "type/subtype" image downloads as "edited-image.subtype", or "edited-image.png" for an empty subtype |
| ImageEditing.DownloadNameOfUntypedEdit | components/ImageEditor.tsx:39-58 | an edited image whose MIME type came back undefined still downloads, as "edited-image.png" |
| ImageEditing.DownloadThrowsWithoutScheme | components/ImageEditor.tsx:55-56 | a URL with no ':' before its first ';' makes the download handler throw |
| ImageEditing.EditedImageDownloads | components/ImageEditor.tsx:39-58 | every image a successful edit shows is truthy and carries a MIME type, whatever MIME type and data the response held, so it can be downloaded |
| ImageEditing.ImageEditor.constructor | components/ImageEditor.tsx:7-11 | the initial state: no image, empty prompt, no result, not loading, no error |
| ImageEditing.ImageEditor.FileChange | components/ImageEditor.tsx:13-26 | a read file becomes the image and clears the result and the error; a failed read only shows "Failed to read file." |
| ImageEditing.ImageEditor.SetPrompt | components/ImageEditor.tsx:93 | the prompt becomes the typed text |
| ImageEditing.ImageEditor.Submit | components/ImageEditor.tsx:28-47 | without an image or with an empty prompt only the error changes and nothing is sent; otherwise exactly the requests of `EditImage` are sent, the result is the data URL of the returned inline data, or "Error editing image: " and the message with no result; loading ends |
| ImageEditing.ImageEditor.Download | components/ImageEditor.tsx:49-63 | nothing without a truthy image; otherwise a save of the URL under "edited-image." and its extension exactly when the URL carries a MIME type, and a thrown TypeError otherwise |
| SpeechPlayback.AudioContext.constructor | components/TextToSpeech.tsx:19 | a new context has the requested sample rate and an empty log |
| SpeechPlayback.AudioContext.Resume | components/TextToSpeech.tsx:43-45 | a resumed context runs, and the resume is logged |
| SpeechPlayback.SourceNode.constructor | components/TextToSpeech.tsx:59-60 | a new source belongs to the context it was made from, holds the decoded buffer and has not started |
| SpeechPlayback.SourceNode.Start | components/TextToSpeech.tsx:62 | a started source plays, and the start is logged on its context |
| SpeechPlayback.SourceNode.Stop | components/TextToSpeech.tsx:56 | a stopped source no longer plays, and the stop is logged on its context |
| SpeechPlayback.TextToSpeech.constructor | components/TextToSpeech.tsx:7-12 | the initial state: the greeting text, no context, no source, nothing sent |
| SpeechPlayback.TextToSpeech.Mount | components/TextToSpeech.tsx:14-23 | a context is made only when there is none, at 24000 Hz; without Web Audio the unsupported error is shown and no context exists |
| SpeechPlayback.TextToSpeech.Unmount | components/TextToSpeech.tsx:25-30 | the stored source is stopped and the stop logged, after which no source plays; the context's state is unchanged |
| SpeechPlayback.TextToSpeech.SetText | components/TextToSpeech.tsx:82 | the text becomes the typed text |
| SpeechPlayback.TextToSpeech.Submit | components/TextToSpeech.tsx:33-72 | empty text, then a missing context, only set their errors, in that order, and leave the context's state and log, the loading flag, the requests and the playback alone; otherwise the context runs, exactly the requests of `GenerateSpeech` are sent, loading ends, the playback is as `Speak` states, and the log gains the resume of a suspended context before the stop of the stored source and the start of the new one |
| SpeechPlayback.TextToSpeech.Speak | components/TextToSpeech.tsx:47-71 | requested only on a running context; on success a fresh source plays the payload decoded at 24000 Hz in mono, every earlier source is stopped, and the log gains the stop of the stored source and then the start of the new one; on a failed request or a failed decoding the error is "Error generating speech: " and the message, and the playback and the log are untouched |
| SpeechPlayback.TextToSpeech.PlayOrReport | components/TextToSpeech.tsx:49-68 | the same outcome for the payload or failure the request produced |
| SpeechPlayback.TextToSpeech.Play | components/TextToSpeech.tsx:55-64 | the log gains the stop of the stored source, if any, and only then the start of a fresh source made from the context, which is stored; every older source is silent and the invariant holds |
| SpeechPlayback.TextToSpeech.AtMostOneActive | components/TextToSpeech.tsx:55-64 | under the invariant two playing sources are the same source |

## Left out

- Remote calls (`generateContent`, `generateImages`, `generateVideos`,
  `getVideosOperation`) are not modelled. Their answers, or the Errors they
  throw, are parameters or `Step`s.
- Timers are not modelled in time. The 10-second wait before each status query
  and the 5-second interval become counts of firings per awaited call. The
  firings during the polling are applied to the message after the loop. Only
  the rendering, which is not modelled, reads the message in between, so the
  final message is the same.
- VideoGeneration.VideoGenerator.PollUntilDone: it requires `Settles`, so a
  remote that never reports done and never throws is not modelled. The source
  then polls forever.
- `utils/audio.ts` (`decode`, `decodeAudioData`) and `utils/file.ts`
  (`fileToBase64`) are not part of this model:
  - a read file is a `PickedFile`, whose contents are the base64 text or the
    reader's Error;
  - decoding is described by the payload and the requested rate and channels
    it was decoded with, plus an optional decoding Error;
  - the PCM samples are floating point and are not modelled.
- Browser APIs are abstracted:
  - `window.aistudio` becomes the facility's presence and its answer;
  - `URL.createObjectURL` becomes the object URL in `PickedFile`;
  - the anchor element in `handleDownload` becomes the returned
    `DownloadAction`;
  - Web Audio becomes context rate, state and event log, and source started
    and stopped;
  - `connect` and `destination` are not modelled.
- SpeechPlayback.AudioContext.Resume: does not model a `resume()` that
  rejects. The source awaits it outside its `try`, so the rejection would
  escape the handler. A context is also never closed here, as in the source.
- Interleaving of handlers while a call is awaited is not modelled: each
  handler runs to completion. In the source only the submit buttons are
  disabled while loading (`components/VideoGenerator.tsx:204`,
  `components/ImageEditor.tsx:101`, `components/TextToSpeech.tsx:89`). The
  speech button stays enabled while `resume()` is awaited, since loading only
  starts after it. The tab buttons of `App.tsx` can unmount a component at any
  time.
- SpeechPlayback.TextToSpeech.Unmount: does not model a request still in flight
  at unmount. In the source the cleanup stops only the source stored at that
  moment; the handler then goes on, starts a new source and stores it, and
  nothing stops that source. Each remount also makes a fresh context.
- `console.error` logging is not modelled.
- JSX rendering is not modelled.
- `App.tsx`, `components/TabButton.tsx`, `components/ImageGenerator.tsx` and
  `components/QuickChat.tsx` are not part of this model. They are tab
  switching and thin forms over one service call. The two service calls they
  use, `generateImage` and `generateQuickText`, are modelled.

## Notes on the code

- The two aspect-ratio unions of `types.ts:4-5` overlap: "16:9" and "9:16" are
  in both, so the sets are not disjoint. `AsImageRatio` maps each video ratio to
  the image ratio with the same literal.
- The number of status queries depends on whether the submission's answer is
  counted. The submission is answered by `generateVideos`, and only later
  answers come from `getVideosOperation`. Take a submission answered "not
  done", then one status "not done", then "done": that makes two status
  queries (`TwoPendingAnswersTwoQueries`). In general, `PollQueries` shows one
  query per answer that was not done, the submission's included.
