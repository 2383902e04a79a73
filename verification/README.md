# gif-loopmaker core, modelled in Dafny

gif-loopmaker is a browser page that loops a still image or a GIF over an audio
track and encodes the result as an MP4 with FFmpeg compiled to WebAssembly.
This project models its core, which runs with no server:

- the processing service `src/services/videoProcessor.js`. It validates the
  inputs, loads and reuses the engine, names the staged files, builds the
  FFmpeg argument list from the quality preset, and drives the engine through
  write, exec, read and cleanup. It checks for cancellation at fixed points,
  terminates the engine on cancel, and rewrites every failure into one
  user-facing message;
- the page handlers of `src/App.jsx`: select, process, cancel, download and
  reset. They track the session flags, the progress text and percentage, and
  the single object URL the page holds;
- the analytics relay `api/log-event.js`. It turns a POSTed event into a
  Discord embed with a title and colour per event and a browser family parsed
  from the user agent;
- the client analytics helper `src/utils/analytics.js`. It forwards events to
  the tracker, or queues them until the tracker loads and then flushes them
  in order.

The FFmpeg engine is foreign code. It appears as an oracle record
(`VideoProcessor.Oracle`) that says, for each engine call, whether the call
succeeds or what it throws. The oracle also gives:

- the progress events the engine emits;
- the bytes it produces;
- the await, if any, during which the user presses Cancel;
- whether `terminate()` throws.

An instance that has been terminated rejects every later call
(`Engine.Perform`; the one interleaving this rules out is listed under
"## Left out"). These are the other inputs:

- clocks (`Date.now()`, the relay's timestamps);
- the webhook URL from the environment;
- the webhook's answer;
- whether `window.la` has loaded.

Modules, one per component:

| module | file | models |
|---|---|---|
| `Js` | js.dfy | the JavaScript built-ins the code relies on: `includes`, `startsWith`, `split('.').pop()`, `toLowerCase`, `substring`, `String(n)`, `Math.round`, truthiness |
| `Engine` | engine.dfy | the module state of videoProcessor.js, `loadFFmpeg`, `createAbortController`, `cancelProcessing` |
| `InputValidation` | input_validation.dfy | the six checks at the top of `processVideo` |
| `FfmpegCommand` | ffmpeg_command.dfy | the quality table, the staged file names, the argument list |
| `ProcessingErrors` | processing_errors.dfy | the `catch` of `processVideo` and its `/exit code (\d+)/i` capture |
| `VideoProcessor` | video_processor.dfy | `processVideo` as a run of engine calls with cancellation checkpoints |
| `App` | app.dfy | the handlers of `App.jsx` and the page state they update |
| `LogEvent` | log_event.dfy | the relay handler, `getEventTitle`, `getEventColor`, `getBrowserInfo` |
| `Analytics` | analytics.dfy | `trackEvent`, `processQueuedEvents`, the polling tick, the funnel helpers |

Behaviour of the code worth knowing:

- The virtual files are deleted only on the success path. A run that fails or
  is cancelled after the writes leaves them in the engine
  (`VideoProcessor.CleanupOnlyOnSuccess`).
- The cancellation error is not given priority. The code's own "Processing
  was cancelled." carries none of the keywords the `catch` looks for, so it is
  rewritten into the generic text (`ProcessingErrors.CancelledMessageIsRewritten`).
  The page recognises a cancellation through its aborted signal instead
  (`App.CancelDuringLoadShowsNoError`).
- Progress values are forwarded as the engine emits them. Nothing makes them
  monotone or clamps them to [0, 1] (`VideoProcessor.SuccessProgress`).
- Only the MIME type is checked. The file extension is not compared with it
  (`InputValidation.TypeDecidesNotName`). When an image and an audio file have
  the same extension, both are staged under the same name
  (`FfmpegCommand.StagedNamesCollide`).
- The SharedArrayBuffer message of the inner load `catch` does not reach the
  user. It does not start with "Failed to", so the outer `catch` replaces it
  with the generic loading text (`Engine.LoadErrorMessage`).

## Model

| member | source | states |
|---|---|---|
| `Engine.InitialIsValid` | src/services/videoProcessor.js:4-6 | the module starts with no instance, not loaded, no controller, and that state satisfies the coherence invariant every modelled operation keeps |
| `Engine.LoadErrorMessage` | src/services/videoProcessor.js:41-64 | a load error mentioning "fetch" gives the download text; one mentioning only "SharedArrayBuffer" ends as the generic loading text, never the SharedArrayBuffer text; anything else gives the load-failed text |
| `Engine.LoadErrorMessageRange` | src/services/videoProcessor.js:41-64 | every message `loadFFmpeg` throws is one of three texts, each starting with "Failed to" or asking to refresh the page |
| `Engine.BeginLoad` | src/services/videoProcessor.js:12-18 | a loaded instance is returned as is; otherwise a new instance is constructed and stored before the load is awaited |
| `Engine.FinishLoad` | src/services/videoProcessor.js:36-64 | `isLoaded` becomes true only after a successful load of a constructed instance; a failed load keeps the new instance stored and reports the mapped message |
| `Engine.LoadFFmpeg` | src/services/videoProcessor.js:12-64 | reuse when loaded; otherwise a fresh instance, loaded exactly when the engine's load succeeds, with validity kept |
| `Engine.CreateAbortController` | src/services/videoProcessor.js:71-74 | a fresh, unaborted controller becomes the held one; the instance and loaded flag are untouched |
| `Engine.CancelProcessing` | src/services/videoProcessor.js:79-94 | the held controller is aborted and dropped; the instance is terminated and cleared unless `terminate()` throws, in which case instance and flag stay |
| `Engine.CancelForcesFreshLoad` | src/services/videoProcessor.js:85-89 | after a cancellation that terminates, the next load constructs an instance different from the old one and never terminated |
| `Engine.CancelIdempotent` | src/services/videoProcessor.js:79-94 | cancelling twice leaves the same state as cancelling once |
| `Engine.CreateThenCancelAborts` | src/services/videoProcessor.js:71-83 | the signal of a new controller is not aborted until the next cancellation, which aborts it |
| `InputValidation.Validate` | src/services/videoProcessor.js:106-132 | the first failing check in the order missing image, missing audio, image type, audio type, image size, audio size; None exactly when the inputs are acceptable |
| `InputValidation.SizeBoundary` | src/services/videoProcessor.js:125-132 | exactly 31457280 bytes passes and one more byte fails, for both files |
| `InputValidation.TypeDecidesNotName` | src/services/videoProcessor.js:114-123 | the verdict depends on the MIME type, not on the file name |
| `FfmpegCommand.SettingsFor` | src/services/videoProcessor.js:190-207 | computes the quality row; `SettingsRows` and `QualityIncreasesWithPreset` state what the table promises |
| `FfmpegCommand.SettingsRows` | src/services/videoProcessor.js:190-207 | every quality string maps to one of three rows, and every string other than "fast" and "high" gets the balanced row |
| `FfmpegCommand.QualityIncreasesWithPreset` | src/services/videoProcessor.js:190-207 | a better preset has a strictly lower CRF and no lower audio bitrate, and only the best preset leaves "ultrafast" |
| `FfmpegCommand.WorkspaceFor` | src/services/videoProcessor.js:164-169 | inputs are staged as "input." plus the lower-cased extension, the output as "output.mp4", and GIF detection uses the MIME type or the extension |
| `FfmpegCommand.ExtensionShape` | src/services/videoProcessor.js:164-165 | the extension has no '.' and no upper-case letter, and is the whole name or the text after its last '.', lower-cased |
| `FfmpegCommand.GifDetection` | src/services/videoProcessor.js:169 | an image is a GIF exactly when its MIME type is "image/gif" or its extension is "gif" in any case |
| `FfmpegCommand.StagedNamesCollide` | src/services/videoProcessor.js:164-168 | the two input names coincide exactly when the extensions agree after lower-casing; the output name never equals an input name |
| `FfmpegCommand.BuildArgs` | src/services/videoProcessor.js:209-247 | computes the argument list; `GifAndStillDifferOnlyInMediaOptions`, `CommonOptions`, `InputOrder`, `GifOptions`, `GifHasNoStillOptions` and `StillOptions` state its shape |
| `FfmpegCommand.GifAndStillDifferOnlyInMediaOptions` | src/services/videoProcessor.js:212-247 | the GIF and still commands share inputs, codec settings and tail, differing only in the loop graph with maps versus `-loop 1` and `-tune stillimage` |
| `FfmpegCommand.CommonOptions` | src/services/videoProcessor.js:209-247 | both commands encode H.264 at the chosen preset and CRF, AAC at the chosen bitrate, yuv420p, `-shortest`, `+faststart`, with the output name last |
| `FfmpegCommand.InputOrder` | src/services/videoProcessor.js:214-234 | the image is input 0 and the audio input 1 |
| `FfmpegCommand.GifOptions` | src/services/videoProcessor.js:212-228 | the GIF command loops input 0 through the filter graph and maps "[v]" and "1:a" |
| `FfmpegCommand.GifHasNoStillOptions` | src/services/videoProcessor.js:212-228 | the GIF command has neither `-loop` nor `-tune` |
| `FfmpegCommand.StillOptions` | src/services/videoProcessor.js:229-245 | the still command starts with `-loop 1`, tunes for still images, and has no filter graph or stream map |
| `ProcessingErrors.DigitRun` | src/services/videoProcessor.js:284 | the captured group is the longest run of digits at that point |
| `ProcessingErrors.FirstExitCodeFrom` | src/services/videoProcessor.js:284 | the leftmost position where case-insensitive "exit code " is followed by a digit, or none |
| `ProcessingErrors.ExitCodeCapture` | src/services/videoProcessor.js:284 | no capture exactly when the pattern matches nowhere; a capture is the longest run of digits after the leftmost case-insensitive "exit code ", non-empty and occurring in the message |
| `ProcessingErrors.RuleFor` | src/services/videoProcessor.js:273-304 | the branch taken is the first whose test accepts the error |
| `ProcessingErrors.ClassifyProcessingError` | src/services/videoProcessor.js:268-306 | the rethrown message is never empty, and it is the original message when that is user-facing or mentions "Invalid" |
| `ProcessingErrors.ClassifyByRule` | src/services/videoProcessor.js:271-305 | the text each branch rethrows: the message itself for user-facing and "Invalid" messages, the exit-code text with the captured digits or "unknown", the timeout, memory and filter texts, the generic text for any other message, the message-less exit-code text, and the default text for an empty message |
| `ProcessingErrors.ClassifyChoosesAmongTexts` | src/services/videoProcessor.js:268-306 | the rethrown message is the original one, one of the six fixed texts, or the exit-code text |
| `ProcessingErrors.ExitCodeIsReported` | src/services/videoProcessor.js:282-285 | an exit-code failure's message names the captured digits, or "unknown" when there are none |
| `ProcessingErrors.ExitCodeOneIsNamed` | src/services/videoProcessor.js:282-285 | an ExitCodeError reading "Exit code 1" reaches the user with a message naming 1 |
| `ProcessingErrors.CancelledMessageIsRewritten` | src/services/videoProcessor.js:271-306 | the code's own cancellation message is classified as unhandled and replaced by the generic text |
| `ProcessingErrors.GenericTextIsStable` | src/services/videoProcessor.js:273-301 | the generic text is itself user-facing, so classifying it again leaves it unchanged |
| `VideoProcessor.Defined` | src/services/videoProcessor.js:154-161 | the listener forwards exactly the defined progress values, none added |
| `VideoProcessor.DefinedAppend` | src/services/videoProcessor.js:154-161 | forwarding a split stream of events is forwarding each part in turn |
| `VideoProcessor.CommandFor` | src/services/videoProcessor.js:209-249 | the list handed to `exec` is the one built from the staged names, the GIF flag and the quality row; `SuccessRanTheCommand` states that a success ran it |
| `VideoProcessor.Cleanup` | src/services/videoProcessor.js:256-263 | the deletes run in order image, audio, output on one instance; the audio delete is issued exactly when the image delete succeeded, and the output delete exactly when the audio delete did too |
| `VideoProcessor.FromRead` | src/services/videoProcessor.js:253-267 | a read that succeeds with no cancel landing during it resolves the run with the bytes as a "video/mp4" blob; the run resolves exactly when it deletes a file |
| `VideoProcessor.FromExec` | src/services/videoProcessor.js:249-267 | the run execs the command built from the workspace and quality, deletes files exactly when it resolves, and is rejected by a terminating cancel during exec |
| `VideoProcessor.FromLoaded` | src/services/videoProcessor.js:143-267 | an aborted signal stops the run before any write; a resolved run reported 0.1 then the defined values and wrote both inputs, ran the command and read the output; a terminating cancel during the writes stops it before exec |
| `VideoProcessor.FromLoadedBegins` | src/services/videoProcessor.js:148-179 | when the signal is not aborted, progress starts at 0.1 and the image is written first; the audio is written next unless the image write failed or a cancel landed during it |
| `VideoProcessor.LoadStage` | src/services/videoProcessor.js:141-146 | the awaited load makes only construct, load and terminate calls, constructs nothing when already loaded, leaves the signal aborted when cancelled during it, and reports a failed load with the mapped message after constructing and loading one instance |
| `VideoProcessor.TryBody` | src/services/videoProcessor.js:134-138 | a signal already aborted rejects at the first checkpoint with no engine call and no state change |
| `VideoProcessor.TryBodyReusesLoaded` | src/services/videoProcessor.js:141 | with a loaded engine the `try` constructs no instance |
| `VideoProcessor.TryBodyCleansUpOnSuccess` | src/services/videoProcessor.js:253-267 | the `try` deletes files exactly when it resolves |
| `VideoProcessor.TryBodyProgress` | src/services/videoProcessor.js:148-161 | without a callback nothing is reported; a success with one reports 0.1 and then the engine's defined values |
| `VideoProcessor.TryBodySuccess` | src/services/videoProcessor.js:176-267 | a resolved `try` wrote both inputs, ran the built command and read the output on one instance, and resolves with the bytes read as "video/mp4" |
| `VideoProcessor.HappyTryBody` | src/services/videoProcessor.js:134-267 | with a live signal, no cancel and every engine call succeeding, the `try` resolves with the bytes read |
| `VideoProcessor.SwallowedTryBody` | src/services/videoProcessor.js:256-263 | the `try` settles the same way and leaves the same module state whatever the three deletes do |
| `VideoProcessor.TryBodyCancelBeforeExec` | src/services/videoProcessor.js:141-184 | a cancel with the run's own signal during the load or the writes rejects before any exec |
| `VideoProcessor.TryBodyLoadFailure` | src/services/videoProcessor.js:141 | a failed first load rejects with the mapped load message after exactly one construct and one load call |
| `VideoProcessor.TryBodyCancelDuringExec` | src/services/videoProcessor.js:249-267 | a terminating cancel during exec rejects, and once exec ran no instance is left loaded |
| `VideoProcessor.ProcessVideo` | src/services/videoProcessor.js:105-308 | a validation failure rejects with its own message and touches nothing; every rejection is an Error with a non-empty message |
| `VideoProcessor.ProcessVideoIsTryBody` | src/services/videoProcessor.js:134-307 | for valid inputs, the engine effects are those of the `try` body, and only a failure's message is rewritten |
| `VideoProcessor.ResolvedOnlyWhenAcceptable` | src/services/videoProcessor.js:105-267 | a run resolves only for acceptable inputs, with the engine's output bytes, and reports progress only when a callback is given |
| `VideoProcessor.HappyPathResolves` | src/services/videoProcessor.js:134-267 | acceptable inputs, a live signal, no cancel and every engine call succeeding resolve the run with the bytes read as a "video/mp4" blob, after progress 0.1 and the engine's defined values |
| `VideoProcessor.CleanupFailureIsSwallowed` | src/services/videoProcessor.js:256-263 | a delete that throws never changes how the run settles or the module state it leaves |
| `VideoProcessor.AbortNotCheckedAfterExec` | src/services/videoProcessor.js:249-267 | a cancellation after exec that fails to terminate, or lands during cleanup, leaves the outcome as if nobody had cancelled |
| `VideoProcessor.AbortedBeforeStartTouchesNothing` | src/services/videoProcessor.js:134-138 | a signal already aborted makes no engine call and no state change, and rejects with the generic text |
| `VideoProcessor.LoadedInstanceIsReused` | src/services/videoProcessor.js:13-15 | with a loaded instance, no new instance is constructed |
| `VideoProcessor.SuccessRanTheCommand` | src/services/videoProcessor.js:176-267 | a success wrote both staged inputs, ran the built command and read "output.mp4", all on one instance |
| `VideoProcessor.CleanupOnlyOnSuccess` | src/services/videoProcessor.js:256-268 | a delete is issued exactly when the run resolves |
| `VideoProcessor.CancelBeforeExecPreventsExec` | src/services/videoProcessor.js:171-184 | a cancellation with the run's own signal during load or the writes means exec is never called |
| `VideoProcessor.CancelDuringExecRejects` | src/services/videoProcessor.js:249-268 | a cancellation during exec that terminates the engine rejects the run and leaves no instance and no loaded flag |
| `VideoProcessor.SuccessProgress` | src/services/videoProcessor.js:148-161 | a successful run with a callback reports 0.1 and then the engine's defined values verbatim |
| `VideoProcessor.CancelDuringLoadIsSeen` | src/services/videoProcessor.js:141-146 | a cancellation during load with the run's own signal rejects the run and leaves that signal aborted |
| `VideoProcessor.LoadFailureReachesCaller` | src/services/videoProcessor.js:273-279 | a failed load reaches the caller with the load message unchanged |
| `App.MountedTracksUrls` | src/App.jsx:7-18 | the initial page holds no object URL, consistent with its ref |
| `App.RevokeHeldUrl` | src/App.jsx:42-46 | the held URL is revoked and the ref cleared; nothing else changes |
| `App.SelectImage` | src/App.jsx:20-24 | the image is stored, the error cleared, the video hidden; the other fields stay |
| `App.SelectAudio` | src/App.jsx:26-30 | the audio is stored, the error cleared, the video hidden; the other fields stay |
| `App.StartProcess` | src/App.jsx:32-65 | without both files only the prompt is set; otherwise the run starts processing, with the previous URL revoked, a fresh controller held, and progress at the 15 percent text |
| `App.DisplayMessage` | src/App.jsx:107-124 | a message is shown as is; without one, the error name picks the network, quota or unexpected text |
| `App.WasCancelled` | src/App.jsx:93-96 | a message containing "cancelled", "Cancelled" or "terminated", or the held signal aborted, marks a cancellation; `SettleProcess`, `CancelDuringLoadShowsNoError` and `FailureShownVerbatim` state what follows from it |
| `App.SettleProcess` | src/App.jsx:73-134 | success shows the blob through one new URL at 100 percent; a cancellation shows the notice and adds no error; a failure shows its display text; each way the session ends idle |
| `App.ScaledPercentRange` | src/App.jsx:67-71 | progress in [0, 1] is shown between 15 and 90 percent, monotonically, and 0.1 shows as 23 |
| `App.HandleCancel` | src/App.jsx:137-143 | without a held controller nothing changes; otherwise the session is marked cancelling and the engine is cancelled |
| `App.HandleProcess` | src/App.jsx:32-135 | a run happens exactly when both files are selected, and the engine ends in the run's final state |
| `App.FinallyResets` | src/App.jsx:130-134 | however the run ends, the page is not processing, not cancelling, and holds no controller |
| `App.MissingFileOnlyPrompts` | src/App.jsx:33-36 | a missing file shows the prompt and changes nothing else, in the page or the engine |
| `App.CancelInPauseShowsNoError` | src/App.jsx:92-105 | a cancel during the pause before `processVideo` shows the cancelled notice and no error |
| `App.CancelDuringLoadShowsNoError` | src/App.jsx:92-105 | a cancel while the engine loads shows the cancelled notice and no error |
| `App.FailureShownVerbatim` | src/App.jsx:106-128 | a failure that is not a cancellation is shown with the rejection's message |
| `App.SuccessShowsVideo` | src/App.jsx:73-82 | a successful run shows the new video through the only live URL |
| `App.DownloadName` | src/App.jsx:145-150 | a download name exists exactly when a video does, and it starts with "video_" |
| `App.DownloadNameCarriesTime` | src/App.jsx:147 | the timestamp can be read back from the download name |
| `App.HandleReset` | src/App.jsx:152-166 | the held URL is revoked, and the files, video, error and progress are cleared |
| `App.HandlersTrackUrls` | src/App.jsx:20-166 | select, cancel and reset keep at most one live object URL, the one the ref holds |
| `App.ProcessTracksUrls` | src/App.jsx:42-79 | a processing run keeps that invariant: the old URL is revoked first, and success creates exactly one new one |
| `LogEvent.EventTitle` | api/log-event.js:92-105 | the default title is given exactly to events other than the four known ones |
| `LogEvent.EventColor` | api/log-event.js:107-120 | the default gray is given exactly to events other than the four known ones |
| `LogEvent.TitleAndColorAgree` | api/log-event.js:92-120 | exactly the four known events get their own title and colour, pairwise distinct; any other event gets the default title and gray |
| `LogEvent.BrowserOf` | api/log-event.js:122-136 | computes the ordered substring tests; `BrowserOfByLabel` characterises each outcome without the order |
| `LogEvent.BrowserOfByLabel` | api/log-event.js:122-136 | each browser label is characterised by which of the five substrings the agent contains |
| `LogEvent.BrowserLabelsDistinct` | api/log-event.js:122-136 | the six labels are pairwise distinct |
| `LogEvent.AgentOf` | api/log-event.js:18 | the header is used when present, and the agent is never empty |
| `LogEvent.MissingAgentIsOther` | api/log-event.js:18-19 | a request without a user agent is reported as "Other" |
| `LogEvent.OrNotApplicable` | api/log-event.js:35 | a truthy value is kept, a falsy one becomes "N/A", so the field is never falsy |
| `LogEvent.SecondsOrNotApplicable` | api/log-event.js:40 | a truthy time is shown with an "s" suffix, a falsy one as "N/A" |
| `LogEvent.EmbedFor` | api/log-event.js:27-70 | six inline fields with fixed names in a fixed order, the first four never falsy, the event's title and colour, the footer and the ISO timestamp |
| `LogEvent.ZeroTimeIsNotApplicable` | api/log-event.js:38-42 | a processing time of 0 shows as "N/A" and any other integer n as n followed by "s" |
| `LogEvent.Handle` | api/log-event.js:1-90 | 405 for a non-POST and 500 without a webhook, both sending nothing; a message is sent exactly for a POST with a webhook and a body; 200 exactly when that send is answered with a 2xx |
| `LogEvent.SentMessageCarriesBody` | api/log-event.js:15-79 | the message sent carries the body's quality and types or "N/A", the agent's browser label, and the event's title |
| `Analytics.TrackEvent` | src/utils/analytics.js:12-27 | with a tracker, the event is delivered, or dropped silently if `track` throws; without one, it is appended to the queue; no error escapes |
| `Analytics.TrackAllQueues` | src/utils/analytics.js:17-21 | without a tracker, events join the end of the queue in the order tracked |
| `Analytics.TrackAllDelivers` | src/utils/analytics.js:14-16 | with an accepting tracker, events are delivered in order and the queue is untouched |
| `Analytics.ProcessQueuedEvents` | src/utils/analytics.js:126-134 | with `la` present and a non-empty queue, the queue is delivered in FIFO order and emptied; a throwing `track` leaves the earlier events delivered and the queue as it was; otherwise nothing changes |
| `Analytics.PollTracker` | src/utils/analytics.js:137-144 | once `track` is a function the queue is flushed, and polling stops exactly when the flush did not throw |
| `Analytics.TrackThenLoad` | src/utils/analytics.js:126-144 | events tracked before the tracker loads end up delivered as if it had been there from the start |
| `Analytics.SizeKbIsIntegerRounding` | src/utils/analytics.js:40 | `Math.round(size / 1024)` equals `(size + 512) / 1024` in integer division |
| `Analytics.ErrorExcerpt` | src/utils/analytics.js:88-92 | at most the first 100 characters of the message, the whole of a short one, undefined for a missing one |
| `Analytics.EventFor` | src/utils/analytics.js:37-121 | computes the event each funnel helper tracks; `EventNameIdentifiesAction` and `MetadataShape` state its names, types and metadata |
| `Analytics.EventNameIdentifiesAction` | src/utils/analytics.js:37-121 | each helper emits one fixed (type, name) pair, and the event name alone tells the helpers apart |
| `Analytics.MetadataShape` | src/utils/analytics.js:37-92 | uploads report the size in rounded kilobytes, and errors at most 100 characters of the message |

## Left out

- The FFmpeg engine itself (WebAssembly, `fetchFile`, `toBlobURL`, the CDN
  base URL) is foreign code, so an oracle stands in for it.
- The `log` and `progress` console listeners registered by `loadFFmpeg`
  (src/services/videoProcessor.js:21-30) only write to the console.
- Each run on a reused instance registers one more `progress` listener
  (src/services/videoProcessor.js:155-160), so an old run's callback also
  hears later runs. The model forwards each engine event to the current run
  only.
- Checkpoint 172 is the same test as checkpoint 144 with nothing awaited in
  between, so the model has one checkpoint for both.
- The run has at most one cancellation, landing at one await. Cancels during
  the `fetchFile` reads are treated as cancels during the writes.
- Timers are not modelled: the 300 ms pause is only the point where a cancel
  can land, and the 3 s and 2 s timers that clear the progress text are
  absent. The analytics 500 ms polling and its 10 s stop are also absent;
  one tick is `Analytics.PollTracker`.
- The page records only the last progress text and percentage, not the
  sequence of intermediate values shown while the engine runs.
- `downloadFile`, `createVideoURL` and the DOM are out of scope. Object URLs
  are numbers, and the download is reduced to its file name.
- Console output and `console.error` diagnostics are not modelled.
- The relay's `process.env`, `fetch`, `Date` and `toLocaleString` are I/O.
  They are parameters: the webhook URL, the webhook's answer, and two clock
  strings. JSON serialisation and the response object's API are not modelled.
- Presentational components, the quality selector markup, the theme toggle
  and the help panels are display code.
- `Analytics.TrackEvent`: a tracker's failures are fixed per event (the set
  `rejects`), not chosen per call.
- `LogEvent.SecondsOrNotApplicable`: numbers are integers in the model, so a
  fractional processing time such as 12.5 is not modelled, because
  JavaScript's rendering of fractions is outside the model.
- `Analytics.ErrorExcerpt`: counts Unicode characters, not the UTF-16 code
  units `substring` counts, because strings are sequences of characters here.
- `Engine.Perform`: a terminated instance always rejects, and `LoadStage` records
  `ffmpeg.load` before a cancellation that lands during it. A cancel can also
  land during the two `toBlobURL` awaits (src/services/videoProcessor.js:38-39),
  before `load` is called on an instance that `cancelProcessing` has
  terminated and dropped. Whether that load succeeds is up to the engine. If it
  does, line 54 sets `isLoaded` with no instance held, a state `Engine.Valid`
  excludes. The model leaves that interleaving out, because the engine's
  behaviour on a terminated instance is not part of this model.
- `FfmpegCommand.ExtensionShape`: lower-casing covers ASCII letters only,
  because the model's `toLowerCase` has no Unicode case tables.
- `App.HandleProcess`: the percentages shown during the run are not recorded,
  only the settled state, because the page history is not part of the state.
