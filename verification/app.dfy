/** The session controller of `App.jsx`: the state the page keeps between
    renders and the handlers that change it. `handleProcess` is split at its
    awaits into a start, the call of `processVideo`, and a settle step that
    tells a cancellation from a failure and resets the session in `finally`.
    Object URLs are named by numbers; `liveUrls` are those created and not yet
    revoked. The rendering is not modelled. */
module App {
  import opened Js
  import opened Engine
  import IV = InputValidation
  import VP = VideoProcessor

  datatype AppState = AppState(
    imageFile: Option<IV.FileInfo>,
    audioFile: Option<IV.FileInfo>,
    isProcessing: bool,
    error: Option<string>,
    videoUrl: Option<nat>,
    videoBlob: Option<VP.Blob>,
    progress: string,
    progressPercent: int,
    quality: string,
    isCancelling: bool,
    videoUrlRef: Option<nat>,
    abortControllerRef: Option<nat>,
    liveUrls: set<nat>,
    nextUrl: nat)

  /** The state of a freshly mounted page. */
  const Mounted := AppState(None, None, false, None, None, None, "", 0, "balanced", false, None, None, {}, 0)

  const SelectBothText := "Please select both an image/GIF and an audio file"
  const RunningText := "Processing video (this may take a minute)..."
  const DoneText := "Video processed successfully!"
  const CancelledNotice := "Processing cancelled."
  const CancellingText := "Cancelling..."
  const FallbackText := "Something went wrong while processing the video."
  const NetworkText := "Network error occurred. Please check your internet connection and try again."
  const QuotaText := "Browser storage limit exceeded. Please clear some space and try again."
  const UnexpectedText := "An unexpected error occurred. Please try again."

  /** Every object URL still alive is the one the ref holds, and the URL shown
      is that one too. */
  predicate UrlsTracked(a: AppState)
  {
    && (forall u | u in a.liveUrls :: a.videoUrlRef == Some(u))
    && (a.videoUrl.Some? ==> a.videoUrl == a.videoUrlRef)
    && (a.videoUrlRef.Some? ==> a.videoUrlRef.value < a.nextUrl)
  }

  lemma MountedTracksUrls()
    ensures UrlsTracked(Mounted)
  {
  }

  /** Revoke the URL the ref holds, if any, and clear the ref. */
  function RevokeHeldUrl(a: AppState): (r: AppState)
    ensures r.videoUrlRef.None?
    ensures a.videoUrlRef.Some? ==> r.liveUrls == a.liveUrls - {a.videoUrlRef.value}
    ensures a.videoUrlRef.None? ==> r.liveUrls == a.liveUrls
    ensures r == a.(videoUrlRef := None, liveUrls := r.liveUrls)
  {
    if a.videoUrlRef.Some? then a.(liveUrls := a.liveUrls - {a.videoUrlRef.value}, videoUrlRef := None)
    else a
  }

  // ---------------------------------------------------------------------------
  // File selection

  /** `handleImageSelect` and `handleAudioSelect`: store the file, clear the
      error and hide the video; the URL itself stays held until the next run
      or reset. */
  function SelectImage(a: AppState, file: Option<IV.FileInfo>): (r: AppState)
    ensures UrlsTracked(a) ==> UrlsTracked(r)
    ensures r.imageFile == file && r.error.None? && r.videoUrl.None?
    ensures r.liveUrls == a.liveUrls && r.videoUrlRef == a.videoUrlRef
    ensures r == a.(imageFile := r.imageFile, error := r.error, videoUrl := r.videoUrl)
  {
    a.(imageFile := file, error := None, videoUrl := None)
  }

  function SelectAudio(a: AppState, file: Option<IV.FileInfo>): (r: AppState)
    ensures UrlsTracked(a) ==> UrlsTracked(r)
    ensures r.audioFile == file && r.error.None? && r.videoUrl.None?
    ensures r.liveUrls == a.liveUrls && r.videoUrlRef == a.videoUrlRef
    ensures r == a.(audioFile := r.audioFile, error := r.error, videoUrl := r.videoUrl)
  {
    a.(audioFile := file, error := None, videoUrl := None)
  }

  // ---------------------------------------------------------------------------
  // handleProcess

  /** `handleProcess` up to the call of `processVideo`, once its 300 ms pause
      is over: the guard, the clean-up of the previous video, and a fresh
      abort controller stored in the ref. */
  function StartProcess(a: AppState, e: EngineState): (r: (AppState, EngineState, bool))
    requires Valid(e)
    ensures Valid(r.1)
    ensures a.imageFile.None? || a.audioFile.None? ==> r == (a.(error := Some(SelectBothText)), e, false)
    ensures a.imageFile.Some? && a.audioFile.Some? ==>
              && r.2
              && r.0.isProcessing && r.0.error.None?
              && r.0.videoUrlRef.None? && r.0.videoUrl.None? && r.0.videoBlob.None?
              && (a.videoUrlRef.Some? ==> a.videoUrlRef.value !in r.0.liveUrls)
              && r.0.liveUrls <= a.liveUrls
              && r.0.abortControllerRef.Some? && r.0.abortControllerRef == r.1.controller
              && !Aborted(r.1, r.0.abortControllerRef)
              && r.0.progress == RunningText && r.0.progressPercent == 15
              && r.0.imageFile == a.imageFile && r.0.audioFile == a.audioFile && r.0.quality == a.quality
  {
    if a.imageFile.None? || a.audioFile.None? then (a.(error := Some(SelectBothText)), e, false)
    else
      var a1 := RevokeHeldUrl(a.(isProcessing := true, error := None));
      var (e1, controller) := CreateAbortController(e);
      var a2 := a1.(videoUrl := None, videoBlob := None, abortControllerRef := Some(controller),
                    progress := RunningText, progressPercent := 15);
      (a2, e1, true)
  }

  /** What the `catch` calls a cancellation: a message naming one, or the
      held signal already aborted. */
  predicate WasCancelled(err: JsError, e: EngineState, ref: Option<nat>)
  {
    Includes(err.message, "cancelled") || Includes(err.message, "Cancelled")
    || Includes(err.message, "terminated") || Aborted(e, ref)
  }

  /** The error text shown for a failure that is not a cancellation: the
      message when there is one, otherwise a text chosen by the error's name. */
  function DisplayMessage(err: JsError): (m: string)
    ensures |m| > 0
    ensures err.message != "" ==> m == err.message
    ensures err.message == "" && err.name in {"NetworkError", "TypeError"} ==> m == NetworkText
    ensures err.message == "" && err.name == "QuotaExceededError" ==> m == QuotaText
    ensures err.message == "" && err.name == "" ==> m == FallbackText
    ensures err.message == "" && err.name !in {"", "NetworkError", "TypeError", "QuotaExceededError"}
            ==> m == UnexpectedText
  {
    if err.message != "" then err.message
    else if err.name != "" then
      if err.name == "NetworkError" || err.name == "TypeError" then NetworkText
      else if err.name == "QuotaExceededError" then QuotaText
      else UnexpectedText
    else FallbackText
  }

  /** `handleProcess` after `processVideo` settles: show the video, or note
      the cancellation, or show the error; then, whatever happened, end the
      run and drop the controller ref. The timers that later clear the
      progress text are not modelled. */
  function SettleProcess(a: AppState, e: EngineState, outcome: VP.Outcome): (r: AppState)
    ensures !r.isProcessing && !r.isCancelling && r.abortControllerRef.None?
    ensures outcome.Resolved? ==>
              && r.videoBlob == Some(outcome.blob)
              && r.videoUrl == Some(a.nextUrl) && r.videoUrlRef == Some(a.nextUrl)
              && r.liveUrls == a.liveUrls + {a.nextUrl} && r.nextUrl == a.nextUrl + 1
              && r.progress == DoneText && r.progressPercent == 100 && r.error == a.error
    ensures outcome.Rejected? ==> r.videoBlob == a.videoBlob && r.liveUrls == a.liveUrls && r.progressPercent == 0
    ensures outcome.Rejected? && WasCancelled(outcome.error, e, a.abortControllerRef) ==>
              r.error == a.error && r.progress == CancelledNotice
    ensures outcome.Rejected? && !WasCancelled(outcome.error, e, a.abortControllerRef) ==>
              r.error == Some(DisplayMessage(outcome.error)) && r.progress == ""
  {
    var a1 :=
      match outcome
      case Resolved(blob) =>
        var url := a.nextUrl;
        a.(videoBlob := Some(blob), liveUrls := a.liveUrls + {url}, nextUrl := url + 1,
           videoUrlRef := Some(url), videoUrl := Some(url), progress := DoneText, progressPercent := 100)
      case Rejected(err) =>
        if WasCancelled(err, e, a.abortControllerRef) then a.(progress := CancelledNotice, progressPercent := 0)
        else a.(error := Some(DisplayMessage(err)), progress := "", progressPercent := 0);
    a1.(isProcessing := false, isCancelling := false, abortControllerRef := None)
  }

  /** The percentage shown for an engine progress value p. */
  function ScaledPercent(p: real): int
  {
    MathRound(15.0 + p * 75.0)
  }

  /** Engine progress in [0, 1] is shown between 15 and 90 percent, in order;
      the 0.1 reported once the engine is loaded shows as 23. */
  lemma ScaledPercentRange(p: real, q: real)
    ensures 0.0 <= p <= 1.0 ==> 15 <= ScaledPercent(p) <= 90
    ensures p <= q ==> ScaledPercent(p) <= ScaledPercent(q)
    ensures ScaledPercent(0.1) == 23
  {
  }

  // ---------------------------------------------------------------------------
  // handleCancel

  /** `handleCancel`: nothing without a held controller; otherwise mark the
      session as cancelling and cancel the engine work. */
  function HandleCancel(a: AppState, e: EngineState, terminateThrows: bool): (r: (AppState, EngineState))
    requires Valid(e)
    ensures Valid(r.1)
    ensures a.abortControllerRef.None? ==> r == (a, e)
    ensures a.abortControllerRef.Some? ==>
              && r.0 == a.(isCancelling := true, progress := CancellingText)
              && r.1 == CancelProcessing(e, terminateThrows)
  {
    if a.abortControllerRef.None? then (a, e)
    else (a.(isCancelling := true, progress := CancellingText), CancelProcessing(e, terminateThrows))
  }

  /** What `handleCancel` shows while the run is still awaited, if the user
      cancelled it; only the cancelling flag and the progress text change. */
  function NoteCancel(a: AppState, cancelled: bool): (r: AppState)
    ensures cancelled ==> r.isCancelling && r.progress == CancellingText
    ensures !cancelled ==> r == a
    ensures r == a.(isCancelling := r.isCancelling, progress := r.progress)
  {
    if cancelled then a.(isCancelling := true, progress := CancellingText) else a
  }

  /** The whole of `handleProcess`. The user may cancel during the pause
      before `processVideo` is called (`cancelInPause`) or during one of its
      awaits (as the oracle says), which shows as the run's aborted signal;
      the handler's own effects on the page are then overwritten when the run
      settles. */
  function HandleProcess(a: AppState, e: EngineState, cancelInPause: bool, o: VP.Oracle)
    : (r: (AppState, EngineState, Option<VP.Run>))
    requires Valid(e)
    ensures Valid(r.1)
    ensures r.2.Some? <==> a.imageFile.Some? && a.audioFile.Some?
    ensures r.2.Some? ==> r.1 == r.2.value.state
  {
    var (a1, e1, started) := StartProcess(a, e);
    if !started then (a1, e1, None)
    else
      var (a2, e2) := if cancelInPause then HandleCancel(a1, e1, o.terminateThrows) else (a1, e1);
      var run := VP.ProcessVideo(e2, a2.imageFile, a2.audioFile, a2.quality, true, a2.abortControllerRef, o);
      var a3 := NoteCancel(a2, Aborted(run.state, a2.abortControllerRef));
      (SettleProcess(a3, run.state, run.outcome), run.state, Some(run))
  }

  /** However the run ends, `finally` leaves the session idle: not
      processing, not cancelling, and holding no controller. */
  lemma FinallyResets(a: AppState, e: EngineState, cancelInPause: bool, o: VP.Oracle)
    requires Valid(e) && a.imageFile.Some? && a.audioFile.Some?
    ensures var (a', _, _) := HandleProcess(a, e, cancelInPause, o);
            !a'.isProcessing && !a'.isCancelling && a'.abortControllerRef.None?
  {
  }

  /** A missing file stops `handleProcess` at its guard: the prompt is shown
      and nothing else changes, in the page or in the engine. */
  lemma MissingFileOnlyPrompts(a: AppState, e: EngineState, cancelInPause: bool, o: VP.Oracle)
    requires Valid(e) && (a.imageFile.None? || a.audioFile.None?)
    ensures HandleProcess(a, e, cancelInPause, o) == (a.(error := Some(SelectBothText)), e, None)
  {
  }

  /** A user who cancels during the pause sees no error: the run is turned
      back at its first checkpoint and the aborted signal marks it as a
      cancellation. */
  lemma CancelInPauseShowsNoError(a: AppState, e: EngineState, o: VP.Oracle)
    requires Valid(e) && a.imageFile.Some? && a.audioFile.Some?
    requires IV.Acceptable(a.imageFile, a.audioFile)
    ensures var (a', e', run) := HandleProcess(a, e, true, o);
            && run.Some? && run.value.calls == [] && run.value.outcome.Rejected?
            && a'.error.None? && a'.progress == CancelledNotice && a'.progressPercent == 0
  {
    var (a1, e1, _) := StartProcess(a, e);
    var (a2, e2) := HandleCancel(a1, e1, o.terminateThrows);
    assert Aborted(e2, a2.abortControllerRef);
    VP.AbortedBeforeStartTouchesNothing(e2, a.imageFile.value, a.audioFile.value, a2.quality, true,
                                        a2.abortControllerRef, o);
  }

  /** A user who cancels while the engine loads sees no error either. */
  lemma CancelDuringLoadShowsNoError(a: AppState, e: EngineState, o: VP.Oracle)
    requires Valid(e) && a.imageFile.Some? && a.audioFile.Some?
    requires IV.Acceptable(a.imageFile, a.audioFile) && o.cancelDuring == VP.DuringLoad
    ensures var (a', e', run) := HandleProcess(a, e, false, o);
            run.Some? && run.value.outcome.Rejected?
            && a'.error.None? && a'.progress == CancelledNotice && a'.progressPercent == 0
  {
    var (a1, e1, _) := StartProcess(a, e);
    VP.CancelDuringLoadIsSeen(e1, a.imageFile.value, a.audioFile.value, a1.quality, true, o);
  }

  /** A failure that is not a cancellation is shown with the text
      `processVideo` rejected with: its messages are never empty, so the
      name-based fallbacks are never reached from a run. */
  lemma FailureShownVerbatim(a: AppState, e: EngineState, cancelInPause: bool, o: VP.Oracle)
    requires Valid(e) && a.imageFile.Some? && a.audioFile.Some?
    ensures var (a', e', run) := HandleProcess(a, e, cancelInPause, o);
            && run.Some?
            && (run.value.outcome.Rejected? && !WasCancelled(run.value.outcome.error, e', Some(e.nextId)) ==>
                  a'.error == Some(run.value.outcome.error.message) && a'.progress == "" && a'.progressPercent == 0)
  {
  }

  /** A successful run shows the new video, through the only live URL. */
  lemma SuccessShowsVideo(a: AppState, e: EngineState, cancelInPause: bool, o: VP.Oracle)
    requires Valid(e) && UrlsTracked(a) && a.imageFile.Some? && a.audioFile.Some?
    ensures var (a', e', run) := HandleProcess(a, e, cancelInPause, o);
            run.Some? && run.value.outcome.Resolved? ==>
              && a'.videoBlob == Some(run.value.outcome.blob) && a'.error.None?
              && a'.videoUrl.Some? && a'.liveUrls == {a'.videoUrl.value}
              && a'.progress == DoneText && a'.progressPercent == 100
  {
    var (a1, e1, _) := StartProcess(a, e);
    assert a1.liveUrls == {};
  }

  // ---------------------------------------------------------------------------
  // handleDownload and handleReset

  /** The name `handleDownload` gives the file, from `Date.now()`; nothing is
      downloaded without a video. */
  function DownloadName(a: AppState, now: nat): (r: Option<string>)
    ensures r.Some? <==> a.videoBlob.Some?
    ensures r.Some? ==> StartsWith(r.value, "video_") && |r.value| > 10
  {
    if a.videoBlob.None? then None
    else
      StartsWithPrefix("video_", NatToDecimal(now) + ".mp4");
      Some("video_" + NatToDecimal(now) + ".mp4")
  }

  /** The timestamp can be read back from the name: it is the decimal digits
      between "video_" and ".mp4". */
  lemma DownloadNameCarriesTime(a: AppState, now: nat)
    requires a.videoBlob.Some?
    ensures var name := DownloadName(a, now).value;
            && AllDigits(name[6..|name| - 4])
            && DecimalValue(name[6..|name| - 4]) == now
            && name[|name| - 4..] == ".mp4"
  {
    var name := DownloadName(a, now).value;
    assert name[6..|name| - 4] == NatToDecimal(now);
    DecimalRoundTrip(now);
  }

  /** `handleReset`: revoke the held URL and clear both files, the video,
      the error and the progress. */
  function HandleReset(a: AppState): (r: AppState)
    ensures r.imageFile.None? && r.audioFile.None?
    ensures r.videoUrl.None? && r.videoBlob.None? && r.videoUrlRef.None? && r.error.None?
    ensures r.progress == "" && r.progressPercent == 0
    ensures a.videoUrlRef.Some? ==> a.videoUrlRef.value !in r.liveUrls
    ensures UrlsTracked(a) ==> UrlsTracked(r) && r.liveUrls == {}
    ensures r.quality == a.quality && r.isProcessing == a.isProcessing
            && r.abortControllerRef == a.abortControllerRef
  {
    RevokeHeldUrl(a).(imageFile := None, audioFile := None, videoUrl := None, videoBlob := None,
                      error := None, progress := "", progressPercent := 0)
  }

  /** Every handler keeps the URL bookkeeping: at most one object URL is alive
      at any time, and it is the one the ref holds. */
  lemma HandlersTrackUrls(a: AppState, e: EngineState, terminateThrows: bool, file: Option<IV.FileInfo>)
    requires Valid(e) && UrlsTracked(a)
    ensures UrlsTracked(HandleCancel(a, e, terminateThrows).0)
    ensures UrlsTracked(HandleReset(a))
    ensures UrlsTracked(SelectImage(a, file)) && UrlsTracked(SelectAudio(a, file))
  {
  }

  /** `handleProcess` keeps it too: the previous URL is revoked before the
      run, and a success creates exactly one new one. */
  lemma ProcessTracksUrls(a: AppState, e: EngineState, cancelInPause: bool, o: VP.Oracle)
    requires Valid(e) && UrlsTracked(a)
    ensures UrlsTracked(HandleProcess(a, e, cancelInPause, o).0)
  {
    if a.imageFile.Some? && a.audioFile.Some? {
      var (a1, e1, _) := StartProcess(a, e);
      assert a1.liveUrls == {};
      var (a2, e2) := if cancelInPause then HandleCancel(a1, e1, o.terminateThrows) else (a1, e1);
      var run := VP.ProcessVideo(e2, a2.imageFile, a2.audioFile, a2.quality, true, a2.abortControllerRef, o);
      var a3 := NoteCancel(a2, Aborted(run.state, a2.abortControllerRef));
      assert HandleProcess(a, e, cancelInPause, o).0 == SettleProcess(a3, run.state, run.outcome);
      SettleTracksUrls(a3, run.state, run.outcome);
    }
  }

  /** Settling a run keeps the bookkeeping: the only URL it creates is a
      fresh one, held by the ref and shown. */
  lemma SettleTracksUrls(a: AppState, e: EngineState, outcome: VP.Outcome)
    requires UrlsTracked(a)
    requires outcome.Resolved? ==> a.liveUrls == {}
    ensures UrlsTracked(SettleProcess(a, e, outcome))
  {
  }
}
