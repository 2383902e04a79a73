/** The module-level engine state of `videoProcessor.js` and the operations on
    it: `loadFFmpeg` (reuse, construction, load-error mapping),
    `createAbortController` and `cancelProcessing`. The FFmpeg engine itself
    is foreign code; each of its calls is an `Attempt` chosen by the caller of
    the model, except that an instance that has been terminated rejects
    everything it is asked. */
module Engine {
  import opened Js

  /** The outcome of one call into the engine. */
  datatype Attempt = Succeeds | Throws(error: JsError)

  /** `ffmpegInstance`, `isLoaded` and `currentAbortController`, plus the
      facts about the objects they point to that the code relies on: which
      abort signals are aborted and which instances have been terminated.
      Instances and controllers are named by numbers below `nextId`. */
  datatype EngineState = EngineState(
    instance: Option<nat>,
    isLoaded: bool,
    controller: Option<nat>,
    aborted: set<nat>,
    terminated: set<nat>,
    nextId: nat)

  /** The state when the page has just loaded. */
  const Initial := EngineState(None, false, None, {}, {}, 0)

  /** How the state stays coherent: a loaded flag only with a live instance,
      a held controller not yet aborted, and every name already issued. */
  predicate Valid(s: EngineState)
  {
    && (s.isLoaded ==> s.instance.Some?)
    && (s.instance.Some? ==> s.instance.value < s.nextId && s.instance.value !in s.terminated)
    && (s.controller.Some? ==> s.controller.value < s.nextId && s.controller.value !in s.aborted)
    && (forall c :: c in s.aborted ==> c < s.nextId)
    && (forall i :: i in s.terminated ==> i < s.nextId)
  }

  lemma InitialIsValid()
    ensures Valid(Initial)
  {
  }

  /** `signal?.aborted` for an optional signal. */
  predicate Aborted(s: EngineState, signal: Option<nat>)
  {
    signal.Some? && signal.value in s.aborted
  }

  /** A call on an instance: a terminated instance rejects with the error the
      engine uses for that case; a live one does what the attempt says. */
  function Perform(s: EngineState, id: nat, a: Attempt, terminatedError: JsError): (r: Attempt)
    ensures id in s.terminated ==> r == Throws(terminatedError)
    ensures id !in s.terminated ==> r == a
  {
    if id in s.terminated then Throws(terminatedError) else a
  }

  // ---------------------------------------------------------------------------
  // Load-error mapping

  const DownloadFailedText := "Failed to" + " download FFmpeg files. Please check your internet connection and try again."
  const NoSharedMemoryText := "Your browser " + "does not support"
                              + " SharedArrayBuffer. Please use a modern browser like Chrome, Firefox, or Edge."
  const LoadFailedText := "Failed to" + " load FFmpeg. Please " + "refresh the page" + " and try again."
  const LoadGenericText := "Something" + " went wrong while loading FFmpeg. Please " + "refresh the page" + " and try again."

  /** The inner `catch` around `ffmpeg.load`. */
  function CoreLoadErrorMessage(e: JsError): string
  {
    if e.message != "" && Includes(e.message, "fetch") then DownloadFailedText
    else if e.message != "" && Includes(e.message, "SharedArrayBuffer") then NoSharedMemoryText
    else LoadFailedText
  }

  /** The outer `catch` of `loadFFmpeg`: messages starting with "Failed to"
      are kept, anything else becomes the generic loading text. */
  function OuterLoadErrorMessage(m: string): string
  {
    if m != "" && StartsWith(m, "Failed to") then m else LoadGenericText
  }

  /** The message of the error `loadFFmpeg` throws when `ffmpeg.load` fails:
      a download failure keeps its own text; the SharedArrayBuffer text does
      not start with "Failed to", so the outer catch replaces it; everything
      else is the generic load failure. */
  function LoadErrorMessage(e: JsError): (m: string)
    ensures e.message != "" && Includes(e.message, "fetch") ==> m == DownloadFailedText
    ensures e.message != "" && !Includes(e.message, "fetch") && Includes(e.message, "SharedArrayBuffer")
            ==> m == LoadGenericText
    ensures (e.message == "" || (!Includes(e.message, "fetch") && !Includes(e.message, "SharedArrayBuffer")))
            ==> m == LoadFailedText
    ensures m != NoSharedMemoryText
  {
    StartsWithPrefix("Failed to", " download FFmpeg files. Please check your internet connection and try again.");
    StartsWithPrefix("Failed to", " load FFmpeg. Please " + "refresh the page" + " and try again.");
    assert LoadFailedText == "Failed to" + (" load FFmpeg. Please " + "refresh the page" + " and try again.");
    NotStartsWithFirstChar(NoSharedMemoryText, "Failed to");
    assert LoadGenericText[0] == 'S';
    OuterLoadErrorMessage(CoreLoadErrorMessage(e))
  }

  /** Every message `loadFFmpeg` throws is one of three texts, each of which
      tells the user what to do: two start with "Failed to", and the generic
      one asks for a page refresh. */
  lemma LoadErrorMessageRange(e: JsError)
    ensures LoadErrorMessage(e) in {DownloadFailedText, LoadFailedText, LoadGenericText}
    ensures StartsWith(LoadErrorMessage(e), "Failed to") || Includes(LoadErrorMessage(e), "refresh the page")
  {
    StartsWithPrefix("Failed to", " download FFmpeg files. Please check your internet connection and try again.");
    StartsWithPrefix("Failed to", " load FFmpeg. Please " + "refresh the page" + " and try again.");
    assert LoadFailedText == "Failed to" + (" load FFmpeg. Please " + "refresh the page" + " and try again.");
    IncludesMiddle("Something" + " went wrong while loading FFmpeg. Please ", "refresh the page", " and try again.");
  }

  // ---------------------------------------------------------------------------
  // loadFFmpeg, split at its `await`

  /** What `loadFFmpeg` does before it awaits: reuse the loaded instance, or
      construct a new one and store it at once. */
  datatype LoadStart = Reuse(id: nat) | Construct(id: nat)

  function BeginLoad(s: EngineState): (r: (EngineState, LoadStart))
    ensures s.isLoaded && s.instance.Some? ==> r == (s, Reuse(s.instance.value))
    ensures !(s.isLoaded && s.instance.Some?) ==>
              && r.1 == Construct(s.nextId)
              && r.0 == s.(instance := Some(s.nextId), nextId := s.nextId + 1)
  {
    if s.isLoaded && s.instance.Some? then (s, Reuse(s.instance.value))
    else (s.(instance := Some(s.nextId), nextId := s.nextId + 1), Construct(s.nextId))
  }

  datatype LoadResult = Loaded(id: nat) | LoadFailed(message: string)

  /** What `loadFFmpeg` does once `ffmpeg.load` settles. `isLoaded` becomes
      true only here, and only when the load succeeded; a failed load leaves
      the new instance stored. */
  function FinishLoad(s: EngineState, start: LoadStart, load: Attempt, terminatedError: JsError)
    : (r: (EngineState, LoadResult))
    ensures start.Reuse? ==> r == (s, Loaded(start.id))
    ensures start.Construct? && Perform(s, start.id, load, terminatedError).Succeeds? ==>
              r == (s.(isLoaded := true), Loaded(start.id))
    ensures start.Construct? && Perform(s, start.id, load, terminatedError).Throws? ==>
              r == (s, LoadFailed(LoadErrorMessage(Perform(s, start.id, load, terminatedError).error)))
  {
    match start
    case Reuse(id) => (s, Loaded(id))
    case Construct(id) =>
      match Perform(s, id, load, terminatedError)
      case Succeeds => (s.(isLoaded := true), Loaded(id))
      case Throws(e) => (s, LoadFailed(LoadErrorMessage(e)))
  }

  /** `loadFFmpeg` with nothing happening during its `await`. */
  function LoadFFmpeg(s: EngineState, load: Attempt, terminatedError: JsError): (r: (EngineState, LoadResult))
    requires Valid(s)
    ensures Valid(r.0)
    ensures s.isLoaded && s.instance.Some? ==> r == (s, Loaded(s.instance.value))
    ensures !(s.isLoaded && s.instance.Some?) ==>
              && r.0.instance == Some(s.nextId) && r.0.nextId == s.nextId + 1
              && (r.0.isLoaded <==> load.Succeeds?)
              && (r.1.Loaded? <==> load.Succeeds?)
              && (r.1.Loaded? ==> r.1.id == s.nextId)
  {
    var (s1, start) := BeginLoad(s);
    FinishLoad(s1, start, load, terminatedError)
  }

  // ---------------------------------------------------------------------------
  // Cancellation

  /** `createAbortController`: a fresh controller, held by the module. */
  function CreateAbortController(s: EngineState): (r: (EngineState, nat))
    requires Valid(s)
    ensures Valid(r.0)
    ensures r.0.controller == Some(r.1) && r.1 !in r.0.aborted
    ensures r.1 !in s.aborted && r.1 >= s.nextId
    ensures r.0.instance == s.instance && r.0.isLoaded == s.isLoaded && r.0.terminated == s.terminated
  {
    (s.(controller := Some(s.nextId), nextId := s.nextId + 1), s.nextId)
  }

  /** `cancelProcessing`: abort and drop the held controller, then terminate
      the instance. When `terminate()` throws, the warning is swallowed and
      the instance and loaded flag stay as they were. */
  function CancelProcessing(s: EngineState, terminateThrows: bool): (r: EngineState)
    requires Valid(s)
    ensures Valid(r)
    ensures r.controller.None?
    ensures s.controller.Some? ==> r.aborted == s.aborted + {s.controller.value}
    ensures s.controller.None? ==> r.aborted == s.aborted
    ensures !terminateThrows ==> r.instance.None? && !r.isLoaded
    ensures !terminateThrows && s.instance.Some? ==> r.terminated == s.terminated + {s.instance.value}
    ensures terminateThrows || s.instance.None? ==> r.terminated == s.terminated
    ensures terminateThrows ==> r.instance == s.instance && r.isLoaded == s.isLoaded
    ensures r.nextId == s.nextId
  {
    var s1 := if s.controller.Some?
              then s.(aborted := s.aborted + {s.controller.value}, controller := None)
              else s;
    if s1.instance.Some? && !terminateThrows
    then s1.(terminated := s1.terminated + {s1.instance.value}, instance := None, isLoaded := false)
    else s1
  }

  /** After a cancellation that terminated the engine, the next load builds a
      fresh instance, one never used before, instead of reusing the old one. */
  lemma CancelForcesFreshLoad(s: EngineState, load: Attempt, terminatedError: JsError)
    requires Valid(s)
    ensures var c := CancelProcessing(s, false);
            var (s', r) := LoadFFmpeg(c, load, terminatedError);
            && BeginLoad(c).1 == Construct(s.nextId)
            && (s.instance.Some? ==> s'.instance != s.instance)
            && s'.instance == Some(s.nextId)
            && s.nextId !in s'.terminated
  {
  }

  /** Cancelling twice is cancelling once, when termination goes through. */
  lemma CancelIdempotent(s: EngineState)
    requires Valid(s)
    ensures CancelProcessing(CancelProcessing(s, false), false) == CancelProcessing(s, false)
  {
  }

  /** The signal of a freshly created controller is aborted by the next
      cancellation, and not before. */
  lemma CreateThenCancelAborts(s: EngineState, terminateThrows: bool)
    requires Valid(s)
    ensures var (s1, c) := CreateAbortController(s);
            !Aborted(s1, Some(c)) && Aborted(CancelProcessing(s1, terminateThrows), Some(c))
  {
  }
}
