/** The analytics helper of `src/utils/analytics.js`: `trackEvent` forwards an
    event to the page's tracker when it has loaded and queues it otherwise;
    `processQueuedEvents` later flushes the queue in order; the funnel
    helpers fix each action's (type, name) pair and shape its metadata. The
    browser window is a value: which tracker it holds, the queue, and the
    events the tracker has accepted so far. */
module Analytics {
  import opened Js

  type Metadata = map<string, JsValue>

  datatype Event = Event(eventType: string, eventName: string, metadata: Metadata)

  /** `window.la`: not there, there without a `track` function, or a tracker
      whose `track` throws `failure` for the events in `rejects` and accepts
      every other. */
  datatype Tracker = Absent | NoTrackFunction | Loaded(rejects: set<Event>, failure: JsError)

  /** The window as the helper sees it; an unset `_laQueue` is the empty queue. */
  datatype Window = Window(la: Tracker, queue: seq<Event>, delivered: seq<Event>)

  /** `typeof window.la.track === 'function'` */
  predicate CanTrack(w: Window)
  {
    w.la.Loaded?
  }

  /** `trackEvent`. Its `try` swallows whatever the tracker throws, so the
      result is a window and never an error. */
  function TrackEvent(w: Window, e: Event): (r: Window)
    ensures r.la == w.la
    ensures CanTrack(w) && e !in w.la.rejects ==> r == w.(delivered := w.delivered + [e])
    ensures CanTrack(w) && e in w.la.rejects ==> r == w
    ensures !CanTrack(w) ==> r == w.(queue := w.queue + [e])
  {
    if CanTrack(w) then
      if e in w.la.rejects then w else w.(delivered := w.delivered + [e])
    else w.(queue := w.queue + [e])
  }

  /** Several `trackEvent` calls in a row. */
  function TrackAll(w: Window, es: seq<Event>): Window
    decreases |es|
  {
    if |es| == 0 then w else TrackAll(TrackEvent(w, es[0]), es[1..])
  }

  /** Without a tracker, events pile up at the end of the queue in the order
      they were tracked and nothing reaches a tracker. */
  lemma {:induction false} TrackAllQueues(w: Window, es: seq<Event>)
    requires !CanTrack(w)
    ensures TrackAll(w, es) == w.(queue := w.queue + es)
    decreases |es|
  {
    if |es| > 0 {
      TrackAllQueues(TrackEvent(w, es[0]), es[1..]);
      assert w.queue + [es[0]] + es[1..] == w.queue + es;
    }
  }

  /** With a tracker that accepts them, events are delivered in order and the
      queue is left alone. */
  lemma {:induction false} TrackAllDelivers(w: Window, es: seq<Event>)
    requires CanTrack(w)
    requires forall i :: 0 <= i < |es| ==> es[i] !in w.la.rejects
    ensures TrackAll(w, es) == w.(delivered := w.delivered + es)
    decreases |es|
  {
    if |es| > 0 {
      TrackAllDelivers(TrackEvent(w, es[0]), es[1..]);
      assert w.delivered + [es[0]] + es[1..] == w.delivered + es;
    }
  }

  const NotAFunction := JsError("TypeError", "window.la.track is not a function")

  /** `processQueuedEvents`. It runs only with `window.la` present and a
      non-empty queue, and has no `try`: a throwing `track` leaves the events
      before it delivered, the queue as it was, and the error propagates. */
  method ProcessQueuedEvents(w: Window) returns (r: Window, thrown: Option<JsError>)
    ensures r.la == w.la
    ensures |w.queue| == 0 || w.la.Absent? ==> r == w && thrown.None?
    ensures |w.queue| > 0 && w.la.NoTrackFunction? ==> r == w && thrown == Some(NotAFunction)
    ensures |w.queue| > 0 && CanTrack(w) ==>
              (thrown.Some? <==> exists i :: 0 <= i < |w.queue| && w.queue[i] in w.la.rejects)
    ensures |w.queue| > 0 && CanTrack(w) && thrown.None? ==>
              r == w.(queue := [], delivered := w.delivered + w.queue)
    ensures |w.queue| > 0 && CanTrack(w) && thrown.Some? ==>
              thrown == Some(w.la.failure)
              && exists k :: 0 <= k < |w.queue| && w.queue[k] in w.la.rejects
                             && (forall i :: 0 <= i < k ==> w.queue[i] !in w.la.rejects)
                             && r == w.(delivered := w.delivered + w.queue[..k])
  {
    r, thrown := w, None;
    if |w.queue| == 0 || w.la.Absent? {
      return;
    }
    if w.la.NoTrackFunction? {
      thrown := Some(NotAFunction);
      return;
    }
    var i := 0;
    while i < |w.queue|
      invariant 0 <= i <= |w.queue|
      invariant r == w.(delivered := w.delivered + w.queue[..i])
      invariant forall j :: 0 <= j < i ==> w.queue[j] !in w.la.rejects
    {
      if w.queue[i] in w.la.rejects {
        thrown := Some(w.la.failure);
        return;
      }
      assert w.queue[..i + 1] == w.queue[..i] + [w.queue[i]];
      r := r.(delivered := r.delivered + [w.queue[i]]);
      i := i + 1;
    }
    assert w.queue[..i] == w.queue;
    r := r.(queue := []);
  }

  /** One tick of the polling set up at load time: once `track` is a
      function, flush the queue and stop polling. `clearInterval` comes after
      the flush, so a flush that throws leaves the polling running. */
  method PollTracker(w: Window) returns (r: Window, stop: bool, thrown: Option<JsError>)
    ensures r.la == w.la
    ensures !CanTrack(w) ==> r == w && !stop && thrown.None?
    ensures CanTrack(w) ==> (stop <==> thrown.None?)
    ensures CanTrack(w) ==> (stop <==> forall i :: 0 <= i < |w.queue| ==> w.queue[i] !in w.la.rejects)
    ensures stop ==> r.queue == [] && r.delivered == w.delivered + w.queue
  {
    r, stop, thrown := w, false, None;
    if CanTrack(w) {
      r, thrown := ProcessQueuedEvents(w);
      stop := thrown.None?;
    }
  }

  /** Events tracked before the tracker loads end up delivered exactly as if
      the tracker had been there from the start: same events, same order. */
  method TrackThenLoad(delivered: seq<Event>, es: seq<Event>, tracker: Tracker) returns (r: Window)
    requires tracker.Loaded?
    requires forall i :: 0 <= i < |es| ==> es[i] !in tracker.rejects
    ensures r == TrackAll(Window(tracker, [], delivered), es)
    ensures r.delivered == delivered + es && r.queue == []
  {
    var early := TrackAll(Window(Absent, [], delivered), es);
    TrackAllQueues(Window(Absent, [], delivered), es);
    TrackAllDelivers(Window(tracker, [], delivered), es);
    var stop, thrown;
    r, stop, thrown := PollTracker(early.(la := tracker));
  }

  // ---------------------------------------------------------------------------
  // The funnel helpers

  /** `Math.round(bytes / 1024)`. */
  function SizeKb(bytes: nat): int
  {
    MathRound(bytes as real / 1024.0)
  }

  /** For a byte count, rounding to kilobytes is integer arithmetic: add half
      a kilobyte and divide. */
  lemma SizeKbIsIntegerRounding(bytes: nat)
    ensures SizeKb(bytes) == (bytes + 512) / 1024
  {
    var q := (bytes + 512) / 1024;
    var r := SizeKb(bytes);
    assert 1024 * q <= bytes + 512 < 1024 * q + 1024;
    assert (1024 * q) as real <= bytes as real + 512.0 < (1024 * q) as real + 1024.0;
    assert q as real - 0.5 <= bytes as real / 1024.0 < q as real + 0.5;
    assert r as real - 0.5 <= bytes as real / 1024.0 < r as real + 0.5;
  }

  /** The actions the page reports, one per exported helper. */
  datatype Action =
    | ImageUpload(fileType: string, fileSize: nat)
    | AudioUpload(fileType: string, fileSize: nat)
    | QualityChange(quality: string)
    | ProcessStart(options: Metadata)
    | ProcessComplete(processingTime: JsValue, quality: string)
    | ProcessError(errorMessage: Option<string>)
    | ProcessCancel
    | Download
    | Reset
    | ThemeToggle(theme: string)

  const MaxErrorLength := 100

  /** `errorMessage?.substring(0, 100)` */
  function ErrorExcerpt(m: Option<string>): (v: JsValue)
    ensures m.None? ==> v == Undefined
    ensures m.Some? ==> v.Str? && |v.s| <= MaxErrorLength && StartsWith(m.value, v.s)
    ensures m.Some? && |m.value| <= MaxErrorLength ==> v == Str(m.value)
    ensures m.Some? && |m.value| > MaxErrorLength ==> |v.s| == MaxErrorLength
  {
    match m
    case None => Undefined
    case Some(s) => Str(Prefix(s, MaxErrorLength))
  }

  /** The event each helper hands to `trackEvent`. */
  function EventFor(a: Action): Event
  {
    match a
    case ImageUpload(t, n) =>
      Event("upload", "image_upload", map["file_type" := Str(t), "file_size_kb" := Num(SizeKb(n))])
    case AudioUpload(t, n) =>
      Event("upload", "audio_upload", map["file_type" := Str(t), "file_size_kb" := Num(SizeKb(n))])
    case QualityChange(q) => Event("click", "quality_select", map["quality" := Str(q)])
    case ProcessStart(options) => Event("click", "process_start", options)
    case ProcessComplete(t, q) =>
      Event("process", "process_complete", map["processing_time_sec" := t, "quality" := Str(q)])
    case ProcessError(m) => Event("error", "process_error", map["error_message" := ErrorExcerpt(m)])
    case ProcessCancel => Event("click", "process_cancel", map[])
    case Download => Event("click", "video_download", map[])
    case Reset => Event("click", "create_another", map[])
    case ThemeToggle(theme) => Event("click", "theme_toggle", map["theme" := Str(theme)])
  }

  /** The kind of action, forgetting its arguments. */
  function Kind(a: Action): nat
  {
    match a
    case ImageUpload(_, _) => 0
    case AudioUpload(_, _) => 1
    case QualityChange(_) => 2
    case ProcessStart(_) => 3
    case ProcessComplete(_, _) => 4
    case ProcessError(_) => 5
    case ProcessCancel => 6
    case Download => 7
    case Reset => 8
    case ThemeToggle(_) => 9
  }

  /** Each helper always emits the same (type, name) pair whatever its
      arguments, and the name alone tells the helpers apart. */
  lemma EventNameIdentifiesAction(a: Action, b: Action)
    ensures EventFor(a).eventName == EventFor(b).eventName <==> Kind(a) == Kind(b)
    ensures Kind(a) == Kind(b) ==> EventFor(a).eventType == EventFor(b).eventType
  {
    var na, nb := EventFor(a).eventName, EventFor(b).eventName;
    if Kind(a) != Kind(b) {
      assert na[0] != nb[0] || na[|na| - 1] != nb[|nb| - 1] || na[1] != nb[1] || |na| != |nb|;
    }
  }

  /** The upload events report the size in whole kilobytes, rounded to the
      nearest, and the error event at most 100 characters of the message. */
  lemma MetadataShape(a: Action)
    ensures a.ImageUpload? || a.AudioUpload? ==>
              EventFor(a).metadata["file_size_kb"] == Num((a.fileSize + 512) / 1024)
    ensures a.ProcessError? && a.errorMessage.Some? ==>
              var v := EventFor(a).metadata["error_message"];
              v.Str? && |v.s| <= MaxErrorLength && StartsWith(a.errorMessage.value, v.s)
  {
    if a.ImageUpload? || a.AudioUpload? {
      SizeKbIsIntegerRounding(a.fileSize);
    }
  }
}
