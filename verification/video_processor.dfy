/** `processVideo`: validation, then inside the `try` the load, the four
    cooperative abort checkpoints, the writes, the `exec` with the argument
    list, the read, the best-effort cleanup, and the `catch` that rewrites
    every failure. The engine is an oracle: each call's outcome, the progress
    values it reports and the bytes it produces are given, as is the await at
    which the user's cancellation (`cancelProcessing`) lands, if at all. */
module VideoProcessor {
  import opened Js
  import opened Engine
  import FC = FfmpegCommand
  import IV = InputValidation
  import PE = ProcessingErrors

  /** The await during which `cancelProcessing` runs. */
  datatype Stage = NoCancel | DuringLoad | DuringWrite | DuringExec | DuringRead | DuringCleanup

  /** Everything the engine and the user decide during one run. A terminated
      instance ignores the attempts given here and rejects with
      `terminatedError`. */
  datatype Oracle = Oracle(
    load: Attempt,
    writeImage: Attempt,
    writeAudio: Attempt,
    exec: Attempt,
    progress: seq<Option<real>>,
    read: Attempt,
    output: seq<bv8>,
    deleteImage: Attempt,
    deleteAudio: Attempt,
    deleteOutput: Attempt,
    cancelDuring: Stage,
    terminateThrows: bool,
    terminatedError: JsError)

  /** The calls made on engine instances, in the order they are made. */
  datatype EngineCall =
    | NewInstance(id: nat)
    | LoadCore(id: nat)
    | WriteFile(id: nat, name: string)
    | Exec(id: nat, args: seq<string>)
    | ReadFile(id: nat, name: string)
    | DeleteFile(id: nat, name: string)
    | Terminate(id: nat)

  datatype Blob = Blob(data: seq<bv8>, mimeType: string)

  /** How the promise settles. */
  datatype Outcome = Resolved(blob: Blob) | Rejected(error: JsError)

  /** One run: the module state afterwards, the outcome, the engine calls and
      the values passed to `onProgress`. */
  datatype Run = Run(state: EngineState, outcome: Outcome, calls: seq<EngineCall>, progress: seq<real>)

  /** `new Error(message)` */
  function NewError(message: string): JsError
  {
    JsError("Error", message)
  }

  /** The error each checkpoint throws. */
  const Cancelled := NewError(PE.CancelledText)

  predicate Executes(r: Run)
  {
    exists c :: c in r.calls && c.Exec?
  }

  predicate CleansUp(r: Run)
  {
    exists c :: c in r.calls && c.DeleteFile?
  }

  predicate Constructs(r: Run)
  {
    exists c :: c in r.calls && c.NewInstance?
  }

  // ---------------------------------------------------------------------------
  // Pieces of the run

  /** What the progress listener forwards: the defined values, in order. */
  function Defined(ps: seq<Option<real>>): (r: seq<real>)
    ensures |r| <= |ps|
    ensures forall x :: x in r <==> Some(x) in ps
  {
    if |ps| == 0 then []
    else
      var rest := Defined(ps[..|ps| - 1]);
      assert ps == ps[..|ps| - 1] + [ps[|ps| - 1]];
      match ps[|ps| - 1]
      case None => rest
      case Some(x) => rest + [x]
  }

  /** Forwarding distributes over a run of events split in two. */
  lemma {:induction false} DefinedAppend(a: seq<Option<real>>, b: seq<Option<real>>)
    ensures Defined(a + b) == Defined(a) + Defined(b)
    decreases |b|
  {
    if |b| == 0 {
      assert a + b == a;
    } else {
      var b' := b[..|b| - 1];
      assert (a + b)[..|a + b| - 1] == a + b';
      assert (a + b)[|a + b| - 1] == b[|b| - 1];
      DefinedAppend(a, b');
    }
  }

  /** `cancelProcessing`, if it lands at this stage; a held instance is asked
      to terminate. */
  function CancelAt(s: EngineState, o: Oracle, here: Stage): (r: (EngineState, seq<EngineCall>))
    requires Valid(s)
    ensures Valid(r.0)
    ensures o.cancelDuring != here ==> r == (s, [])
    ensures o.cancelDuring == here ==> r.0 == CancelProcessing(s, o.terminateThrows)
    ensures forall c | c in r.1 :: c.Terminate?
  {
    if o.cancelDuring != here then (s, [])
    else (CancelProcessing(s, o.terminateThrows),
          if s.instance.Some? then [Terminate(s.instance.value)] else [])
  }

  /** The argument list `processVideo` hands to `exec`. */
  function CommandFor(w: FC.Workspace, quality: string): seq<string>
  {
    FC.BuildArgs(w.isGif, w.imageName, w.audioName, FC.SettingsFor(quality))
  }

  /** The three `deleteFile` calls; the first that throws ends the cleanup
      and its error is swallowed. */
  function Cleanup(s: EngineState, id: nat, w: FC.Workspace, o: Oracle): (calls: seq<EngineCall>)
    ensures 1 <= |calls| <= 3
    ensures calls[0] == DeleteFile(id, w.imageName)
    ensures |calls| >= 2 <==> Perform(s, id, o.deleteImage, o.terminatedError).Succeeds?
    ensures |calls| >= 2 ==> calls[1] == DeleteFile(id, w.audioName)
    ensures |calls| == 3 <==> |calls| >= 2 && Perform(s, id, o.deleteAudio, o.terminatedError).Succeeds?
    ensures |calls| == 3 ==> calls[2] == DeleteFile(id, w.outputName)
    ensures forall c | c in calls :: c.DeleteFile? && c.id == id
  {
    var te := o.terminatedError;
    [DeleteFile(id, w.imageName)]
    + if Perform(s, id, o.deleteImage, te).Throws? then []
      else [DeleteFile(id, w.audioName)]
           + if Perform(s, id, o.deleteAudio, te).Throws? then []
             else [DeleteFile(id, w.outputName)]
  }

  /** From `readFile` to the resolved blob. */
  function FromRead(s: EngineState, id: nat, w: FC.Workspace, o: Oracle): (r: Run)
    requires Valid(s)
    ensures Valid(r.state)
    ensures |r.calls| > 0 && r.calls[0] == ReadFile(id, FC.OutputName)
    ensures r.progress == []
    ensures forall c | c in r.calls :: c.ReadFile? || c.DeleteFile? || c.Terminate?
    ensures r.outcome.Resolved? <==> exists c | c in r.calls :: c.DeleteFile?
    ensures r.outcome.Resolved? ==> r.outcome.blob == Blob(o.output, "video/mp4")
    ensures o.cancelDuring != DuringRead && Perform(s, id, o.read, o.terminatedError).Succeeds? ==>
              r.outcome == Resolved(Blob(o.output, "video/mp4"))
  {
    var te := o.terminatedError;
    var (s1, t1) := CancelAt(s, o, DuringRead);
    var calls1 := [ReadFile(id, FC.OutputName)] + t1;
    match Perform(s1, id, o.read, te)
    case Throws(e) => Run(s1, Rejected(e), calls1, [])
    case Succeeds =>
      var (s2, t2) := CancelAt(s1, o, DuringCleanup);
      var cleanup := Cleanup(s2, id, w, o);
      assert DeleteFile(id, w.imageName) in cleanup;
      Run(s2, Resolved(Blob(o.output, "video/mp4")), calls1 + [cleanup[0]] + t2 + cleanup[1..], [])
  }

  /** From `exec` to the resolved blob. Abort is not checked again: a late
      cancellation acts only through the engine calls it makes fail. */
  function FromExec(s: EngineState, id: nat, w: FC.Workspace, quality: string, onProgress: bool, o: Oracle)
    : (r: Run)
    requires Valid(s)
    ensures Valid(r.state)
    ensures |r.calls| > 0 && r.calls[0] == Exec(id, CommandFor(w, quality))
    ensures r.progress == if onProgress then Defined(o.progress) else []
    ensures forall c | c in r.calls :: !c.NewInstance? && !c.LoadCore? && !c.WriteFile?
    ensures r.outcome.Resolved? <==> exists c | c in r.calls :: c.DeleteFile?
    ensures r.outcome.Resolved? ==>
              r.outcome.blob == Blob(o.output, "video/mp4") && ReadFile(id, FC.OutputName) in r.calls
    ensures o.cancelDuring == DuringExec && !o.terminateThrows && s.instance == Some(id) ==>
              r.outcome.Rejected? && r.state.instance.None? && !r.state.isLoaded
  {
    var (s1, t1) := CancelAt(s, o, DuringExec);
    var calls1 := [Exec(id, CommandFor(w, quality))] + t1;
    var progress := if onProgress then Defined(o.progress) else [];
    match Perform(s1, id, o.exec, o.terminatedError)
    case Throws(e) => Run(s1, Rejected(e), calls1, progress)
    case Succeeds =>
      var rest := FromRead(s1, id, w, o);
      rest.(calls := calls1 + rest.calls, progress := progress)
  }

  /** From checkpoint 144 to the end of the `try`: progress 0.1, the
      workspace names, the two writes, checkpoint 182 and the rest. Checkpoint
      172 is not separate: nothing is awaited between it and checkpoint 144,
      so it sees the same signal. */
  function FromLoaded(s: EngineState, id: nat, image: IV.FileInfo, audio: IV.FileInfo, quality: string,
                      onProgress: bool, signal: Option<nat>, o: Oracle): (r: Run)
    requires Valid(s)
    ensures Valid(r.state)
    ensures Aborted(s, signal) ==> r == Run(s, Rejected(Cancelled), [], [])
    ensures forall c | c in r.calls :: !c.NewInstance? && !c.LoadCore?
    ensures r.outcome.Resolved? <==> exists c | c in r.calls :: c.DeleteFile?
    ensures r.outcome.Resolved? ==>
              && r.outcome.blob == Blob(o.output, "video/mp4")
              && var w := FC.WorkspaceFor(image.name, image.mimeType, audio.name);
              && WriteFile(id, w.imageName) in r.calls && WriteFile(id, w.audioName) in r.calls
              && Exec(id, CommandFor(w, quality)) in r.calls && ReadFile(id, FC.OutputName) in r.calls
    ensures !onProgress ==> r.progress == []
    ensures onProgress && r.outcome.Resolved? ==> r.progress == [0.1] + Defined(o.progress)
    ensures o.cancelDuring == DuringWrite && s.controller.Some? && signal == s.controller ==>
              r.outcome.Rejected? && forall c | c in r.calls :: !c.Exec?
    ensures o.cancelDuring == DuringExec && !o.terminateThrows && s.instance == Some(id) ==>
              && r.outcome.Rejected?
              && ((exists c | c in r.calls :: c.Exec?) ==> r.state.instance.None? && !r.state.isLoaded)
  {
    var te := o.terminatedError;
    if Aborted(s, signal) then Run(s, Rejected(Cancelled), [], [])
    else
      var progress := if onProgress then [0.1] else [];
      var w := FC.WorkspaceFor(image.name, image.mimeType, audio.name);
      var (s1, t1) := CancelAt(s, o, DuringWrite);
      var calls1 := [WriteFile(id, w.imageName)] + t1;
      match Perform(s1, id, o.writeImage, te)
      case Throws(e) => Run(s1, Rejected(e), calls1, progress)
      case Succeeds =>
        var calls2 := calls1 + [WriteFile(id, w.audioName)];
        match Perform(s1, id, o.writeAudio, te)
        case Throws(e) => Run(s1, Rejected(e), calls2, progress)
        case Succeeds =>
          if Aborted(s1, signal) then Run(s1, Rejected(Cancelled), calls2, progress)
          else
            var rest := FromExec(s1, id, w, quality, onProgress, o);
            rest.(calls := calls2 + rest.calls, progress := progress + rest.progress)
  }

  /** Past checkpoint 144 the run always reports 0.1 first and writes the
      image first; the audio is written next unless the image write failed. */
  lemma FromLoadedBegins(s: EngineState, id: nat, image: IV.FileInfo, audio: IV.FileInfo, quality: string,
                         onProgress: bool, signal: Option<nat>, o: Oracle)
    requires Valid(s) && !Aborted(s, signal)
    ensures var r := FromLoaded(s, id, image, audio, quality, onProgress, signal, o);
            var w := FC.WorkspaceFor(image.name, image.mimeType, audio.name);
            && (onProgress ==> |r.progress| > 0 && r.progress[0] == 0.1)
            && |r.calls| > 0 && r.calls[0] == WriteFile(id, w.imageName)
            && (o.cancelDuring != DuringWrite && Perform(s, id, o.writeImage, o.terminatedError).Succeeds? ==>
                  |r.calls| > 1 && r.calls[1] == WriteFile(id, w.audioName))
  {
    var r := FromLoaded(s, id, image, audio, quality, onProgress, signal, o);
    var w := FC.WorkspaceFor(image.name, image.mimeType, audio.name);
    var progress := if onProgress then [0.1] else [];
    var (s1, t1) := CancelAt(s, o, DuringWrite);
    var calls2 := [WriteFile(id, w.imageName)] + t1 + [WriteFile(id, w.audioName)];
    if Perform(s1, id, o.writeImage, o.terminatedError).Succeeds?
       && Perform(s1, id, o.writeAudio, o.terminatedError).Succeeds? && !Aborted(s1, signal) {
      var rest := FromExec(s1, id, w, quality, onProgress, o);
      assert r.calls == calls2 + rest.calls && r.progress == progress + rest.progress;
      assert r.calls[0] == calls2[0];
      assert o.cancelDuring != DuringWrite ==> r.calls[1] == calls2[1];
    }
  }

  /** `await loadFFmpeg()` inside the `try`, with a cancellation possibly
      landing while the load is awaited: the state after it, the engine calls
      it made, and what it returned. */
  function LoadStage(s: EngineState, o: Oracle): (r: (EngineState, seq<EngineCall>, LoadResult))
    requires Valid(s)
    ensures Valid(r.0)
    ensures forall c | c in r.1 :: c.NewInstance? || c.LoadCore? || c.Terminate?
    ensures s.isLoaded ==> forall c | c in r.1 :: !c.NewInstance?
    ensures o.cancelDuring == DuringLoad && s.controller.Some? ==> Aborted(r.0, s.controller)
    ensures o.cancelDuring != DuringLoad ==> r.0.controller == s.controller && r.0.aborted == s.aborted
    ensures o.cancelDuring != DuringLoad && r.2.Loaded? ==> r.0.instance == Some(r.2.id)
    ensures !s.isLoaded && o.cancelDuring != DuringLoad && o.load.Throws? ==>
              && r.2 == LoadFailed(LoadErrorMessage(o.load.error))
              && r.1 == [NewInstance(s.nextId), LoadCore(s.nextId)]
              && r.0.instance == Some(s.nextId) && !r.0.isLoaded
  {
    var (s1, start) := BeginLoad(s);
    var begun := if start.Construct? then [NewInstance(start.id), LoadCore(start.id)] else [];
    var (s2, t) := CancelAt(s1, o, DuringLoad);
    var (s3, loaded) := FinishLoad(s2, start, o.load, o.terminatedError);
    (s3, begun + t, loaded)
  }

  /** The body of the `try`, with the error it throws left unclassified.
      What a run of it does is stated by the lemmas that follow. */
  function TryBody(s: EngineState, image: IV.FileInfo, audio: IV.FileInfo, quality: string,
                   onProgress: bool, signal: Option<nat>, o: Oracle): (r: Run)
    requires Valid(s)
    ensures Valid(r.state)
    ensures Aborted(s, signal) ==> r == Run(s, Rejected(Cancelled), [], [])
  {
    if Aborted(s, signal) then Run(s, Rejected(Cancelled), [], [])
    else
      var (s1, calls, loaded) := LoadStage(s, o);
      match loaded
      case LoadFailed(m) => Run(s1, Rejected(NewError(m)), calls, [])
      case Loaded(id) =>
        var rest := FromLoaded(s1, id, image, audio, quality, onProgress, signal, o);
        rest.(calls := calls + rest.calls)
  }

  /** Calls that delete nothing, put in front, change nothing about whether
      a run deleted a file. */
  lemma DeletesAfter(calls: seq<EngineCall>, more: seq<EngineCall>)
    requires forall c | c in calls :: !c.DeleteFile?
    ensures (exists c | c in calls + more :: c.DeleteFile?) <==> (exists c | c in more :: c.DeleteFile?)
  {
    if c :| c in more && c.DeleteFile? {
      assert c in calls + more;
    }
  }

  /** A loaded engine is reused: the run of the `try` constructs nothing. */
  lemma TryBodyReusesLoaded(s: EngineState, image: IV.FileInfo, audio: IV.FileInfo, quality: string,
                            onProgress: bool, signal: Option<nat>, o: Oracle)
    requires Valid(s) && s.isLoaded
    ensures forall c | c in TryBody(s, image, audio, quality, onProgress, signal, o).calls :: !c.NewInstance?
  {
    if !Aborted(s, signal) {
      var (s1, calls, loaded) := LoadStage(s, o);
      if loaded.Loaded? {
        var rest := FromLoaded(s1, loaded.id, image, audio, quality, onProgress, signal, o);
        assert TryBody(s, image, audio, quality, onProgress, signal, o) == rest.(calls := calls + rest.calls);
      }
    }
  }

  /** The run of the `try` deletes files exactly when it resolves. */
  lemma TryBodyCleansUpOnSuccess(s: EngineState, image: IV.FileInfo, audio: IV.FileInfo, quality: string,
                                 onProgress: bool, signal: Option<nat>, o: Oracle)
    requires Valid(s)
    ensures var r := TryBody(s, image, audio, quality, onProgress, signal, o);
            r.outcome.Resolved? <==> exists c | c in r.calls :: c.DeleteFile?
  {
    if !Aborted(s, signal) {
      if LoadStage(s, o).2.Loaded? {
        CleansUpAfterLoad(s, image, audio, quality, onProgress, signal, o);
      } else {
        var (s1, calls, loaded) := LoadStage(s, o);
        assert TryBody(s, image, audio, quality, onProgress, signal, o)
            == Run(s1, Rejected(NewError(loaded.message)), calls, []);
        assert forall c | c in calls :: !c.DeleteFile?;
      }
    }
  }

  /** The loaded case of `TryBodyCleansUpOnSuccess`: the load's calls delete
      nothing, so the rest of the run decides. */
  lemma CleansUpAfterLoad(s: EngineState, image: IV.FileInfo, audio: IV.FileInfo, quality: string,
                          onProgress: bool, signal: Option<nat>, o: Oracle)
    requires Valid(s) && !Aborted(s, signal) && LoadStage(s, o).2.Loaded?
    ensures var r := TryBody(s, image, audio, quality, onProgress, signal, o);
            r.outcome.Resolved? <==> exists c | c in r.calls :: c.DeleteFile?
  {
    var (s1, calls, loaded) := LoadStage(s, o);
    var rest := FromLoaded(s1, loaded.id, image, audio, quality, onProgress, signal, o);
    var r := rest.(calls := calls + rest.calls);
    assert TryBody(s, image, audio, quality, onProgress, signal, o) == r;
    assert r.outcome == rest.outcome;
    DeletesAfter(calls, rest.calls);
  }

  /** The `try` reports progress only through the callback: nothing without
      one, and on success 0.1 followed by the engine's defined values. */
  lemma TryBodyProgress(s: EngineState, image: IV.FileInfo, audio: IV.FileInfo, quality: string,
                        onProgress: bool, signal: Option<nat>, o: Oracle)
    requires Valid(s)
    ensures var r := TryBody(s, image, audio, quality, onProgress, signal, o);
            && (!onProgress ==> r.progress == [])
            && (onProgress && r.outcome.Resolved? ==> r.progress == [0.1] + Defined(o.progress))
  {
    if !Aborted(s, signal) {
      var (s1, calls, loaded) := LoadStage(s, o);
      if loaded.Loaded? {
        var rest := FromLoaded(s1, loaded.id, image, audio, quality, onProgress, signal, o);
        assert TryBody(s, image, audio, quality, onProgress, signal, o) == rest.(calls := calls + rest.calls);
      } else {
        assert TryBody(s, image, audio, quality, onProgress, signal, o)
            == Run(s1, Rejected(NewError(loaded.message)), calls, []);
      }
    }
  }

  /** A successful run of the `try` wrote both inputs, ran the command and
      read the output on one instance, and resolved with the bytes read. */
  lemma TryBodySuccess(s: EngineState, image: IV.FileInfo, audio: IV.FileInfo, quality: string,
                       onProgress: bool, signal: Option<nat>, o: Oracle)
    requires Valid(s)
    ensures var r := TryBody(s, image, audio, quality, onProgress, signal, o);
            var w := FC.WorkspaceFor(image.name, image.mimeType, audio.name);
            r.outcome.Resolved? ==>
              && r.outcome.blob == Blob(o.output, "video/mp4")
              && exists id ::
                   && WriteFile(id, w.imageName) in r.calls && WriteFile(id, w.audioName) in r.calls
                   && Exec(id, CommandFor(w, quality)) in r.calls && ReadFile(id, FC.OutputName) in r.calls
  {
    if !Aborted(s, signal) {
      var (s1, calls, loaded) := LoadStage(s, o);
      if loaded.Loaded? {
        var rest := FromLoaded(s1, loaded.id, image, audio, quality, onProgress, signal, o);
        var r := rest.(calls := calls + rest.calls);
        assert TryBody(s, image, audio, quality, onProgress, signal, o) == r;
        if r.outcome.Resolved? {
          var w := FC.WorkspaceFor(image.name, image.mimeType, audio.name);
          var id := loaded.id;
          assert WriteFile(id, w.imageName) in rest.calls && WriteFile(id, w.audioName) in rest.calls;
          assert Exec(id, CommandFor(w, quality)) in rest.calls && ReadFile(id, FC.OutputName) in rest.calls;
          assert WriteFile(id, w.imageName) in r.calls && WriteFile(id, w.audioName) in r.calls;
          assert Exec(id, CommandFor(w, quality)) in r.calls && ReadFile(id, FC.OutputName) in r.calls;
        }
      }
    }
  }

  /** A cancellation during the load or the writes, with the run's own
      signal, rejects the run of the `try` before `exec`. */
  lemma TryBodyCancelBeforeExec(s: EngineState, image: IV.FileInfo, audio: IV.FileInfo, quality: string,
                                onProgress: bool, o: Oracle)
    requires Valid(s) && s.controller.Some?
    requires o.cancelDuring == DuringLoad || o.cancelDuring == DuringWrite
    ensures var r := TryBody(s, image, audio, quality, onProgress, s.controller, o);
            r.outcome.Rejected? && forall c | c in r.calls :: !c.Exec?
  {
    if !Aborted(s, s.controller) {
      var (s1, calls, loaded) := LoadStage(s, o);
      if loaded.Loaded? {
        var rest := FromLoaded(s1, loaded.id, image, audio, quality, onProgress, s.controller, o);
        assert TryBody(s, image, audio, quality, onProgress, s.controller, o) == rest.(calls := calls + rest.calls);
      }
    }
  }

  /** A failed load of a new instance ends the run of the `try` with the
      mapped load message, after constructing and loading that instance. */
  lemma TryBodyLoadFailure(s: EngineState, image: IV.FileInfo, audio: IV.FileInfo, quality: string,
                           onProgress: bool, signal: Option<nat>, o: Oracle)
    requires Valid(s) && !Aborted(s, signal) && !s.isLoaded && o.cancelDuring != DuringLoad && o.load.Throws?
    ensures var r := TryBody(s, image, audio, quality, onProgress, signal, o);
            && r.outcome == Rejected(NewError(LoadErrorMessage(o.load.error)))
            && r.calls == [NewInstance(s.nextId), LoadCore(s.nextId)]
            && r.state.instance == Some(s.nextId) && !r.state.isLoaded
  {
    var (s1, calls, loaded) := LoadStage(s, o);
    assert TryBody(s, image, audio, quality, onProgress, signal, o) == Run(s1, Rejected(NewError(loaded.message)), calls, []);
  }

  /** A terminating cancellation during `exec` rejects the run of the `try`;
      if `exec` was reached, no instance is left. */
  lemma TryBodyCancelDuringExec(s: EngineState, image: IV.FileInfo, audio: IV.FileInfo, quality: string,
                                onProgress: bool, signal: Option<nat>, o: Oracle)
    requires Valid(s) && o.cancelDuring == DuringExec && !o.terminateThrows
    ensures var r := TryBody(s, image, audio, quality, onProgress, signal, o);
            && r.outcome.Rejected?
            && ((exists c | c in r.calls :: c.Exec?) ==> r.state.instance.None? && !r.state.isLoaded)
  {
    if !Aborted(s, signal) {
      var (s1, calls, loaded) := LoadStage(s, o);
      if loaded.Loaded? {
        var rest := FromLoaded(s1, loaded.id, image, audio, quality, onProgress, signal, o);
        assert TryBody(s, image, audio, quality, onProgress, signal, o) == rest.(calls := calls + rest.calls);
      }
    }
  }

  /** `processVideo(imageFile, audioFile, quality, onProgress, signal)`. A
      validation failure is thrown before the `try`, so its message reaches
      the caller as written and the engine is not touched; every other
      failure is rewritten by the `catch`. */
  function ProcessVideo(s: EngineState, image: Option<IV.FileInfo>, audio: Option<IV.FileInfo>,
                        quality: string, onProgress: bool, signal: Option<nat>, o: Oracle): (r: Run)
    requires Valid(s)
    ensures Valid(r.state)
    ensures IV.Validate(image, audio).Some? ==>
              r == Run(s, Rejected(NewError(IV.Message(IV.Validate(image, audio).value))), [], [])
    ensures r.outcome.Rejected? ==> r.outcome.error.name == "Error" && |r.outcome.error.message| > 0
  {
    match IV.Validate(image, audio)
    case Some(v) => Run(s, Rejected(NewError(IV.Message(v))), [], [])
    case None =>
      var t := TryBody(s, image.value, audio.value, quality, onProgress, signal, o);
      match t.outcome
      case Resolved(_) => t
      case Rejected(e) => t.(outcome := Rejected(NewError(PE.ClassifyProcessingError(e))))
  }

  /** The run of the `try` that `ProcessVideo` settles, for inputs that pass
      validation; only the outcome of a failure differs. */
  lemma ProcessVideoIsTryBody(s: EngineState, image: IV.FileInfo, audio: IV.FileInfo,
                              quality: string, onProgress: bool, signal: Option<nat>, o: Oracle)
    requires Valid(s) && IV.Acceptable(Some(image), Some(audio))
    ensures var r := ProcessVideo(s, Some(image), Some(audio), quality, onProgress, signal, o);
            var t := TryBody(s, image, audio, quality, onProgress, signal, o);
            && r.state == t.state && r.calls == t.calls && r.progress == t.progress
            && (t.outcome.Resolved? ==> r.outcome == t.outcome)
            && (t.outcome.Rejected? ==> r.outcome == Rejected(NewError(PE.ClassifyProcessingError(t.outcome.error))))
  {
  }

  /** A run resolves only for inputs that pass validation, and then with the
      bytes the engine wrote; progress is reported only when asked for. */
  lemma ResolvedOnlyWhenAcceptable(s: EngineState, image: Option<IV.FileInfo>, audio: Option<IV.FileInfo>,
                                   quality: string, onProgress: bool, signal: Option<nat>, o: Oracle)
    requires Valid(s)
    ensures var r := ProcessVideo(s, image, audio, quality, onProgress, signal, o);
            && (r.outcome.Resolved? ==> IV.Acceptable(image, audio) && r.outcome.blob == Blob(o.output, "video/mp4"))
            && (!onProgress ==> r.progress == [])
  {
    if IV.Validate(image, audio).None? {
      ProcessVideoIsTryBody(s, image.value, audio.value, quality, onProgress, signal, o);
      TryBodySuccess(s, image.value, audio.value, quality, onProgress, signal, o);
      TryBodyProgress(s, image.value, audio.value, quality, onProgress, signal, o);
    }
  }

  // ---------------------------------------------------------------------------
  // Late cancellation, stage by stage

  /** A stage after `exec` has begun. */
  predicate LateStage(o: Oracle)
  {
    o.cancelDuring == DuringExec || o.cancelDuring == DuringRead || o.cancelDuring == DuringCleanup
  }

  /** A late cancellation that cannot reach the engine: either `terminate()`
      threw, or the work it could stop is already done. */
  predicate HarmlessLateCancel(o: Oracle)
  {
    LateStage(o) && (o.terminateThrows || o.cancelDuring == DuringCleanup)
  }

  lemma LateCancelFromExec(s: EngineState, id: nat, w: FC.Workspace, quality: string, onProgress: bool, o: Oracle)
    requires Valid(s) && HarmlessLateCancel(o)
    ensures FromExec(s, id, w, quality, onProgress, o).outcome
            == FromExec(s, id, w, quality, onProgress, o.(cancelDuring := NoCancel)).outcome
  {
  }

  lemma LateCancelFromLoaded(s: EngineState, id: nat, image: IV.FileInfo, audio: IV.FileInfo, quality: string,
                             onProgress: bool, signal: Option<nat>, o: Oracle)
    requires Valid(s) && HarmlessLateCancel(o)
    ensures FromLoaded(s, id, image, audio, quality, onProgress, signal, o).outcome
            == FromLoaded(s, id, image, audio, quality, onProgress, signal, o.(cancelDuring := NoCancel)).outcome
  {
    var w := FC.WorkspaceFor(image.name, image.mimeType, audio.name);
    LateCancelFromExec(s, id, w, quality, onProgress, o);
  }

  lemma LateCancelTryBody(s: EngineState, image: IV.FileInfo, audio: IV.FileInfo, quality: string,
                          onProgress: bool, signal: Option<nat>, o: Oracle)
    requires Valid(s) && HarmlessLateCancel(o)
    ensures TryBody(s, image, audio, quality, onProgress, signal, o).outcome
            == TryBody(s, image, audio, quality, onProgress, signal, o.(cancelDuring := NoCancel)).outcome
  {
    if !Aborted(s, signal) {
      var (s1, calls, loaded) := LoadStage(s, o);
      if loaded.Loaded? {
        LateCancelFromLoaded(s1, loaded.id, image, audio, quality, onProgress, signal, o);
      }
    }
  }

  // ---------------------------------------------------------------------------
  // The run that succeeds, stage by stage

  /** Every engine call of the run succeeds, and nobody cancels. */
  predicate AllSucceed(o: Oracle)
  {
    && o.cancelDuring == NoCancel
    && o.load.Succeeds? && o.writeImage.Succeeds? && o.writeAudio.Succeeds?
    && o.exec.Succeeds? && o.read.Succeeds?
  }

  lemma HappyFromExec(s: EngineState, id: nat, w: FC.Workspace, quality: string, onProgress: bool, o: Oracle)
    requires Valid(s) && id !in s.terminated && AllSucceed(o)
    ensures FromExec(s, id, w, quality, onProgress, o).outcome == Resolved(Blob(o.output, "video/mp4"))
  {
    assert FromExec(s, id, w, quality, onProgress, o).outcome == FromRead(s, id, w, o).outcome;
  }

  lemma HappyFromLoaded(s: EngineState, id: nat, image: IV.FileInfo, audio: IV.FileInfo, quality: string,
                        onProgress: bool, signal: Option<nat>, o: Oracle)
    requires Valid(s) && id !in s.terminated && !Aborted(s, signal) && AllSucceed(o)
    ensures FromLoaded(s, id, image, audio, quality, onProgress, signal, o).outcome
            == Resolved(Blob(o.output, "video/mp4"))
  {
    var w := FC.WorkspaceFor(image.name, image.mimeType, audio.name);
    HappyFromExec(s, id, w, quality, onProgress, o);
    assert FromLoaded(s, id, image, audio, quality, onProgress, signal, o).outcome
        == FromExec(s, id, w, quality, onProgress, o).outcome;
  }

  /** Loading without a cancellation yields an instance that was never
      terminated, whether it is reused or new. */
  lemma HappyLoadStage(s: EngineState, o: Oracle)
    requires Valid(s) && AllSucceed(o)
    ensures var (s1, _, loaded) := LoadStage(s, o);
            && loaded.Loaded? && loaded.id !in s1.terminated && s1.aborted == s.aborted
  {
  }

  lemma HappyTryBody(s: EngineState, image: IV.FileInfo, audio: IV.FileInfo, quality: string,
                     onProgress: bool, signal: Option<nat>, o: Oracle)
    requires Valid(s) && !Aborted(s, signal) && AllSucceed(o)
    ensures TryBody(s, image, audio, quality, onProgress, signal, o).outcome == Resolved(Blob(o.output, "video/mp4"))
  {
    HappyLoadStage(s, o);
    var (s1, calls, loaded) := LoadStage(s, o);
    HappyFromLoaded(s1, loaded.id, image, audio, quality, onProgress, signal, o);
    assert TryBody(s, image, audio, quality, onProgress, signal, o).outcome
        == FromLoaded(s1, loaded.id, image, audio, quality, onProgress, signal, o).outcome;
  }

  // ---------------------------------------------------------------------------
  // Cleanup failures, stage by stage

  /** The same run with the three `deleteFile` attempts replaced. */
  function WithDeletes(o: Oracle, a1: Attempt, a2: Attempt, a3: Attempt): Oracle
  {
    o.(deleteImage := a1, deleteAudio := a2, deleteOutput := a3)
  }

  lemma SwallowedFromRead(s: EngineState, id: nat, w: FC.Workspace, o: Oracle, a1: Attempt, a2: Attempt, a3: Attempt)
    requires Valid(s)
    ensures var o' := WithDeletes(o, a1, a2, a3);
            FromRead(s, id, w, o).outcome == FromRead(s, id, w, o').outcome
            && FromRead(s, id, w, o).state == FromRead(s, id, w, o').state
  {
  }

  lemma SwallowedFromExec(s: EngineState, id: nat, w: FC.Workspace, quality: string, onProgress: bool, o: Oracle,
                          a1: Attempt, a2: Attempt, a3: Attempt)
    requires Valid(s)
    ensures var o' := WithDeletes(o, a1, a2, a3);
            FromExec(s, id, w, quality, onProgress, o).outcome == FromExec(s, id, w, quality, onProgress, o').outcome
            && FromExec(s, id, w, quality, onProgress, o).state == FromExec(s, id, w, quality, onProgress, o').state
  {
    var (s1, _) := CancelAt(s, o, DuringExec);
    SwallowedFromRead(s1, id, w, o, a1, a2, a3);
  }

  lemma SwallowedFromLoaded(s: EngineState, id: nat, image: IV.FileInfo, audio: IV.FileInfo, quality: string,
                            onProgress: bool, signal: Option<nat>, o: Oracle, a1: Attempt, a2: Attempt, a3: Attempt)
    requires Valid(s)
    ensures var o' := WithDeletes(o, a1, a2, a3);
            var r := FromLoaded(s, id, image, audio, quality, onProgress, signal, o);
            var r' := FromLoaded(s, id, image, audio, quality, onProgress, signal, o');
            r.outcome == r'.outcome && r.state == r'.state
  {
    var o' := WithDeletes(o, a1, a2, a3);
    var s1 := CancelAt(s, o, DuringWrite).0;
    assert CancelAt(s, o', DuringWrite) == CancelAt(s, o, DuringWrite);
    if !Aborted(s, signal) && Perform(s1, id, o.writeImage, o.terminatedError).Succeeds?
       && Perform(s1, id, o.writeAudio, o.terminatedError).Succeeds? && !Aborted(s1, signal) {
      SwallowedAfterWrites(s, id, image, audio, quality, onProgress, signal, o, a1, a2, a3);
    }
  }

  /** The case of `SwallowedFromLoaded` that reaches `exec`. */
  lemma SwallowedAfterWrites(s: EngineState, id: nat, image: IV.FileInfo, audio: IV.FileInfo, quality: string,
                             onProgress: bool, signal: Option<nat>, o: Oracle, a1: Attempt, a2: Attempt, a3: Attempt)
    requires Valid(s) && !Aborted(s, signal)
    requires var s1 := CancelAt(s, o, DuringWrite).0;
             && Perform(s1, id, o.writeImage, o.terminatedError).Succeeds?
             && Perform(s1, id, o.writeAudio, o.terminatedError).Succeeds? && !Aborted(s1, signal)
    ensures var o' := WithDeletes(o, a1, a2, a3);
            var r := FromLoaded(s, id, image, audio, quality, onProgress, signal, o);
            var r' := FromLoaded(s, id, image, audio, quality, onProgress, signal, o');
            r.outcome == r'.outcome && r.state == r'.state
  {
    var w := FC.WorkspaceFor(image.name, image.mimeType, audio.name);
    var o' := WithDeletes(o, a1, a2, a3);
    var s1 := CancelAt(s, o, DuringWrite).0;
    assert CancelAt(s, o', DuringWrite) == CancelAt(s, o, DuringWrite);
    SwallowedFromExec(s1, id, w, quality, onProgress, o, a1, a2, a3);
    var r := FromExec(s1, id, w, quality, onProgress, o);
    var r' := FromExec(s1, id, w, quality, onProgress, o');
    assert FromLoaded(s, id, image, audio, quality, onProgress, signal, o).outcome == r.outcome;
    assert FromLoaded(s, id, image, audio, quality, onProgress, signal, o').outcome == r'.outcome;
  }

  lemma SwallowedTryBody(s: EngineState, image: IV.FileInfo, audio: IV.FileInfo, quality: string,
                         onProgress: bool, signal: Option<nat>, o: Oracle, a1: Attempt, a2: Attempt, a3: Attempt)
    requires Valid(s)
    ensures var o' := WithDeletes(o, a1, a2, a3);
            var r := TryBody(s, image, audio, quality, onProgress, signal, o);
            var r' := TryBody(s, image, audio, quality, onProgress, signal, o');
            r.outcome == r'.outcome && r.state == r'.state
  {
    if !Aborted(s, signal) {
      var (s1, calls, loaded) := LoadStage(s, o);
      assert LoadStage(s, WithDeletes(o, a1, a2, a3)) == (s1, calls, loaded);
      if loaded.Loaded? {
        SwallowedFromLoaded(s1, loaded.id, image, audio, quality, onProgress, signal, o, a1, a2, a3);
      }
    }
  }

  // ---------------------------------------------------------------------------
  // Properties of a run

  /** With acceptable inputs, a live signal, no cancellation and every
      engine call succeeding, the run resolves with the bytes read as an MP4
      blob, and the progress is 0.1 followed by the engine's defined values. */
  lemma HappyPathResolves(s: EngineState, image: IV.FileInfo, audio: IV.FileInfo,
                          quality: string, onProgress: bool, signal: Option<nat>, o: Oracle)
    requires Valid(s) && IV.Acceptable(Some(image), Some(audio)) && !Aborted(s, signal) && AllSucceed(o)
    ensures var r := ProcessVideo(s, Some(image), Some(audio), quality, onProgress, signal, o);
            && r.outcome == Resolved(Blob(o.output, "video/mp4"))
            && r.progress == if onProgress then [0.1] + Defined(o.progress) else []
  {
    ProcessVideoIsTryBody(s, image, audio, quality, onProgress, signal, o);
    HappyTryBody(s, image, audio, quality, onProgress, signal, o);
    TryBodyProgress(s, image, audio, quality, onProgress, signal, o);
  }

  /** A `deleteFile` that throws is swallowed: whatever the three deletes do,
      the run settles the same way and leaves the same module state. */
  lemma CleanupFailureIsSwallowed(s: EngineState, image: Option<IV.FileInfo>, audio: Option<IV.FileInfo>,
                                  quality: string, onProgress: bool, signal: Option<nat>, o: Oracle,
                                  a1: Attempt, a2: Attempt, a3: Attempt)
    requires Valid(s)
    ensures var r := ProcessVideo(s, image, audio, quality, onProgress, signal, o);
            var r' := ProcessVideo(s, image, audio, quality, onProgress, signal, WithDeletes(o, a1, a2, a3));
            r.outcome == r'.outcome && r.state == r'.state
  {
    if IV.Validate(image, audio).None? {
      SwallowedTryBody(s, image.value, audio.value, quality, onProgress, signal, o, a1, a2, a3);
      ProcessVideoIsTryBody(s, image.value, audio.value, quality, onProgress, signal, o);
      ProcessVideoIsTryBody(s, image.value, audio.value, quality, onProgress, signal, WithDeletes(o, a1, a2, a3));
    }
  }

  /** A signal already aborted when the `try` is entered stops the run before
      `loadFFmpeg`: no engine call, no state change, and the caller sees the
      generic text, because the cancellation message is rewritten. */
  lemma AbortedBeforeStartTouchesNothing(s: EngineState, image: IV.FileInfo, audio: IV.FileInfo,
                                         quality: string, onProgress: bool, signal: Option<nat>, o: Oracle)
    requires Valid(s) && IV.Acceptable(Some(image), Some(audio)) && Aborted(s, signal)
    ensures ProcessVideo(s, Some(image), Some(audio), quality, onProgress, signal, o)
            == Run(s, Rejected(NewError(PE.GenericText)), [], [])
  {
    PE.CancelledMessageIsRewritten();
    ProcessVideoIsTryBody(s, image, audio, quality, onProgress, signal, o);
  }

  /** A loaded instance is reused: no instance is constructed. */
  lemma LoadedInstanceIsReused(s: EngineState, image: Option<IV.FileInfo>, audio: Option<IV.FileInfo>,
                               quality: string, onProgress: bool, signal: Option<nat>, o: Oracle)
    requires Valid(s) && s.isLoaded
    ensures !Constructs(ProcessVideo(s, image, audio, quality, onProgress, signal, o))
  {
    if IV.Validate(image, audio).None? {
      ProcessVideoIsTryBody(s, image.value, audio.value, quality, onProgress, signal, o);
      TryBodyReusesLoaded(s, image.value, audio.value, quality, onProgress, signal, o);
    }
  }

  /** On success the engine wrote both inputs, ran the argument list built
      from the workspace names and the quality row, and read the output file,
      all on one instance; the bytes come back as an MP4 blob. */
  lemma SuccessRanTheCommand(s: EngineState, image: IV.FileInfo, audio: IV.FileInfo,
                             quality: string, onProgress: bool, signal: Option<nat>, o: Oracle)
    requires Valid(s)
    ensures var r := ProcessVideo(s, Some(image), Some(audio), quality, onProgress, signal, o);
            var w := FC.WorkspaceFor(image.name, image.mimeType, audio.name);
            r.outcome.Resolved? ==>
              && r.outcome.blob == Blob(o.output, "video/mp4")
              && exists id ::
                   && WriteFile(id, w.imageName) in r.calls && WriteFile(id, w.audioName) in r.calls
                   && Exec(id, CommandFor(w, quality)) in r.calls && ReadFile(id, FC.OutputName) in r.calls
  {
    if IV.Validate(Some(image), Some(audio)).None? {
      ProcessVideoIsTryBody(s, image, audio, quality, onProgress, signal, o);
      TryBodySuccess(s, image, audio, quality, onProgress, signal, o);
    }
  }

  /** The virtual files are deleted exactly when the run succeeds: a failure
      after the writes leaves them in the engine's file area. */
  lemma CleanupOnlyOnSuccess(s: EngineState, image: Option<IV.FileInfo>, audio: Option<IV.FileInfo>,
                             quality: string, onProgress: bool, signal: Option<nat>, o: Oracle)
    requires Valid(s)
    ensures var r := ProcessVideo(s, image, audio, quality, onProgress, signal, o);
            CleansUp(r) <==> r.outcome.Resolved?
  {
    if IV.Validate(image, audio).None? {
      ProcessVideoIsTryBody(s, image.value, audio.value, quality, onProgress, signal, o);
      TryBodyCleansUpOnSuccess(s, image.value, audio.value, quality, onProgress, signal, o);
    }
  }

  /** A cancellation during loading or writing, with the run's own signal,
      stops the run before `exec`. */
  lemma CancelBeforeExecPreventsExec(s: EngineState, image: Option<IV.FileInfo>, audio: Option<IV.FileInfo>,
                                     quality: string, onProgress: bool, o: Oracle)
    requires Valid(s) && s.controller.Some?
    requires o.cancelDuring == DuringLoad || o.cancelDuring == DuringWrite
    ensures var r := ProcessVideo(s, image, audio, quality, onProgress, s.controller, o);
            !Executes(r) && r.outcome.Rejected?
  {
    if IV.Validate(image, audio).None? {
      ProcessVideoIsTryBody(s, image.value, audio.value, quality, onProgress, s.controller, o);
      TryBodyCancelBeforeExec(s, image.value, audio.value, quality, onProgress, o);
    }
  }

  /** Once `exec` has started, a cancellation that fails to terminate the
      engine, or one that lands during cleanup, leaves the outcome as if
      nobody had cancelled: no checkpoint follows `exec`. */
  lemma AbortNotCheckedAfterExec(s: EngineState, image: Option<IV.FileInfo>, audio: Option<IV.FileInfo>,
                                 quality: string, onProgress: bool, signal: Option<nat>, o: Oracle)
    requires Valid(s) && HarmlessLateCancel(o)
    ensures ProcessVideo(s, image, audio, quality, onProgress, signal, o).outcome
            == ProcessVideo(s, image, audio, quality, onProgress, signal, o.(cancelDuring := NoCancel)).outcome
  {
    if IV.Validate(image, audio).None? {
      LateCancelTryBody(s, image.value, audio.value, quality, onProgress, signal, o);
      ProcessVideoIsTryBody(s, image.value, audio.value, quality, onProgress, signal, o);
      ProcessVideoIsTryBody(s, image.value, audio.value, quality, onProgress, signal, o.(cancelDuring := NoCancel));
    }
  }

  /** A cancellation during `exec` that terminates the engine rejects the run
      and leaves no instance, so the next run constructs a fresh one. */
  lemma CancelDuringExecRejects(s: EngineState, image: Option<IV.FileInfo>, audio: Option<IV.FileInfo>,
                                quality: string, onProgress: bool, signal: Option<nat>, o: Oracle)
    requires Valid(s) && o.cancelDuring == DuringExec && !o.terminateThrows
    ensures var r := ProcessVideo(s, image, audio, quality, onProgress, signal, o);
            && r.outcome.Rejected?
            && (Executes(r) ==> r.state.instance.None? && !r.state.isLoaded)
  {
    if IV.Validate(image, audio).None? {
      ProcessVideoIsTryBody(s, image.value, audio.value, quality, onProgress, signal, o);
      TryBodyCancelDuringExec(s, image.value, audio.value, quality, onProgress, signal, o);
    }
  }

  /** The progress reported on a successful run: 0.1 once loaded, then the
      engine's defined values verbatim. */
  lemma SuccessProgress(s: EngineState, image: Option<IV.FileInfo>, audio: Option<IV.FileInfo>,
                        quality: string, signal: Option<nat>, o: Oracle)
    requires Valid(s)
    ensures var r := ProcessVideo(s, image, audio, quality, true, signal, o);
            r.outcome.Resolved? ==> r.progress == [0.1] + Defined(o.progress)
  {
    if IV.Validate(image, audio).None? {
      ProcessVideoIsTryBody(s, image.value, audio.value, quality, true, signal, o);
      TryBodyProgress(s, image.value, audio.value, quality, true, signal, o);
    }
  }

  /** A cancellation during loading, with the run's own signal, is always
      seen: the run is rejected and the signal is left aborted, which is how
      the caller tells a cancellation from a failure. */
  lemma CancelDuringLoadIsSeen(s: EngineState, image: IV.FileInfo, audio: IV.FileInfo,
                               quality: string, onProgress: bool, o: Oracle)
    requires Valid(s) && s.controller.Some? && o.cancelDuring == DuringLoad
    requires IV.Acceptable(Some(image), Some(audio))
    ensures var r := ProcessVideo(s, Some(image), Some(audio), quality, onProgress, s.controller, o);
            r.outcome.Rejected? && Aborted(r.state, s.controller)
  {
    ProcessVideoIsTryBody(s, image, audio, quality, onProgress, s.controller, o);
    var (s1, start) := BeginLoad(s);
    var (s2, t) := CancelAt(s1, o, DuringLoad);
    assert Aborted(s2, s.controller);
    var (s3, loaded) := FinishLoad(s2, start, o.load, o.terminatedError);
    assert Aborted(s3, s.controller);
  }

  /** A failed load reaches the caller with the load message unchanged: every
      such message is already phrased for the user, so the `catch` keeps it. */
  lemma LoadFailureReachesCaller(s: EngineState, image: IV.FileInfo, audio: IV.FileInfo,
                                 quality: string, onProgress: bool, signal: Option<nat>, o: Oracle, e: JsError)
    requires Valid(s) && IV.Acceptable(Some(image), Some(audio)) && !Aborted(s, signal)
    requires !s.isLoaded && o.cancelDuring != DuringLoad && o.load == Throws(e)
    ensures var r := ProcessVideo(s, Some(image), Some(audio), quality, onProgress, signal, o);
            && r.outcome == Rejected(NewError(LoadErrorMessage(e)))
            && r.calls == [NewInstance(s.nextId), LoadCore(s.nextId)]
            && r.state.instance == Some(s.nextId) && !r.state.isLoaded
  {
    var m := LoadErrorMessage(e);
    LoadErrorMessageRange(e);
    if StartsWith(m, "Failed to") {
      StartsWithIncludes(m, "Failed to");
    }
    assert PE.UserFacing(m);
    ProcessVideoIsTryBody(s, image, audio, quality, onProgress, signal, o);
    TryBodyLoadFailure(s, image, audio, quality, onProgress, signal, o);
  }
}
