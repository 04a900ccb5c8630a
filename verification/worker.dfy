/** The inference worker: a single lazily built detector behind a command
    handler. The object-detection engine is not modelled; each command is
    handled atomically against an `Engine` value that says what the engine
    would report if it were called while handling that command. */
module Worker {
  import opened Protocol

  /** Identity of a detector instance built by the engine. */
  datatype Detector = Detector(id: nat)

  /** What building the detection pipeline reports: the progress records
      it passes to the progress callback, in order, then success or the
      message of the exception it throws. */
  datatype LoadOutcome =
    | Loaded(progress: seq<Progress>, detector: Detector)
    | LoadFailed(progress: seq<Progress>, message: string)

  /** What running the detector on an image reports. */
  datatype DetectOutcome = Detected(output: seq<Detection>) | DetectFailed(message: string)

  /** The engine's behaviour during one command. */
  datatype Engine = Engine(load: LoadOutcome, detect: DetectOutcome)

  /** A call the handler makes into the engine. */
  datatype EngineCall =
    | BuildPipeline(task: string, model: string)
    | RunDetector(imageSrc: string, threshold: real, percentage: bool)

  /** The effect of handling one command (or several): the detector
      afterwards, the events posted and the engine calls made, in order. */
  datatype Transition = Transition(detector: Option<Detector>, events: seq<Event>, calls: seq<EngineCall>)

  const Task := "object-detection"
  const ModelName := "Xenova/yolos-tiny"
  const Threshold: real := 0.5

  const ReadyText := "Worker ready."
  const SetupFailedPrefix := "Worker setup failed: "
  const LibraryFailedText := "Worker cannot process: library failed to load."
  const LoadingText := "Loading model..."
  const LoadFailedPrefix := "Failed to load model: "
  const ModelNotLoadedText := "Detection failed: Model not loaded."
  const NoImageText := "Detection failed: No image data received."
  const DetectingText := "Detecting objects..."
  const DetectFailedPrefix := "Detection failed: "

  /** The events the progress callback posts: one per record, payload
      passed through unchanged. */
  function ProgressEvents(records: seq<Progress>): (r: seq<Event>)
    ensures |r| == |records|
    ensures forall i :: 0 <= i < |records| ==> r[i] == DownloadProgress(records[i])
  {
    if records == [] then [] else [DownloadProgress(records[0])] + ProgressEvents(records[1..])
  }

  /** The events posted while the worker script starts: the setup error,
      or the "Worker ready." status. `setupError` is the message of the
      exception thrown while configuring the library, if any. */
  function StartupEvents(setupError: Option<string>): seq<Event> {
    if setupError.None? then [StatusUpdate(ReadyText)] else [Error(SetupFailedPrefix + setupError.value)]
  }

  predicate IsLoadModel(c: Command) {
    c.kind == LoadModelTag
  }

  predicate IsDetect(c: Command) {
    c.kind == DetectTag
  }

  /** `LOAD_MODEL` on a worker whose library is available. */
  function LoadModelReply(detector: Option<Detector>, load: LoadOutcome): Transition {
    if detector.Some? then
      Transition(detector, [ModelReady], [])
    else
      var start := [StatusUpdate(LoadingText)] + ProgressEvents(load.progress);
      var build := [BuildPipeline(Task, ModelName)];
      match load
      case Loaded(_, d) => Transition(Some(d), start + [ModelReady], build)
      case LoadFailed(_, m) => Transition(None, start + [Error(LoadFailedPrefix + m)], build)
  }

  /** `DETECT` on a worker whose library is available. */
  function DetectReply(detector: Option<Detector>, payload: Option<DetectPayload>, detect: DetectOutcome): Transition {
    if detector.None? then
      Transition(detector, [Error(ModelNotLoadedText)], [])
    else if !HasImageData(payload) then
      Transition(detector, [Error(NoImageText)], [])
    else
      var call := [RunDetector(payload.value.imageSrc.value, Threshold, true)];
      match detect
      case Detected(output) =>
        Transition(detector, [StatusUpdate(DetectingText), DetectionResult(output)], call)
      case DetectFailed(m) =>
        Transition(detector, [StatusUpdate(DetectingText), Error(DetectFailedPrefix + m)], call)
  }

  /** Handling one command: `loaded` is the library flag fixed at start-up,
      `detector` the detector before the command. */
  function Reply(loaded: bool, detector: Option<Detector>, message: Command, engine: Engine): Transition {
    if !loaded then
      Transition(detector, [Error(LibraryFailedText)], [])
    else if IsLoadModel(message) then
      LoadModelReply(detector, engine.load)
    else if IsDetect(message) then
      DetectReply(detector, message.payload, engine.detect)
    else
      Transition(detector, [], [])
  }

  /** Commands handled one after another, in arrival order. */
  function Run(loaded: bool, detector: Option<Detector>, commands: seq<Command>, engines: seq<Engine>): Transition
    requires |engines| == |commands|
    decreases |commands|
  {
    if commands == [] then
      Transition(detector, [], [])
    else
      var first := Reply(loaded, detector, commands[0], engines[0]);
      var rest := Run(loaded, first.detector, commands[1..], engines[1..]);
      Transition(rest.detector, first.events + rest.events, first.calls + rest.calls)
  }

  /** The worker's module state and its outgoing message log. */
  class InferenceWorker {
    const libraryLoaded: bool
    var detector: Option<Detector>
    /** Every message posted to the UI, in order. */
    var outbox: seq<Event>
    /** Every call made into the engine, in order. */
    var engineCalls: seq<EngineCall>

    /** The worker script's start-up: configure the library, then announce
        readiness only if that succeeded. */
    constructor (setupError: Option<string>)
      ensures libraryLoaded <==> setupError.None?
      ensures detector == None && engineCalls == []
      ensures outbox == StartupEvents(setupError)
    {
      detector := None;
      engineCalls := [];
      outbox := [];
      libraryLoaded := setupError.None?;
      if setupError.Some? {
        outbox := outbox + [Error(SetupFailedPrefix + setupError.value)];
      }
      if setupError.None? {
        outbox := outbox + [StatusUpdate(ReadyText)];
      }
    }

    /** `self.postMessage(event)` */
    method Post(event: Event)
      modifies this
      ensures outbox == old(outbox) + [event]
      ensures detector == old(detector) && engineCalls == old(engineCalls)
    {
      outbox := outbox + [event];
    }

    /** `self.onmessage`: handle one command to completion. */
    method OnMessage(message: Command, engine: Engine)
      modifies this
      ensures detector == Reply(libraryLoaded, old(detector), message, engine).detector
      ensures outbox == old(outbox) + Reply(libraryLoaded, old(detector), message, engine).events
      ensures engineCalls == old(engineCalls) + Reply(libraryLoaded, old(detector), message, engine).calls
    {
      if !libraryLoaded {
        Post(Error(LibraryFailedText));
        return;
      }
      if message.kind == LoadModelTag {
        OnLoadModel(engine.load);
      } else if message.kind == DetectTag {
        OnDetect(message.payload, engine.detect);
      }
      // Any other type is logged and otherwise ignored.
    }

    /** The `LOAD_MODEL` case. */
    method OnLoadModel(load: LoadOutcome)
      modifies this
      ensures detector == LoadModelReply(old(detector), load).detector
      ensures outbox == old(outbox) + LoadModelReply(old(detector), load).events
      ensures engineCalls == old(engineCalls) + LoadModelReply(old(detector), load).calls
    {
      if detector.Some? {
        Post(ModelReady);
        return;
      }
      ghost var before := outbox;
      Post(StatusUpdate(LoadingText));
      engineCalls := engineCalls + [BuildPipeline(Task, ModelName)];
      ForwardProgress(load.progress);
      ghost var start := [StatusUpdate(LoadingText)] + ProgressEvents(load.progress);
      assert outbox == before + start;
      match load
      case Loaded(_, d) =>
        detector := Some(d);
        Post(ModelReady);
        assert outbox == before + (start + [ModelReady]);
      case LoadFailed(_, m) =>
        Post(Error(LoadFailedPrefix + m));
        assert outbox == before + (start + [Error(LoadFailedPrefix + m)]);
    }

    /** The progress callback, invoked by the engine once per record. */
    method ForwardProgress(records: seq<Progress>)
      modifies this
      ensures outbox == old(outbox) + ProgressEvents(records)
      ensures detector == old(detector) && engineCalls == old(engineCalls)
    {
      for i := 0 to |records|
        invariant outbox == old(outbox) + ProgressEvents(records[..i])
        invariant detector == old(detector) && engineCalls == old(engineCalls)
      {
        assert records[..i + 1] == records[..i] + [records[i]];
        ProgressEventsAppend(records[..i], records[i]);
        Post(DownloadProgress(records[i]));
      }
      assert records[..|records|] == records;
    }

    /** The `DETECT` case. */
    method OnDetect(payload: Option<DetectPayload>, detect: DetectOutcome)
      modifies this
      ensures detector == DetectReply(old(detector), payload, detect).detector
      ensures outbox == old(outbox) + DetectReply(old(detector), payload, detect).events
      ensures engineCalls == old(engineCalls) + DetectReply(old(detector), payload, detect).calls
    {
      if detector.None? {
        Post(Error(ModelNotLoadedText));
        return;
      }
      if payload.None? || payload.value.imageSrc.None? || payload.value.imageSrc.value == "" {
        Post(Error(NoImageText));
        return;
      }
      Post(StatusUpdate(DetectingText));
      engineCalls := engineCalls + [RunDetector(payload.value.imageSrc.value, Threshold, true)];
      match detect
      case Detected(output) =>
        Post(DetectionResult(output));
      case DetectFailed(m) =>
        Post(Error(DetectFailedPrefix + m));
    }
  }

  lemma ProgressEventsAppend(records: seq<Progress>, p: Progress)
    ensures ProgressEvents(records + [p]) == ProgressEvents(records) + [DownloadProgress(p)]
  {
    var l, r := ProgressEvents(records + [p]), ProgressEvents(records) + [DownloadProgress(p)];
    assert |l| == |r|;
    forall i | 0 <= i < |l| ensures l[i] == r[i] {
      if i < |records| {
        assert (records + [p])[i] == records[i];
      }
    }
  }

  // ---------------------------------------------------------------------
  // One command at a time

  /** A worker whose library setup failed answers every command with the
      same error and changes nothing. */
  lemma SetupFailureRejectsCommand(detector: Option<Detector>, message: Command, engine: Engine)
    ensures Reply(false, detector, message, engine) == Transition(detector, [Error(LibraryFailedText)], [])
  {
  }

  /** The "Worker ready." status is announced exactly when setup succeeded. */
  lemma ReadyAnnouncedOnlyWhenLoaded(setupError: Option<string>)
    ensures |StartupEvents(setupError)| == 1
    ensures StartupEvents(setupError)[0] == StatusUpdate(ReadyText) <==> setupError.None?
  {
  }

  /** `LOAD_MODEL` with a detector in place answers `MODEL_READY` alone,
      does not call the engine and keeps the same detector. */
  lemma LoadModelWhenLoaded(d: Detector, message: Command, engine: Engine)
    requires IsLoadModel(message)
    ensures Reply(true, Some(d), message, engine) == Transition(Some(d), [ModelReady], [])
  {
  }

  /** A first `LOAD_MODEL` that the engine completes: the loading status,
      each progress record forwarded unchanged and in order, then
      `MODEL_READY`; one pipeline build; the detector is the one the engine
      built. */
  lemma LoadModelSucceeds(message: Command, records: seq<Progress>, d: Detector, detect: DetectOutcome)
    requires IsLoadModel(message)
    ensures var t := Reply(true, None, message, Engine(Loaded(records, d), detect));
      && t.detector == Some(d)
      && t.events == [StatusUpdate(LoadingText)] + ProgressEvents(records) + [ModelReady]
      && t.calls == [BuildPipeline(Task, ModelName)]
  {
  }

  /** A `LOAD_MODEL` that the engine fails: the loading status, the
      progress records, then the error carrying the engine's message; the
      detector stays unset, so a later `LOAD_MODEL` builds the pipeline
      again. */
  lemma LoadModelFails(message: Command, records: seq<Progress>, m: string, detect: DetectOutcome, retry: Engine)
    requires IsLoadModel(message)
    ensures var t := Reply(true, None, message, Engine(LoadFailed(records, m), detect));
      && t.detector == None
      && t.events == [StatusUpdate(LoadingText)] + ProgressEvents(records) + [Error(LoadFailedPrefix + m)]
      && Reply(true, t.detector, message, retry).calls == [BuildPipeline(Task, ModelName)]
  {
  }

  /** `DETECT` before any detector exists fails with "Model not loaded",
      whatever the payload, without calling the engine. */
  lemma DetectWithoutModel(message: Command, engine: Engine)
    requires IsDetect(message)
    ensures Reply(true, None, message, engine) == Transition(None, [Error(ModelNotLoadedText)], [])
  {
  }

  /** `DETECT` with a missing payload or an absent or empty image reference
      fails with "No image data received", without calling the engine. */
  lemma DetectWithoutImage(d: Detector, message: Command, engine: Engine)
    requires IsDetect(message) && !HasImageData(message.payload)
    ensures Reply(true, Some(d), message, engine) == Transition(Some(d), [Error(NoImageText)], [])
  {
  }

  /** `DETECT` with an image: the detecting status, then the engine's output
      unchanged or its error; the engine runs once, on that image, with
      threshold 0.5 and percentage coordinates; the detector is kept. */
  lemma DetectWithImage(d: Detector, src: string, engine: Engine)
    requires src != ""
    ensures var t := Reply(true, Some(d), Detect(src), engine);
      && t.detector == Some(d)
      && t.calls == [RunDetector(src, 0.5, true)]
      && |t.events| == 2 && t.events[0] == StatusUpdate(DetectingText)
      && (engine.detect.Detected? ==> t.events[1] == DetectionResult(engine.detect.output))
      && (engine.detect.DetectFailed? ==> t.events[1] == Error(DetectFailedPrefix + engine.detect.message))
  {
  }

  /** `MODEL_READY` is posted only in reply to `LOAD_MODEL` on a worker
      whose library loaded. */
  lemma ModelReadyOnlyForLoadModel(loaded: bool, detector: Option<Detector>, message: Command, engine: Engine)
    ensures ModelReady in Reply(loaded, detector, message, engine).events ==> loaded && IsLoadModel(message)
  {
  }

  /** A command of any other type posts nothing, calls nothing and keeps
      the detector. */
  lemma UnknownCommandIgnored(detector: Option<Detector>, message: Command, engine: Engine)
    requires !IsLoadModel(message) && !IsDetect(message)
    ensures Reply(true, detector, message, engine) == Transition(detector, [], [])
  {
  }

  // ---------------------------------------------------------------------
  // Sequences of commands

  /** After a failed library setup, every command of any type yields exactly
      one error, in order, and nothing else happens. */
  lemma {:induction false} SetupFailureRejectsAll(detector: Option<Detector>, commands: seq<Command>, engines: seq<Engine>)
    requires |engines| == |commands|
    ensures var t := Run(false, detector, commands, engines);
      && t.detector == detector
      && t.calls == []
      && |t.events| == |commands|
      && forall i :: 0 <= i < |t.events| ==> t.events[i] == Error(LibraryFailedText)
  {
    if commands != [] {
      SetupFailureRejectsAll(detector, commands[1..], engines[1..]);
    }
  }

  /** Once a detector exists it is never replaced or cleared, and the
      pipeline is never built again: the only engine calls are detections. */
  lemma {:induction false} DetectorIsPermanent(loaded: bool, d: Detector, commands: seq<Command>, engines: seq<Engine>)
    requires |engines| == |commands|
    ensures var t := Run(loaded, Some(d), commands, engines);
      && t.detector == Some(d)
      && forall c :: c in t.calls ==> c.RunDetector?
  {
    if commands != [] {
      DetectorIsPermanent(loaded, d, commands[1..], engines[1..]);
    }
  }

  /** Repeating `LOAD_MODEL` on a loaded worker is idempotent: one
      `MODEL_READY` per command and nothing else. */
  lemma {:induction false} RepeatedLoadModel(d: Detector, commands: seq<Command>, engines: seq<Engine>)
    requires |engines| == |commands|
    requires forall i :: 0 <= i < |commands| ==> IsLoadModel(commands[i])
    ensures var t := Run(true, Some(d), commands, engines);
      && t.detector == Some(d)
      && t.calls == []
      && |t.events| == |commands|
      && forall i :: 0 <= i < |t.events| ==> t.events[i] == ModelReady
  {
    if commands != [] {
      RepeatedLoadModel(d, commands[1..], engines[1..]);
    }
  }

  /** Whether the i-th command is a `LOAD_MODEL` the engine completes. */
  predicate SuccessfulLoad(commands: seq<Command>, engines: seq<Engine>, i: int)
    requires |engines| == |commands|
  {
    0 <= i < |commands| && IsLoadModel(commands[i]) && engines[i].load.Loaded?
  }

  /** Starting without a detector, a loaded worker ends with one exactly
      when some `LOAD_MODEL` succeeded, and it is the detector built by the
      first of them. */
  lemma {:induction false} DetectorFromFirstSuccessfulLoad(commands: seq<Command>, engines: seq<Engine>)
    requires |engines| == |commands|
    ensures var t := Run(true, None, commands, engines);
      && (t.detector.Some? <==> exists i :: SuccessfulLoad(commands, engines, i))
      && forall i :: SuccessfulLoad(commands, engines, i) && (forall j :: 0 <= j < i ==> !SuccessfulLoad(commands, engines, j))
           ==> t.detector == Some(engines[i].load.detector)
  {
    if commands != [] {
      var first := Reply(true, None, commands[0], engines[0]);
      var tail := Run(true, first.detector, commands[1..], engines[1..]);
      if SuccessfulLoad(commands, engines, 0) {
        DetectorIsPermanent(true, engines[0].load.detector, commands[1..], engines[1..]);
      } else {
        assert first.detector == None;
        DetectorFromFirstSuccessfulLoad(commands[1..], engines[1..]);
        forall i | SuccessfulLoad(commands, engines, i)
          ensures i > 0 && SuccessfulLoad(commands[1..], engines[1..], i - 1)
        {
        }
        forall i | SuccessfulLoad(commands[1..], engines[1..], i)
          ensures SuccessfulLoad(commands, engines, i + 1)
        {
        }
        forall i | SuccessfulLoad(commands, engines, i) && (forall j :: 0 <= j < i ==> !SuccessfulLoad(commands, engines, j))
          ensures tail.detector == Some(engines[i].load.detector)
        {
          assert i > 0;
          forall j | 0 <= j < i - 1 ensures !SuccessfulLoad(commands[1..], engines[1..], j) {
            assert !SuccessfulLoad(commands, engines, j + 1);
          }
        }
      }
    }
  }
}
