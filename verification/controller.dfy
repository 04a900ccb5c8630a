/** The UI controller: the flags the page's handlers update, how each worker
    event, the worker's transport fault and each user action changes them,
    and what is posted to the worker. DOM construction, styling, scrolling
    and the timer's text are not modelled; the file reader's and the image
    element's callbacks are inputs of their own. */
module Controller {
  import opened Protocol
  import opened Render
  import Worker

  /** What the status line says. Each kind stands for one text the page
      writes; the texts with data keep that data. */
  datatype Status =
    | Initializing                 // "Initializing background processor..."
    | InitFailed                   // "Error: Could not initialize background processor."
    | AppInitialized               // "App initialized. Waiting..."
    | WorkerStatus(text: string)   // a STATUS_UPDATE payload, verbatim
    | Downloading(file: string, percent: real)  // "Downloading model: <file> (<percent>%)"
    | FinishedDownloading(file: string)         // "Finished downloading: <file>"
    | DownloadStatus(phase: string)             // "Model download status: <phase>"
    | ModelDownloaded              // "Model successfully downloaded to device. Select an image."
    | ReadyToDetect                // "Model downloaded to local device. Ready to detect."
    | DetectionComplete(found: nat, top: Option<nat>)
                                   // "Detection complete. Found <found> objects.", then
                                   // " Displaying top <top>." when `top` is present
    | NoObjectsFound               // "Detection complete. No objects found."
    | WorkerError(message: string) // "Error: <message>"
    | CriticalError(message: string)  // "Critical background error: <message>. Please refresh."
    | Unavailable                  // "Error: Background processor unavailable."
    | NotReady                     // "Detector not ready. Please wait."
    | NoImageLoaded                // "No image loaded or ready for detection."
    | Working                      // "AI detector working..."
    | ResetReady                   // "App reset. AI successfully downloaded to device. Select an image."
    | ResetWaiting                 // "App reset. Waiting..."
    | NotAnImage                   // "Error: Please select an image file."
    | NoFile                       // "No file selected."
    | LoadingImage                 // "Loading image..."
    | ReadError                    // "Error reading file."
    | ImageReady                   // "Image loaded. Ready to detect."
    | ImageWaiting                 // "Image loaded. Waiting for model..."
    | DisplayError                 // "Error displaying image."

  /** The file the user picked: only its MIME type matters. */
  datatype FileInfo = FileInfo(mimeType: string)

  /** The image element: its source, the width it decoded to (0 while
      nothing decoded) and whether an upload installed its `onload` and
      `onerror` handlers. */
  datatype ImageElement = ImageElement(src: string, naturalWidth: nat, uploadHandlers: bool)

  /** `timerIntervalId !== null` and `timerElapsedTime`. */
  datatype Timer = Timer(running: bool, elapsed: nat)

  /** Everything the controller's handlers read or write. */
  datatype View = View(
    hasWorker: bool,        // `worker !== null`; user listeners exist only then
    ready: bool,            // `isDetectorReady`
    detectDisabled: bool,   // `detectButton.disabled`
    fileDisabled: bool,     // `fileInput.disabled`
    image: ImageElement,
    timer: Timer,
    overlays: seq<Overlay>, // the `.bounding-box` elements, in document order
    items: seq<ListItem>,   // the result list's entries
    resultsVisible: bool,   // the result list container is displayed
    status: Status,
    posted: seq<Command>)   // every command posted to the worker, in order

  const DefaultImage := "/example.jpg"
  const TimerRunningMark := "Timer Running"

  // ---------------------------------------------------------------------
  // Strings

  predicate StartsWith(s: string, prefix: string) {
    |prefix| <= |s| && s[..|prefix|] == prefix
  }

  /** `s.includes(t)` */
  predicate Contains(s: string, t: string)
    decreases |s|
  {
    |t| <= |s| && (s[..|t|] == t || Contains(s[1..], t))
  }

  /** `statusElement.textContent.includes('Timer Running')`. The fixed parts
      of every status text hold no 'T' and no 'g' that could start or end an
      occurrence, so the text mentions the mark exactly when the data it
      carries does. */
  predicate MentionsTimerMark(s: Status) {
    match s
    case WorkerStatus(text) => Contains(text, TimerRunningMark)
    case Downloading(file, _) => Contains(file, TimerRunningMark)
    case FinishedDownloading(file) => Contains(file, TimerRunningMark)
    case DownloadStatus(phase) => Contains(phase, TimerRunningMark)
    case WorkerError(message) => Contains(message, TimerRunningMark)
    case CriticalError(message) => Contains(message, TimerRunningMark)
    case _ => false
  }

  // ---------------------------------------------------------------------
  // The specification: one function per handler

  /** `imageElement.src && imageElement.naturalWidth > 0` */
  predicate ImageLoaded(v: View) {
    v.image.src != "" && v.image.naturalWidth > 0
  }

  /** `resetTimer`: no interval, zero seconds. */
  function TimerReset(v: View): View {
    v.(timer := Timer(false, 0))
  }

  /** `startTimer`: a fresh interval from zero seconds. */
  function TimerStart(v: View): View {
    v.(timer := Timer(true, 0))
  }

  /** `stopTimer`: the interval ends and the count stays. */
  function TimerStop(v: View): View {
    v.(timer := v.timer.(running := false))
  }

  /** One firing of the timer's interval, which exists only while it runs. */
  function Tick(v: View): View {
    if v.timer.running then v.(timer := v.timer.(elapsed := v.timer.elapsed + 1)) else v
  }

  /** The page's start-up: create the worker and ask it to load the model.
      `detectDisabled` is the detect button's state in the page markup. */
  function Initial(workerCreated: bool, detectDisabled: bool, imageSrc: string): View {
    var base := View(workerCreated, false, detectDisabled, false, ImageElement(imageSrc, 0, false),
                     Timer(false, 0), [], [], false, Initializing, []);
    if workerCreated then
      base.(status := AppInitialized, posted := [LoadModel()])
    else
      base.(status := InitFailed, detectDisabled := true, fileDisabled := true)
  }

  function ProgressStatus(p: Progress): Status {
    if p.status == "progress" then
      Downloading(p.file, if p.progress.Some? then p.progress.value else 0.0)
    else if p.status == "done" then
      FinishedDownloading(p.file)
    else
      DownloadStatus(p.status)
  }

  /** The `DETECTION_RESULT` case: replace the previous overlays and list by
      the first detections, then re-enable the button and stop the timer. */
  function ShowResults(v: View, output: seq<Detection>): View {
    var shown := Shown(output);
    var done := TimerStop(v).(resultsVisible := true, detectDisabled := false);
    if |output| > 0 then
      var top := if |output| > |shown| then Some(|shown|) else None;
      done.(overlays := OverlaysFor(shown), items := ItemsFor(shown), status := DetectionComplete(|output|, top))
    else
      done.(overlays := [], items := [NoObjects], status := NoObjectsFound)
  }

  /** `worker.onmessage` */
  function Receive(v: View, e: Event): View {
    match e
    case StatusUpdate(text) =>
      if MentionsTimerMark(v.status) then v else v.(status := WorkerStatus(text))
    case DownloadProgress(p) =>
      v.(status := ProgressStatus(p))
    case ModelReady =>
      if ImageLoaded(v) then
        v.(ready := true, detectDisabled := false, status := ReadyToDetect)
      else
        v.(ready := true, status := ModelDownloaded)
    case DetectionResult(output) =>
      ShowResults(v, output)
    case Error(message) =>
      TimerReset(v.(status := WorkerError(message), ready := false, detectDisabled := true))
  }

  /** `worker.onerror` */
  function Fault(v: View, message: string): View {
    TimerReset(v.(status := CriticalError(message), ready := false, detectDisabled := true, fileDisabled := true))
  }

  /** A click on the detect button. A disabled button delivers no click.
      The page attaches this listener only after creating the worker, so
      the second `!v.hasWorker` test, kept as the page writes it, never
      holds and `Unavailable` is never shown. */
  function ClickDetect(v: View): View {
    if !v.hasWorker || v.detectDisabled then
      v
    else if !v.ready || !v.hasWorker then
      v.(status := if !v.hasWorker then Unavailable else NotReady)
    else if !ImageLoaded(v) then
      v.(status := NoImageLoaded)
    else
      TimerStart(v.(overlays := [], items := [], detectDisabled := true, status := Working,
                    resultsVisible := false, posted := v.posted + [Detect(v.image.src)]))
  }

  /** A click on the clear button: back to the default image, empty result
      views, detect button enabled exactly when the detector is ready. */
  function ClickClear(v: View): View {
    if !v.hasWorker then
      v
    else
      var cleared := TimerReset(v).(image := v.image.(src := DefaultImage), overlays := [], items := [], resultsVisible := false);
      if v.ready then
        cleared.(status := ResetReady, detectDisabled := false)
      else
        cleared.(status := ResetWaiting, detectDisabled := true)
  }

  /** `handleImageUpload`: a change of the file input (`None` when no file
      was chosen). A disabled input delivers no change. A valid image file
      starts a read whose outcome arrives as `FileLoaded` or `FileReadError`. */
  function ChooseFile(v: View, file: Option<FileInfo>): View {
    if !v.hasWorker || v.fileDisabled then
      v
    else
      var cleared := TimerReset(v).(overlays := [], items := [], resultsVisible := false, detectDisabled := true);
      if file.None? then
        cleared.(status := NoFile)
      else if !StartsWith(file.value.mimeType, "image/") then
        cleared.(status := NotAnImage)
      else
        cleared.(status := LoadingImage)
  }

  /** `reader.onload`: show the file's data URL and install the image
      element's load and error handlers. */
  function FileLoaded(v: View, dataUrl: string): View {
    v.(image := v.image.(src := dataUrl, uploadHandlers := true))
  }

  /** `reader.onerror` */
  function FileReadError(v: View): View {
    v.(status := ReadError)
  }

  /** The image element finished decoding its source. */
  function ImageDecoded(v: View, width: nat): View {
    var decoded := v.(image := v.image.(naturalWidth := width));
    if !v.image.uploadHandlers then
      decoded
    else if v.ready then
      decoded.(status := ImageReady, detectDisabled := false)
    else
      decoded.(status := ImageWaiting)
  }

  /** The image element failed to decode its source. */
  function ImageFailed(v: View): View {
    var broken := v.(image := v.image.(naturalWidth := 0));
    if v.image.uploadHandlers then broken.(status := DisplayError) else broken
  }

  /** Everything that can happen to the controller. */
  datatype Input =
    | Message(event: Event)
    | TransportFault(message: string)
    | DetectClick
    | ClearClick
    | FileChosen(file: Option<FileInfo>)
    | FileRead(dataUrl: string)
    | FileReadFailed
    | ImageLoad(width: nat)
    | ImageError
    | TimerTick

  function Step(v: View, input: Input): View {
    match input
    case Message(e) => Receive(v, e)
    case TransportFault(m) => Fault(v, m)
    case DetectClick => ClickDetect(v)
    case ClearClick => ClickClear(v)
    case FileChosen(f) => ChooseFile(v, f)
    case FileRead(url) => FileLoaded(v, url)
    case FileReadFailed => FileReadError(v)
    case ImageLoad(w) => ImageDecoded(v, w)
    case ImageError => ImageFailed(v)
    case TimerTick => Tick(v)
  }

  /** Inputs handled one after another, each to completion. */
  function Run(v: View, inputs: seq<Input>): View
    decreases |inputs|
  {
    if inputs == [] then v else Step(Run(v, inputs[..|inputs| - 1]), inputs[|inputs| - 1])
  }

  // ---------------------------------------------------------------------
  // The controller as the page has it: closure variables and DOM state
  // updated in place by its handlers.

  class UiController {
    const hasWorker: bool
    var isDetectorReady: bool
    var detectDisabled: bool
    var fileDisabled: bool
    var image: ImageElement
    var timer: Timer
    var overlays: seq<Overlay>
    var items: seq<ListItem>
    var resultsVisible: bool
    var status: Status
    var posted: seq<Command>

    function State(): View
      reads this
    {
      View(hasWorker, isDetectorReady, detectDisabled, fileDisabled, image, timer,
           overlays, items, resultsVisible, status, posted)
    }

    /** The `DOMContentLoaded` listener's set-up. `workerCreated` says whether
        constructing the worker succeeded; the other two arguments are the
        markup's initial detect-button state and image source. */
    constructor (workerCreated: bool, detectDisabledInMarkup: bool, markupImageSrc: string)
      ensures State() == Initial(workerCreated, detectDisabledInMarkup, markupImageSrc)
    {
      hasWorker := workerCreated;
      isDetectorReady := false;
      detectDisabled := detectDisabledInMarkup;
      fileDisabled := false;
      image := ImageElement(markupImageSrc, 0, false);
      timer := Timer(false, 0);
      overlays := [];
      items := [];
      resultsVisible := false;
      status := Initializing;
      posted := [];
      new;
      ResetTimer();
      if !workerCreated {
        status := InitFailed;
        detectDisabled := true;
        fileDisabled := true;
        return;
      }
      posted := posted + [LoadModel()];
      status := AppInitialized;
      ResetTimer();
    }

    method ResetTimer()
      modifies this
      ensures State() == TimerReset(old(State()))
    {
      if timer.running {
        timer := timer.(running := false);
      }
      timer := timer.(elapsed := 0);
    }

    method StartTimer()
      modifies this
      ensures State() == TimerStart(old(State()))
    {
      ResetTimer();
      timer := Timer(true, 0);
    }

    method StopTimer()
      modifies this
      ensures State() == TimerStop(old(State()))
    {
      if timer.running {
        timer := timer.(running := false);
      }
    }

    /** The interval callback: one more second elapsed. */
    method OnTimerTick()
      modifies this
      ensures State() == Tick(old(State()))
    {
      if timer.running {
        timer := timer.(elapsed := timer.elapsed + 1);
      }
    }

    /** `clearBoundingBoxes` together with emptying the result list. */
    method ClearResults()
      modifies this
      ensures State() == old(State()).(overlays := [], items := [])
    {
      overlays := [];
      items := [];
    }

    /** `worker.onmessage` */
    method OnWorkerMessage(e: Event)
      modifies this
      ensures State() == Receive(old(State()), e)
    {
      match e
      case StatusUpdate(text) =>
        if !MentionsTimerMark(status) {
          status := WorkerStatus(text);
        }
      case DownloadProgress(p) =>
        if p.status == "progress" {
          status := Downloading(p.file, if p.progress.Some? then p.progress.value else 0.0);
        } else if p.status == "done" {
          status := FinishedDownloading(p.file);
        } else {
          status := DownloadStatus(p.status);
        }
      case ModelReady =>
        status := ModelDownloaded;
        isDetectorReady := true;
        if image.src != "" && image.naturalWidth > 0 {
          detectDisabled := false;
          status := ReadyToDetect;
        }
      case DetectionResult(output) =>
        OnDetectionResult(output);
      case Error(message) =>
        status := WorkerError(message);
        isDetectorReady := false;
        detectDisabled := true;
        ResetTimer();
    }

    /** The `DETECTION_RESULT` case. */
    method OnDetectionResult(output: seq<Detection>)
      modifies this
      ensures State() == ShowResults(old(State()), output)
    {
      AnnounceCount(|output|);
      if |output| > 0 {
        ShowDetections(output);
      } else {
        ShowNoObjects();
      }
      FinishResults();
    }

    /** The count in the status line, then `clearBoundingBoxes` and the
        emptied list. */
    method AnnounceCount(n: nat)
      modifies this
      ensures State() == old(State()).(status := DetectionComplete(n, None), overlays := [], items := [])
    {
      status := DetectionComplete(n, None);
      ClearResults();
    }

    /** The list container shown, `stopTimer`, the detect button enabled. */
    method FinishResults()
      modifies this
      ensures State() == TimerStop(old(State())).(resultsVisible := true, detectDisabled := false)
    {
      resultsVisible := true;
      StopTimer();
      detectDisabled := false;
    }

    /** The non-empty branch: draw and list the first detections, and note
        the truncation in the status line. */
    method ShowDetections(output: seq<Detection>)
      requires status == DetectionComplete(|output|, None) && overlays == [] && items == []
      modifies this
      ensures State() == old(State()).(overlays := OverlaysFor(Shown(output)),
                                       items := ItemsFor(Shown(output)),
                                       status := DetectionComplete(|output|, if |output| > MaxShown then Some(MaxShown) else None))
    {
      var limited := Shown(output);
      DrawBoxes(limited);
      ListDetections(limited);
      assert overlays == OverlaysFor(limited) && items == ItemsFor(limited);
      if |output| > |limited| {
        status := DetectionComplete(|output|, Some(|limited|));
      }
    }

    /** The empty branch: the status says nothing was found and the list
        gets its single "no objects" entry. */
    method ShowNoObjects()
      modifies this
      ensures State() == old(State()).(status := NoObjectsFound, items := old(items) + [NoObjects])
    {
      status := NoObjectsFound;
      items := items + [NoObjects];
    }

    /** `limitedOutput.forEach(drawObjectBox)` */
    method DrawBoxes(detections: seq<Detection>)
      modifies this
      ensures State() == old(State()).(overlays := old(overlays) + OverlaysFor(detections))
    {
      for i := 0 to |detections|
        invariant overlays == old(overlays) + OverlaysFor(detections[..i])
        invariant State() == old(State()).(overlays := overlays)
      {
        assert detections[..i + 1] == detections[..i] + [detections[i]];
        OverlaysForSnoc(detections[..i], detections[i]);
        overlays := overlays + [DrawObjectBox(detections[i])];
      }
      assert detections[..|detections|] == detections;
    }

    /** The `forEach` that appends one list entry per shown detection. */
    method ListDetections(detections: seq<Detection>)
      modifies this
      ensures State() == old(State()).(items := old(items) + ItemsFor(detections))
    {
      for i := 0 to |detections|
        invariant items == old(items) + ItemsFor(detections[..i])
        invariant State() == old(State()).(items := items)
      {
        assert detections[..i + 1] == detections[..i] + [detections[i]];
        ItemsForSnoc(detections[..i], detections[i]);
        items := items + [ItemFor(detections[i])];
      }
      assert detections[..|detections|] == detections;
    }

    /** `worker.onerror` */
    method OnWorkerError(message: string)
      modifies this
      ensures State() == Fault(old(State()), message)
    {
      status := CriticalError(message);
      isDetectorReady := false;
      detectDisabled := true;
      fileDisabled := true;
      ResetTimer();
    }

    /** The detect button's click listener. As in `ClickDetect`, the
        `!hasWorker` test inside the second guard never holds. */
    method OnDetectClick()
      modifies this
      ensures State() == ClickDetect(old(State()))
    {
      if !hasWorker || detectDisabled {
        return;
      }
      if !isDetectorReady || !hasWorker {
        status := if !hasWorker then Unavailable else NotReady;
        return;
      }
      if image.src == "" || image.naturalWidth == 0 {
        status := NoImageLoaded;
        return;
      }
      ClearResults();
      detectDisabled := true;
      status := Working;
      resultsVisible := false;
      StartTimer();
      posted := posted + [Detect(image.src)];
    }

    /** The clear button's click listener. */
    method OnClearClick()
      modifies this
      ensures State() == ClickClear(old(State()))
    {
      if !hasWorker {
        return;
      }
      ResetTimer();
      image := image.(src := DefaultImage);
      ClearResults();
      resultsVisible := false;
      if isDetectorReady {
        status := ResetReady;
        detectDisabled := false;
      } else {
        status := ResetWaiting;
        detectDisabled := true;
      }
    }

    /** `handleImageUpload` */
    method OnFileChange(file: Option<FileInfo>)
      modifies this
      ensures State() == ChooseFile(old(State()), file)
    {
      if !hasWorker || fileDisabled {
        return;
      }
      ResetTimer();
      if file.None? || !StartsWith(file.value.mimeType, "image/") {
        status := if file.Some? then NotAnImage else NoFile;
        detectDisabled := true;
        ClearResults();
        resultsVisible := false;
        return;
      }
      ClearResults();
      resultsVisible := false;
      status := LoadingImage;
      detectDisabled := true;
    }

    /** `reader.onload` */
    method OnFileRead(dataUrl: string)
      modifies this
      ensures State() == FileLoaded(old(State()), dataUrl)
    {
      image := image.(src := dataUrl, uploadHandlers := true);
    }

    /** `reader.onerror` */
    method OnFileReadError()
      modifies this
      ensures State() == FileReadError(old(State()))
    {
      status := ReadError;
    }

    /** The image element decoded its source; `imageElement.onload` runs if
        an upload installed it. */
    method OnImageLoad(width: nat)
      modifies this
      ensures State() == ImageDecoded(old(State()), width)
    {
      image := image.(naturalWidth := width);
      if image.uploadHandlers {
        if isDetectorReady {
          status := ImageReady;
          detectDisabled := false;
        } else {
          status := ImageWaiting;
        }
      }
    }

    /** The image element failed to decode; `imageElement.onerror` runs if
        an upload installed it. */
    method OnImageError()
      modifies this
      ensures State() == ImageFailed(old(State()))
    {
      image := image.(naturalWidth := 0);
      if image.uploadHandlers {
        status := DisplayError;
      }
    }
  }

  // ---------------------------------------------------------------------
  // Properties of single handlers

  /** `MODEL_READY` marks the detector ready and enables the detect button
      only if an image is loaded; otherwise the button keeps its state.
      Nothing but the status line changes besides. */
  lemma ModelReadyEffect(v: View)
    ensures Receive(v, ModelReady).ready
    ensures Receive(v, ModelReady).detectDisabled == if ImageLoaded(v) then false else v.detectDisabled
    ensures Receive(v, ModelReady).(ready := v.ready, detectDisabled := v.detectDisabled, status := v.status) == v
  {
  }

  /** An `ERROR` event, whatever produced it, clears readiness, disables the
      detect button and resets the timer; the file input, the image and the
      drawn results are untouched. */
  lemma ErrorEffect(v: View, message: string)
    ensures var w := Receive(v, Error(message));
      && !w.ready && w.detectDisabled && w.timer == Timer(false, 0)
      && w.fileDisabled == v.fileDisabled
      && w.image == v.image && w.overlays == v.overlays && w.items == v.items
      && w.posted == v.posted
  {
  }

  /** A transport fault clears readiness, disables the detect button and the
      file input, and resets the timer; no later file choice has an effect. */
  lemma FaultEffect(v: View, message: string, file: Option<FileInfo>)
    ensures var w := Fault(v, message);
      && !w.ready && w.detectDisabled && w.fileDisabled && w.timer == Timer(false, 0)
      && ChooseFile(w, file) == w
  {
  }

  /** A click that the guards turn away only rewrites the status line: no
      flag changes and nothing is posted. */
  lemma RefusedClickOnlySetsStatus(v: View)
    requires !v.ready || !ImageLoaded(v)
    ensures ClickDetect(v).(status := v.status) == v
  {
  }

  /** A click on an enabled button while the detector is ready and an image
      is loaded clears the results, disables the button, starts the timer at
      zero and posts exactly one `DETECT` carrying the current image. */
  lemma AcceptedClickStartsDetection(v: View)
    requires v.hasWorker && !v.detectDisabled && v.ready && ImageLoaded(v)
    ensures var w := ClickDetect(v);
      && w.overlays == [] && w.items == [] && w.detectDisabled
      && w.timer == Timer(true, 0)
      && w.posted == v.posted + [Detect(v.image.src)]
      && w.ready && w.image == v.image && w.fileDisabled == v.fileDisabled
  {
  }

  /** A `DETECT` is posted only by an accepted click. */
  lemma DetectPostedOnlyWhenPermitted(v: View)
    requires ClickDetect(v).posted != v.posted
    ensures v.hasWorker && !v.detectDisabled && v.ready && ImageLoaded(v)
  {
  }

  /** `DETECTION_RESULT` with n detections: exactly the first min(n, 15) are
      drawn and listed, in order; the status adds the truncation note exactly
      when n > 15; with none, no overlay and the single "no objects" entry;
      in every case the button is enabled and the timer stopped. */
  lemma ResultRendering(v: View, output: seq<Detection>)
    ensures var w := Receive(v, DetectionResult(output));
      var k := if |output| <= MaxShown then |output| else MaxShown;
      && |w.overlays| == k
      && (forall i :: 0 <= i < k ==> w.overlays[i] == DrawObjectBox(output[i]))
      && (|output| > 0 ==> |w.items| == k && forall i :: 0 <= i < k ==> w.items[i] == Scored(output[i].name, output[i].score))
      && (|output| == 0 ==> w.items == [NoObjects] && w.status == NoObjectsFound)
      && (|output| > MaxShown ==> w.status == DetectionComplete(|output|, Some(MaxShown)))
      && (0 < |output| <= MaxShown ==> w.status == DetectionComplete(|output|, None))
      && !w.detectDisabled && w.timer == v.timer.(running := false)
      && w.ready == v.ready && w.posted == v.posted
  {
    OverlaysForAt(Shown(output));
    ItemsForAt(Shown(output));
  }

  /** What a `DETECTION_RESULT` draws does not depend on what was drawn
      before: overlays of two detection runs never coexist. */
  lemma ResultsReplacePrevious(v: View, v': View, output: seq<Detection>)
    ensures Receive(v, DetectionResult(output)).overlays == Receive(v', DetectionResult(output)).overlays
    ensures Receive(v, DetectionResult(output)).items == Receive(v', DetectionResult(output)).items
  {
  }

  /** Clear resets the image to the default, empties overlays and list and
      enables the detect button exactly when the detector is ready, which it
      leaves as it was. */
  lemma ClearEffect(v: View)
    requires v.hasWorker
    ensures var w := ClickClear(v);
      && w.image.src == DefaultImage && w.overlays == [] && w.items == []
      && w.detectDisabled == !v.ready && w.ready == v.ready
      && w.timer == Timer(false, 0) && w.posted == v.posted
  {
  }

  /** Rendering a result, clearing, then rendering it again shows the same
      overlays and list as rendering it once. */
  lemma ClearThenRenderAgain(v: View, output: seq<Detection>)
    ensures var once := Receive(v, DetectionResult(output));
      var twice := Receive(ClickClear(once), DetectionResult(output));
      twice.overlays == once.overlays && twice.items == once.items
  {
  }

  /** A missing or non-image file disables the detect button and removes
      overlays and list entries. */
  lemma InvalidFileDisablesDetect(v: View, file: Option<FileInfo>)
    requires v.hasWorker && !v.fileDisabled
    requires file.None? || !StartsWith(file.value.mimeType, "image/")
    ensures var w := ChooseFile(v, file);
      w.detectDisabled && w.overlays == [] && w.items == [] && w.ready == v.ready && w.image == v.image
  {
  }

  /** Once an upload installed the image handlers, a decoded image enables
      the detect button exactly when the detector is ready (otherwise the
      button keeps its state). */
  lemma DecodedUploadEnablesIffReady(v: View, width: nat)
    requires v.image.uploadHandlers
    ensures ImageDecoded(v, width).detectDisabled == if v.ready then false else v.detectDisabled
    ensures ImageDecoded(v, width).ready == v.ready
  {
  }

  // ---------------------------------------------------------------------
  // Properties of input sequences

  lemma RunSnoc(v: View, inputs: seq<Input>, last: Input)
    ensures Run(v, inputs + [last]) == Step(Run(v, inputs), last)
  {
    assert (inputs + [last])[..|inputs|] == inputs;
  }

  /** Inputs that decide readiness. */
  predicate ReadySignal(input: Input) {
    input == Message(ModelReady) || input.TransportFault? || (input.Message? && input.event.Error?)
  }

  /** The readiness flag after one worker event. */
  lemma ReceiveReady(v: View, e: Event)
    ensures Receive(v, e).ready == if e.ModelReady? then true else if e.Error? then false else v.ready
  {
    match e
    case StatusUpdate(_) =>
    case DownloadProgress(_) =>
    case ModelReady =>
    case DetectionResult(_) =>
    case Error(_) =>
  }

  /** The readiness flag after one input. */
  lemma StepReady(v: View, input: Input)
    ensures Step(v, input).ready == if ReadySignal(input) then input == Message(ModelReady) else v.ready
  {
    match input
    case Message(e) => ReceiveReady(v, e);
    case TransportFault(_) =>
    case DetectClick =>
    case ClearClick =>
    case FileChosen(_) =>
    case FileRead(_) =>
    case FileReadFailed =>
    case ImageLoad(_) =>
    case ImageError =>
    case TimerTick =>
  }

  /** Worker events post nothing. */
  lemma ReceivePosted(v: View, e: Event)
    ensures Receive(v, e).posted == v.posted
  {
    match e
    case StatusUpdate(_) =>
    case DownloadProgress(_) =>
    case ModelReady =>
    case DetectionResult(_) =>
    case Error(_) =>
  }

  /** What one input adds to the posted commands. */
  lemma StepPosted(v: View, input: Input)
    ensures Step(v, input).posted == v.posted || Step(v, input) == ClickDetect(v)
    ensures Step(v, input).posted != v.posted ==> input == DetectClick
  {
    match input
    case Message(e) => ReceivePosted(v, e);
    case TransportFault(_) =>
    case DetectClick =>
    case ClearClick =>
    case FileChosen(_) =>
    case FileRead(_) =>
    case FileReadFailed =>
    case ImageLoad(_) =>
    case ImageError =>
    case TimerTick =>
  }

  /** Readiness after a run is decided by the last `MODEL_READY`, `ERROR` or
      transport fault in it, and is unchanged when there is none. */
  lemma {:induction false} ReadinessFollowsLastSignal(v: View, inputs: seq<Input>)
    ensures (forall j :: 0 <= j < |inputs| ==> !ReadySignal(inputs[j])) ==> Run(v, inputs).ready == v.ready
    ensures forall i :: 0 <= i < |inputs| && ReadySignal(inputs[i])
                        && (forall j :: i < j < |inputs| ==> !ReadySignal(inputs[j]))
                        ==> Run(v, inputs).ready == (inputs[i] == Message(ModelReady))
    decreases |inputs|
  {
    if inputs != [] {
      var n := |inputs| - 1;
      ReadinessFollowsLastSignal(v, inputs[..n]);
      var before := Run(v, inputs[..n]);
      assert Run(v, inputs) == Step(before, inputs[n]);
      StepReady(before, inputs[n]);
      if !ReadySignal(inputs[n]) {
        forall i | 0 <= i < n && ReadySignal(inputs[i]) && (forall j :: i < j < |inputs| ==> !ReadySignal(inputs[j]))
          ensures before.ready == (inputs[i] == Message(ModelReady))
        {
          assert inputs[..n][i] == inputs[i];
          forall j | i < j < n ensures !ReadySignal(inputs[..n][j]) {
            assert inputs[..n][j] == inputs[j];
          }
        }
        if forall j :: 0 <= j < |inputs| ==> !ReadySignal(inputs[j]) {
          forall j | 0 <= j < n ensures !ReadySignal(inputs[..n][j]) {
            assert inputs[..n][j] == inputs[j];
          }
        }
      }
    }
  }

  /** While no `MODEL_READY` arrives, a controller whose detector is not
      ready stays not ready and posts nothing. Since the page posts
      `LOAD_MODEL` only at start-up, one `ERROR` — including one from a
      failed detection — ends detection for the page's lifetime. */
  lemma {:induction false} NoDetectUntilModelReady(v: View, inputs: seq<Input>)
    requires !v.ready
    requires forall j :: 0 <= j < |inputs| ==> inputs[j] != Message(ModelReady)
    ensures !Run(v, inputs).ready && Run(v, inputs).posted == v.posted
    decreases |inputs|
  {
    if inputs != [] {
      var n := |inputs| - 1;
      NoDetectUntilModelReady(v, inputs[..n]);
      var before := Run(v, inputs[..n]);
      assert Run(v, inputs) == Step(before, inputs[n]);
      StepReady(before, inputs[n]);
      StepPosted(before, inputs[n]);
    }
  }

  /** After start-up the page only ever posts `DETECT` commands, each with a
      non-empty image reference. */
  lemma {:induction false} OnlyDetectsPosted(v: View, inputs: seq<Input>)
    ensures |Run(v, inputs).posted| >= |v.posted|
    ensures Run(v, inputs).posted[..|v.posted|] == v.posted
    ensures forall k :: |v.posted| <= k < |Run(v, inputs).posted| ==>
              Worker.IsDetect(Run(v, inputs).posted[k]) && HasImageData(Run(v, inputs).posted[k].payload)
    decreases |inputs|
  {
    if inputs != [] {
      var n := |inputs| - 1;
      OnlyDetectsPosted(v, inputs[..n]);
      var before := Run(v, inputs[..n]);
      var after := Step(before, inputs[n]);
      assert Run(v, inputs) == after;
      StepPosted(before, inputs[n]);
      if after.posted != before.posted {
        DetectPostedOnlyWhenPermitted(before);
        assert after.posted == before.posted + [Detect(before.image.src)];
      }
    }
  }

  /** No input enables a disabled file input. */
  lemma StepKeepsFileDisabled(v: View, input: Input)
    requires v.fileDisabled
    ensures Step(v, input).fileDisabled
  {
    match input
    case Message(e) =>
      match e {
        case StatusUpdate(_) =>
        case DownloadProgress(_) =>
        case ModelReady =>
        case DetectionResult(_) =>
        case Error(_) =>
      }
    case TransportFault(_) =>
    case DetectClick =>
    case ClearClick =>
    case FileChosen(_) =>
    case FileRead(_) =>
    case FileReadFailed =>
    case ImageLoad(_) =>
    case ImageError =>
    case TimerTick =>
  }

  /** After a transport fault the file input stays disabled for the page's
      lifetime: no handler enables it again. */
  lemma {:induction false} FaultDisablesFileForever(v: View, m: string, inputs: seq<Input>)
    ensures Run(Fault(v, m), inputs).fileDisabled
    decreases |inputs|
  {
    if inputs != [] {
      var n := |inputs| - 1;
      FaultDisablesFileForever(v, m, inputs[..n]);
      StepKeepsFileDisabled(Run(Fault(v, m), inputs[..n]), inputs[n]);
    }
  }

  /** The timer counts: k ticks of a running timer add k seconds. */
  lemma {:induction false} TimerCounts(v: View, inputs: seq<Input>)
    requires v.timer.running
    requires forall j :: 0 <= j < |inputs| ==> inputs[j] == TimerTick
    ensures Run(v, inputs).timer == Timer(true, v.timer.elapsed + |inputs|)
    decreases |inputs|
  {
    if inputs != [] {
      TimerCounts(v, inputs[..|inputs| - 1]);
    }
  }

  /** A `DETECT` the page posts never trips the worker's missing-image check:
      a worker with a detector runs the engine on the page's image with
      threshold 0.5 and percentage coordinates. */
  lemma PostedDetectReachesEngine(v: View, d: Worker.Detector, engine: Worker.Engine)
    requires v.hasWorker && !v.detectDisabled && v.ready && ImageLoaded(v)
    ensures var c := ClickDetect(v).posted[|v.posted|];
      Worker.Reply(true, Some(d), c, engine).calls == [Worker.RunDetector(v.image.src, 0.5, true)]
  {
  }

  /** Nothing stops a second `DETECT` while the first is in flight: the
      file input stays enabled during detection, and a newly decoded upload
      re-enables the detect button. */
  lemma SecondDetectWhileFirstInFlight(v: View, url: string)
    requires v.hasWorker && !v.fileDisabled && !v.detectDisabled && v.ready && ImageLoaded(v)
    requires url != ""
    ensures var inputs := [DetectClick, FileChosen(Some(FileInfo("image/png"))), FileRead(url), ImageLoad(640), DetectClick];
      Run(v, inputs).posted == v.posted + [Detect(v.image.src), Detect(url)]
  {
    var png := Some(FileInfo("image/png"));
    assert StartsWith("image/png", "image/");
    var s0: seq<Input> := [];
    assert Run(v, s0) == v;
    RunSnoc(v, s0, DetectClick);
    var v1 := ClickDetect(v);
    RunSnoc(v, s0 + [DetectClick], FileChosen(png));
    var v2 := ChooseFile(v1, png);
    RunSnoc(v, s0 + [DetectClick, FileChosen(png)], FileRead(url));
    var v3 := FileLoaded(v2, url);
    RunSnoc(v, s0 + [DetectClick, FileChosen(png), FileRead(url)], ImageLoad(640));
    var v4 := ImageDecoded(v3, 640);
    RunSnoc(v, s0 + [DetectClick, FileChosen(png), FileRead(url), ImageLoad(640)], DetectClick);
    assert s0 + [DetectClick] + [FileChosen(png)] == s0 + [DetectClick, FileChosen(png)];
    assert s0 + [DetectClick, FileChosen(png)] + [FileRead(url)] == s0 + [DetectClick, FileChosen(png), FileRead(url)];
    assert s0 + [DetectClick, FileChosen(png), FileRead(url)] + [ImageLoad(640)]
        == s0 + [DetectClick, FileChosen(png), FileRead(url), ImageLoad(640)];
    assert s0 + [DetectClick, FileChosen(png), FileRead(url), ImageLoad(640)] + [DetectClick]
        == [DetectClick, FileChosen(png), FileRead(url), ImageLoad(640), DetectClick];
    assert ClickDetect(v4).posted == v.posted + [Detect(v.image.src), Detect(url)];
  }
}
