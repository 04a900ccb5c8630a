# On-device object detection: worker protocol and UI controller

The system runs an object-detection model in a browser. A dedicated **inference
worker** holds one lazily built detector and answers two commands, `LOAD_MODEL`
and `DETECT`, with `STATUS_UPDATE`, `DOWNLOAD_PROGRESS`, `MODEL_READY`,
`DETECTION_RESULT` and `ERROR` events. The **UI controller** on the page keeps
the readiness flag, the detect button's and the file input's disabled bits, the
image, a count-up timer, the drawn overlays and the result list. It updates them
on each worker event, on the worker's transport fault and on each user action:
detect click, clear click, file upload, and the image decoding.

The project has four modules:

- `protocol.dfy`, module `Protocol`: the wire messages.
  - A command is `{type, payload}` with a free-form type tag.
  - The events are the five listed above.
  - It also defines detections, boxes and progress records.
- `worker.dfy`, module `Worker`: the worker's command handler.
  - `Reply` is the pure specification of one command. It maps the library flag, the detector and the engine's behaviour to the new detector, the posted events and the engine calls.
  - `Run` folds `Reply` over a command sequence.
  - The class `InferenceWorker` has the module state `libraryLoaded` and `detector`, plus an `outbox` of posted events and a log of engine calls. Its handler methods are proved against `Reply`.
  - The engine (pipeline construction and inference) is a parameter. An `Engine` value says what the engine reports while one command is handled: its progress records, then success or a failure message.
- `render.dfy`, module `Render`: the pure part of drawing results.
  - Truncation to the first 15 detections.
  - Overlay rectangle geometry, over exact reals.
  - Overlays and list entries, one per shown detection, in order.
- `controller.dfy`, module `Controller`: the UI controller.
  - A `View` value holds everything the handlers read or write.
  - There is one specification function per handler, plus `Step` and `Run` over a sequence of inputs.
  - The class `UiController` holds the page's closure variables and DOM state, updated in place. Each handler method ensures `State() == F(old(State()))` for its specification function `F`. The result-drawing `forEach` loops are loops with invariants.
  - Status texts are a datatype with one constructor per text the page writes. Texts that carry data keep the data.

Four behaviours of the code that a reader might not expect:

- An `ERROR` event always clears `isDetectorReady` and disables the detect button, including an error from a failed detection (`src/main.js:185-191`). Only a `MODEL_READY` sets readiness again. The worker posts `MODEL_READY` only in reply to `LOAD_MODEL` (`Worker.ModelReadyOnlyForLoadModel`), and the page posts `LOAD_MODEL` only at start-up. So after any `ERROR` the page never detects again (`Controller.NoDetectUntilModelReady`).
- A `DETECTION_RESULT` re-enables the detect button even when `isDetectorReady` is false (`src/main.js:182`, `Controller.ResultRendering`). For example, the first of two in-flight detections fails with `ERROR`, then the second returns a result.
- Clear enables the detect button exactly when the detector is ready, whether or not an image is decoded. It does not mark the image as unloaded; it resets the image source to the default image (`src/main.js:354`, `376-382`).
- There is no separate "detecting" flag; the disabled button plays that role. The file input stays enabled while a detection is in flight. A newly decoded upload re-enables the button, so a second `DETECT` can be posted before the first result arrives (`Controller.SecondDetectWhileFirstInFlight`).

## Model

| member | source | states |
|---|---|---|
| `Worker.ProgressEvents` | src/worker.js:46-49 | the progress callback posts one `DOWNLOAD_PROGRESS` per engine record, in order, with the record passed through unchanged |
| `Worker.ProgressEventsAppend` | src/worker.js:46-49 | forwarding one more record appends exactly one progress event after the earlier ones |
| `Worker.InferenceWorker.constructor` | src/worker.js:12-106 | the library flag is set exactly when setup raised nothing; the detector starts unset; the only message posted is the setup error or the "Worker ready." status |
| `Worker.InferenceWorker.Post` | src/worker.js:37 | posting appends exactly that event to the outbox and changes nothing else |
| `Worker.InferenceWorker.OnMessage` | src/worker.js:24-91 | handling a command sets the detector, appends the events and appends the engine calls exactly as the specification `Reply` prescribes |
| `Worker.InferenceWorker.OnLoadModel` | src/worker.js:34-58 | the `LOAD_MODEL` case does exactly what `LoadModelReply` prescribes for the detector, the outbox and the engine calls |
| `Worker.InferenceWorker.ForwardProgress` | src/worker.js:46-49 | the outbox grows by exactly the progress events of the records; detector and engine calls are untouched |
| `Worker.InferenceWorker.OnDetect` | src/worker.js:60-86 | the `DETECT` case does exactly what `DetectReply` prescribes for the detector, the outbox and the engine calls |
| `Worker.SetupFailureRejectsCommand` | src/worker.js:28-31 | without the library, any command yields exactly the one "library failed to load" error; the detector is kept and no engine call is made |
| `Worker.ReadyAnnouncedOnlyWhenLoaded` | src/worker.js:100-106 | start-up posts exactly one message, and it is "Worker ready." exactly when setup succeeded |
| `Worker.LoadModelWhenLoaded` | src/worker.js:35-39 | `LOAD_MODEL` with a detector posts only `MODEL_READY`, keeps the detector and makes no engine call |
| `Worker.LoadModelSucceeds` | src/worker.js:41-52 | a first successful load posts "Loading model...", the forwarded progress events, then `MODEL_READY`; it builds the pipeline once with the fixed task and model; the detector becomes the built one |
| `Worker.LoadModelFails` | src/worker.js:44-57 | a failed load posts "Loading model...", the progress events, then "Failed to load model: " with the engine's message; the detector stays unset; the next `LOAD_MODEL` builds the pipeline again |
| `Worker.DetectWithoutModel` | src/worker.js:61-64 | `DETECT` without a detector posts only "Model not loaded", whatever the payload (this check comes first), and makes no engine call |
| `Worker.DetectWithoutImage` | src/worker.js:65-68 | `DETECT` with a missing payload or an absent or empty image reference posts only "No image data received" and makes no engine call |
| `Worker.DetectWithImage` | src/worker.js:70-85 | a valid `DETECT` posts "Detecting objects...", then the engine's output unmodified or "Detection failed: " with the engine's message; it runs the engine once on that image with threshold 0.5 and percentage coordinates; the detector is kept |
| `Worker.ModelReadyOnlyForLoadModel` | src/worker.js:33-90 | `MODEL_READY` is posted only in reply to `LOAD_MODEL`, and only when the library loaded |
| `Worker.UnknownCommandIgnored` | src/worker.js:88-89 | a command of any other type posts nothing, calls nothing and keeps the detector |
| `Worker.SetupFailureRejectsAll` | src/worker.js:28-31 | without the library, n commands yield exactly n "library failed to load" errors and nothing else |
| `Worker.DetectorIsPermanent` | src/worker.js:35-45 | once set, the detector is never replaced or cleared, and the pipeline is never built again |
| `Worker.RepeatedLoadModel` | src/worker.js:35-38 | repeated `LOAD_MODEL` on a loaded worker is idempotent: one `MODEL_READY` each and nothing else |
| `Worker.DetectorFromFirstSuccessfulLoad` | src/worker.js:44-57 | starting without a detector, there is one at the end exactly when some `LOAD_MODEL` succeeded, and it is the one built by the first success |
| `Render.BoxRect` | src/main.js:214-226 | the overlay spans the box's extent scaled to percent; width and height are non-negative exactly when the corners are ordered; a normalized box stays inside the image |
| `Render.BoxRectExample` | src/main.js:222-225 | the box (0.1, 0.2, 0.5, 0.6) gives left 10%, top 20%, width 40%, height 40% |
| `Render.Shown` | src/main.js:152 | the shown detections are the first min(n, 15), in order, and fewer than all exactly when n > 15 |
| `Render.OverlaysForAt` | src/main.js:153 | one overlay per detection; the i-th overlay is the i-th detection's box |
| `Render.ItemsForAt` | src/main.js:154-160 | one list entry per detection; the i-th entry carries the i-th detection's label and score |
| `Render.OverlaysForSnoc` | src/main.js:153 | drawing one more detection appends its overlay after the earlier ones |
| `Render.ItemsForSnoc` | src/main.js:155-160 | listing one more detection appends its entry after the earlier ones |
| `Controller.UiController.constructor` | src/main.js:92-395 | start-up without a worker shows the init error and disables both controls; with a worker it posts `LOAD_MODEL` once and ends with "App initialized. Waiting..." and a reset timer |
| `Controller.UiController.ResetTimer` | src/main.js:34-42 | the timer stops and its count returns to zero |
| `Controller.UiController.StartTimer` | src/main.js:44-54 | the timer runs from zero |
| `Controller.UiController.StopTimer` | src/main.js:56-65 | the timer stops and keeps its count |
| `Controller.UiController.OnTimerTick` | src/main.js:49-52 | a running timer counts one more second; a stopped one is unchanged |
| `Controller.UiController.ClearResults` | src/main.js:209-212 | overlays and list entries are removed; nothing else changes |
| `Controller.UiController.OnWorkerMessage` | src/main.js:110-197 | each worker event changes the controller exactly as `Receive` prescribes |
| `Controller.UiController.OnDetectionResult` | src/main.js:144-183 | a result replaces the drawn results as `ShowResults` prescribes |
| `Controller.UiController.AnnounceCount` | src/main.js:146-149 | the status reports the count and the previous overlays and list are cleared |
| `Controller.UiController.ShowDetections` | src/main.js:151-164 | the first detections are drawn and listed, and the status notes the truncation to the number shown when there are more than 15 |
| `Controller.UiController.ShowNoObjects` | src/main.js:165-171 | the status says no objects were found and the list gets the single "no objects" entry |
| `Controller.UiController.FinishResults` | src/main.js:174-182 | the result list is shown, the timer stops keeping its count, and the detect button is enabled |
| `Controller.UiController.DrawBoxes` | src/main.js:153 | one overlay per detection is appended, in order; nothing else changes |
| `Controller.UiController.ListDetections` | src/main.js:154-161 | one list entry per detection is appended, in order; nothing else changes |
| `Controller.UiController.OnWorkerError` | src/main.js:199-206 | the transport fault changes the controller exactly as `Fault` prescribes |
| `Controller.UiController.OnDetectClick` | src/main.js:305-340 | a detect click changes the controller exactly as `ClickDetect` prescribes |
| `Controller.UiController.OnClearClick` | src/main.js:346-391 | a clear click changes the controller exactly as `ClickClear` prescribes |
| `Controller.UiController.OnFileChange` | src/main.js:236-262 | a file choice changes the controller exactly as `ChooseFile` prescribes |
| `Controller.UiController.OnFileRead` | src/main.js:264-266 | a completed read shows the file's data URL and installs the image's load and error handlers |
| `Controller.UiController.OnFileReadError` | src/main.js:288-295 | a failed read only sets the "Error reading file." status |
| `Controller.UiController.OnImageLoad` | src/main.js:267-279 | a decoded image records its width and, with upload handlers installed, enables detect exactly when ready |
| `Controller.UiController.OnImageError` | src/main.js:280-286 | a failed decode leaves no decoded width and, with upload handlers installed, sets the display-error status |
| `Controller.ModelReadyEffect` | src/main.js:135-142 | `MODEL_READY` sets readiness; it enables detect exactly when an image is loaded and otherwise keeps the button's state; nothing but the status changes besides |
| `Controller.ErrorEffect` | src/main.js:185-191 | any `ERROR` clears readiness, disables detect and resets the timer; the file input, image, results and posted commands are untouched |
| `Controller.FaultEffect` | src/main.js:199-206 | a transport fault clears readiness, disables detect and the file input, and resets the timer; a file choice right after it has no effect (for every later input, see `Controller.FaultDisablesFileForever`) |
| `Controller.RefusedClickOnlySetsStatus` | src/main.js:306-313 | a click while not ready or without a loaded image changes only the status line and posts nothing |
| `Controller.AcceptedClickStartsDetection` | src/main.js:315-339 | an accepted click clears the results, disables detect, starts the timer at zero and posts exactly one `DETECT` with the current image source |
| `Controller.DetectPostedOnlyWhenPermitted` | src/main.js:305-339 | a click posts something only if the button is enabled, the detector is ready and an image is loaded |
| `Controller.ResultRendering` | src/main.js:144-183 | n detections: exactly the first min(n, 15) are drawn and listed in order; the truncation note appears exactly when n > 15; with none, no overlay and the single "no objects" entry; detect is enabled and the timer stopped |
| `Controller.ResultsReplacePrevious` | src/main.js:146-149 | the overlays and list after a result do not depend on what was drawn before, so two runs' overlays never coexist |
| `Controller.ClearEffect` | src/main.js:346-382 | clear restores the default image, empties overlays and list, resets the timer and enables detect exactly when ready, which it keeps |
| `Controller.ClearThenRenderAgain` | src/main.js:359-361 | rendering a result, clearing and rendering it again shows the same overlays and list as rendering once |
| `Controller.InvalidFileDisablesDetect` | src/main.js:242-253 | a missing or non-image file disables detect and removes overlays and list entries; readiness and the image are kept |
| `Controller.DecodedUploadEnablesIffReady` | src/main.js:267-273 | a decoded upload enables detect exactly when the detector is ready, and otherwise keeps the button's state |
| `Controller.ReceiveReady` | src/main.js:135-191 | after a worker event, readiness is true for `MODEL_READY`, false for `ERROR`, and unchanged otherwise |
| `Controller.StepReady` | src/main.js:135-206 | after any input, readiness is decided by `MODEL_READY`, `ERROR` or the transport fault, and unchanged otherwise |
| `Controller.ReceivePosted` | src/main.js:116-196 | worker events post nothing to the worker |
| `Controller.StepPosted` | src/main.js:334-339 | the only input that posts is the detect click, and its effect is exactly `ClickDetect` |
| `Controller.ReadinessFollowsLastSignal` | src/main.js:135-206 | after any run, readiness is set by the last `MODEL_READY`, `ERROR` or fault, and unchanged when there is none |
| `Controller.NoDetectUntilModelReady` | src/main.js:185-191 | without a `MODEL_READY`, a controller that is not ready stays not ready and posts nothing |
| `Controller.OnlyDetectsPosted` | src/main.js:334-339 | after start-up the page only appends `DETECT` commands with a non-empty image reference, never removing earlier ones |
| `Controller.StepKeepsFileDisabled` | src/main.js:204 | no worker event or user input enables a disabled file input |
| `Controller.FaultDisablesFileForever` | src/main.js:199-206 | after a transport fault the file input stays disabled whatever inputs follow, since no handler enables it again |
| `Controller.TimerCounts` | src/main.js:49-52 | k ticks of a running timer add k seconds |
| `Controller.PostedDetectReachesEngine` | src/main.js:334-339 | a `DETECT` the page posts passes the worker's image check: a loaded worker runs the engine on the page's image with threshold 0.5 and percentage coordinates |
| `Controller.SecondDetectWhileFirstInFlight` | src/main.js:236-273 | a click, a new image upload and a second click post two `DETECT` commands while the first is still unanswered |

## Left out

- The `@xenova/transformers` pipeline and the detector call are foreign code. Each command receives an `Engine` value saying what the engine reports: its progress records, then success or a failure message.
- The interleavings allowed by `await` in the worker's async handler are left out. Each command is handled atomically; concurrency is not modelled.
- The worker's global `self.onerror` handler only reformats an uncaught runtime exception into an `ERROR`; it is not modelled.
- DOM construction, CSS classes and styles, element lookup, smooth scrolling and `setTimeout` delays are left out. The overlays and list entries are modelled as sequences of values, not as elements.
- The clear button's visibility and the `isUserUpload` flag only toggle the clear button's CSS class, so they are not modelled. Clear is modelled as always clickable.
- `fileInput.value = ''` only resets the input's displayed file name; it is not modelled.
- `FileReader` and image decoding are not modelled. Their callbacks are inputs: `FileRead`, `FileReadFailed`, `ImageLoad(width)` and `ImageError`.
  - Setting `src` does not change `naturalWidth` until one of those inputs arrives.
  - Relative URLs are not resolved to absolute ones.
- The `setInterval` scheduling of the timer is an explicit `TimerTick` input. The timer display text and its " (Completed)" suffix are not modelled.
- Random box colours come from `Math.random` and are not modelled.
- Floating-point text formatting is not modelled:
  - the `toFixed(2)` percentage in the download status is kept as the number;
  - the `Math.floor(score * 100)` labels are kept as the score.
- Rectangle geometry is over exact reals, an idealisation of IEEE doubles.
- Console logging in both files is not modelled.
- The UI's `default` case for an unknown event type only logs. The `Event` datatype has exactly the five event types, so it has no such case.
