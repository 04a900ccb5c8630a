/** The message protocol between the UI thread and the inference worker.
    Every message on the wire is `{ type, payload }`; `type` is the only
    dispatch key. */
module Protocol {

  datatype Option<+T> = None | Some(value: T)

  /** A bounding box as fractions of the image's width and height. */
  datatype Box = Box(xmin: real, ymin: real, xmax: real, ymax: real)

  /** One labelled, scored box produced by the detector (`name` is the
      detection's `label`, a reserved word in Dafny). */
  datatype Detection = Detection(name: string, score: real, box: Box)

  /** A progress record the engine reports while it fetches model files.
      The worker forwards it verbatim; the UI reads `status`, `file` and
      the optional `progress` percentage. */
  datatype Progress = Progress(status: string, file: string, progress: Option<real>)

  /** Worker -> UI messages. */
  datatype Event =
    | StatusUpdate(text: string)
    | DownloadProgress(data: Progress)
    | ModelReady
    | DetectionResult(output: seq<Detection>)
    | Error(message: string)

  /** The payload of a `DETECT` command; `imageSrc` may be absent. */
  datatype DetectPayload = DetectPayload(imageSrc: Option<string>)

  /** UI -> worker messages: a free-form `type` tag and an optional payload. */
  datatype Command = Command(kind: string, payload: Option<DetectPayload>)

  const LoadModelTag := "LOAD_MODEL"
  const DetectTag := "DETECT"

  /** `{ type: 'LOAD_MODEL' }` */
  function LoadModel(): Command {
    Command(LoadModelTag, None)
  }

  /** `{ type: 'DETECT', payload: { imageSrc } }` */
  function Detect(imageSrc: string): Command {
    Command(DetectTag, Some(DetectPayload(Some(imageSrc))))
  }

  /** JavaScript truthiness of `message.payload && message.payload.imageSrc`:
      the payload and the image reference are present and the reference is
      not the empty string. */
  predicate HasImageData(payload: Option<DetectPayload>) {
    payload.Some? && payload.value.imageSrc.Some? && payload.value.imageSrc.value != ""
  }
}
