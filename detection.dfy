/** `run_detection`: preprocessing result in, inference through the model session, resolution
    of its outputs, postprocessing, and the fixed label list. */
module Detection {
  import opened Wrappers
  import opened Tensors
  import opened Resolver
  import opened InferenceInputs
  import opened Postprocessing

  /** A decoded image: the model-ready `(1,3,640,640)` tensor and the original size in pixels. */
  datatype LoadedImage = LoadedImage(tensor: Tensor, width: nat, height: nat)

  /** Scale factors from model-input space back to the original image. */
  function ScaleFactors(img: LoadedImage): (r: (real, real))
    ensures r.0 * InputSide == img.width as real && r.1 * InputSide == img.height as real
  {
    (img.width as real / InputSide, img.height as real / InputSide)
  }

  /** The model session: its declared inputs and its inference call (a `Failure` models an
      exception raised by the runtime). */
  datatype Session = Session(declared: seq<DeclaredInput>, run: map<string, Tensor> -> Result<seq<Tensor>>)

  /** Class names exposed for every outcome. */
  const Labels: seq<string> := ["egg"]

  datatype DetectionOutput = DetectionOutput(result: Option<DetectionResult>, labels: seq<string>)

  /** Reference definition of `run_detection`; `image` is the outcome of loading the image. */
  function Detect(image: Result<LoadedImage>, session: Session, threshold: real): (r: Result<DetectionOutput>)
    ensures r.Success? ==> r.value.labels == ["egg"]
    ensures image.Failure? ==> r == Failure(image.error)
    ensures image.Success? && |session.declared| == 0 ==> r == Failure(NoInputError)
    ensures r.Success? && r.value.result.Some? ==>
      var d := r.value.result.value;
      |d.boxes| > 0 && |d.scores| == |d.boxes| && |d.classes| == |d.boxes|
  {
    match image
    case Failure(e) => Failure(e)
    case Success(img) =>
      var (sx, sy) := ScaleFactors(img);
      match Feeds(session.declared, img.tensor)
      case Failure(e) => Failure(e)
      case Success(inputs) =>
        match session.run(inputs)
        case Failure(e) => Failure(e)
        case Success(outputs) =>
          Success(DetectionOutput(Postprocessed(Resolve(outputs), sx, sy, threshold), Labels))
  }

  /** The detection pipeline, stage by stage. */
  method RunDetection(image: Result<LoadedImage>, session: Session, threshold: real) returns (r: Result<DetectionOutput>)
    ensures r == Detect(image, session, threshold)
  {
    if image.Failure? {
      return Failure(image.error);
    }
    var img := image.value;
    var (sx, sy) := ScaleFactors(img);
    var inputs := BuildInputs(session.declared, img.tensor);
    if inputs.Failure? {
      return Failure(inputs.error);
    }
    var outputs := session.run(inputs.value);
    if outputs.Failure? {
      return Failure(outputs.error);
    }
    var sel := SelectArrays(outputs.value);
    if sel.boxes.None? {
      return Success(DetectionOutput(None, Labels));
    }
    var result := Postprocess(sel, sx, sy, threshold);
    r := Success(DetectionOutput(result, Labels));
  }

  /** Outputs in which no squeezed tensor is 2-D with last dimension 4, 5 or 6 give "no
      detections", which is a success and not an error. */
  lemma NoCandidateOutputsGiveNoDetections(image: Result<LoadedImage>, session: Session, threshold: real)
    requires image.Success? && |session.declared| > 0
    requires var inputs := Feeds(session.declared, image.value.tensor).value;
      var outputs := session.run(inputs);
      outputs.Success? &&
      forall j :: 0 <= j < |outputs.value| ==>
        var t := SqueezeBatch(outputs.value[j]);
        !(|t.shape| == 2 && 4 <= t.shape[1] <= 6)
    ensures Detect(image, session, threshold) == Success(DetectionOutput(None, ["egg"]))
  {
  }

  /** Every reported detection passed the threshold and has its own score, so the 1.0 default
      confidence of the response is never used. */
  lemma ReportedScoresPassThreshold(image: Result<LoadedImage>, session: Session, threshold: real)
    requires Detect(image, session, threshold).Success?
    requires Detect(image, session, threshold).value.result.Some?
    ensures var d := Detect(image, session, threshold).value.result.value;
      |d.scores| == |d.boxes| && forall i :: 0 <= i < |d.scores| ==> d.scores[i] >= threshold
  {
  }
}
