/** The `/count_eggs` endpoint: validates the request body, runs detection and turns the outcome
    into the JSON response. */
module App {
  import opened Wrappers
  import opened Tensors
  import opened Postprocessing
  import opened Detection

  /** A parsed JSON request body. */
  datatype Json =
    | JNull
    | JBool(b: bool)
    | JNumber(n: real)
    | JString(s: string)
    | JArray(items: seq<Json>)
    | JObject(fields: map<string, Json>)

  /** Python truthiness of a decoded JSON value. */
  predicate Truthy(j: Json)
    ensures !Truthy(j) <==>
      j in {JNull, JBool(false), JNumber(0.0), JString(""), JArray([]), JObject(map[])}
  {
    match j
    case JNull => false
    case JBool(b) => b
    case JNumber(n) => n != 0.0
    case JString(s) => s != ""
    case JArray(items) => |items| > 0
    case JObject(fields) => |fields| > 0
  }

  /** The `image_path` of the body when the body is an object and the value is truthy. */
  function ImagePath(body: Json): (r: Option<Json>)
    ensures r.Some? <==> body.JObject? && "image_path" in body.fields && Truthy(body.fields["image_path"])
    ensures r.Some? ==> r.value == body.fields["image_path"]
  {
    if body.JObject? && "image_path" in body.fields && Truthy(body.fields["image_path"]) then
      Some(body.fields["image_path"])
    else
      None
  }

  const NoImagePathError: string := "No image path provided"
  const NoEggsInfo: string := "No eggs detected"
  const PathNotTextError: string := "image path is not a string"

  /** One entry of `detections`. */
  datatype EggRecord = EggRecord(eggId: nat, boundingBox: seq<real>, confidence: real)

  /** The endpoint's answers: a 400 or 500 JSON error, an exception that escapes the handler
      (answered by the framework with a 500 page), or a 200 count. */
  datatype Response =
    | BadRequest(error: string)
    | DetectionFailed(error: string)
    | Unhandled(error: string)
    | Counted(eggCount: nat, detections: seq<EggRecord>, info: Option<string>)

  function StatusCode(r: Response): (code: nat)
    ensures code == 200 <==> r.Counted?
    ensures code == 400 <==> r.BadRequest?
  {
    match r
    case BadRequest(_) => 400
    case DetectionFailed(_) => 500
    case Unhandled(_) => 500
    case Counted(_, _, _) => 200
  }

  function Corners(b: Box): seq<real>
  {
    [b.x1, b.y1, b.x2, b.y2]
  }

  /** The confidence reported for box `i`: its score when there is one, else 1.0. */
  function Confidence(d: DetectionResult, i: nat): (c: real)
    ensures i < |d.scores| ==> c == d.scores[i]
    ensures i >= |d.scores| ==> c == 1.0
    ensures |d.scores| == |d.boxes| && i < |d.boxes| ==> c == d.scores[i]
  {
    if i < |d.scores| then d.scores[i] else 1.0
  }

  /** How a detection outcome is reported. */
  predicate Reports(resp: Response, outcome: Result<DetectionOutput>)
    ensures Reports(resp, outcome) ==> (resp.Counted? <==> outcome.Success?)
    ensures Reports(resp, outcome) ==> StatusCode(resp) == (if outcome.Success? then 200 else 500)
    ensures Reports(resp, outcome) && resp.Counted? ==>
      resp.eggCount == |resp.detections| &&
      forall i :: 0 <= i < |resp.detections| ==> resp.detections[i].eggId == i + 1
  {
    match outcome
    case Failure(e) => resp == DetectionFailed(e)
    case Success(DetectionOutput(None, _)) => resp == Counted(0, [], Some(NoEggsInfo))
    case Success(DetectionOutput(Some(d), _)) =>
      resp.Counted? && resp.info.None? && resp.eggCount == |d.boxes| &&
      |resp.detections| == |d.boxes| &&
      forall i :: 0 <= i < |resp.detections| ==>
        resp.detections[i] == EggRecord(i + 1, Corners(d.boxes[i]), Confidence(d, i))
  }

  /** A detection outcome determines its response. */
  lemma ReportsDeterministic(r1: Response, r2: Response, outcome: Result<DetectionOutput>)
    requires Reports(r1, outcome) && Reports(r2, outcome)
    ensures r1 == r2
  {
  }

  /** The request handler. `localize` turns a path or URL into a local file (a `Failure` is an
      exception raised before detection starts); `load` decodes the image. */
  method CountEggs(body: Json, localize: string -> Result<string>, load: string -> Result<LoadedImage>,
                   session: Session, threshold: real) returns (resp: Response)
    ensures match ImagePath(body)
      case None => resp == BadRequest(NoImagePathError)
      case Some(JString(p)) =>
        (match localize(p)
         case Failure(e) => resp == Unhandled(e)
         case Success(local) => Reports(resp, Detect(load(local), session, threshold)))
      case Some(_) => resp == Unhandled(PathNotTextError)
  {
    var path := ImagePath(body);
    if path.None? {
      return BadRequest(NoImagePathError);
    }
    if !path.value.JString? {
      return Unhandled(PathNotTextError);
    }
    var local := localize(path.value.s);
    if local.Failure? {
      return Unhandled(local.error);
    }
    var outcome := RunDetection(load(local.value), session, threshold);
    if outcome.Failure? {
      return DetectionFailed(outcome.error);
    }
    if outcome.value.result.None? {
      return Counted(0, [], Some(NoEggsInfo));
    }
    var d := outcome.value.result.value;
    var detections: seq<EggRecord> := [];
    for i := 0 to |d.boxes|
      invariant |detections| == i
      invariant forall k :: 0 <= k < i ==> detections[k] == EggRecord(k + 1, Corners(d.boxes[k]), Confidence(d, k))
    {
      var confidence := if i < |d.scores| then d.scores[i] else 1.0;
      detections := detections + [EggRecord(i + 1, Corners(d.boxes[i]), confidence)];
    }
    resp := Counted(|d.boxes|, detections, None);
  }

  /** For a response the pipeline produced, ids run 1, 2, ..., every confidence is the box's own
      score and at least the threshold, and a count without an info message is positive. */
  lemma PipelineReportsOwnScores(resp: Response, image: Result<LoadedImage>, session: Session, threshold: real)
    requires Reports(resp, Detect(image, session, threshold))
    requires resp.Counted? && resp.info.None?
    ensures resp.eggCount > 0
    ensures forall i :: 0 <= i < |resp.detections| ==>
      resp.detections[i].eggId == i + 1 && resp.detections[i].confidence >= threshold
  {
    ReportedScoresPassThreshold(image, session, threshold);
  }
}
