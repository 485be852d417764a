/** `LabelStudioMLPredictor.postprocess_response` of cli.py: what a model's
    `predict` returned becomes the list of prediction dicts to submit, or
    None.

    label_studio_ml's ModelResponse is not part of this model. Its version
    methods are modelled after that library: `has_model_version` is the
    truthiness of the response's version, `update_predictions_version`
    gives every prediction without a (truthy) version the response's
    version, and `set_version(v)` sets the response's version to v and then
    does the same; `model_dump` turns each prediction into a dict with the
    keys "result", "score" and "model_version". */
module ResponseReconciler {
  import opened Wrappers
  import opened JsonValues

  datatype PredictionValue = PredictionValue(result: seq<Json>, score: Option<real>, modelVersion: Option<string>)

  datatype ModelResponse = ModelResponse(modelVersion: Option<string>, predictions: seq<PredictionValue>)

  /** The shapes `predict` may return: None, a ModelResponse, a list of
      prediction dicts (the older format), or anything else. */
  datatype Response =
    | NoResponse
    | Structured(response: ModelResponse)
    | Legacy(items: seq<Json>)
    | Unrecognized(value: Json)

  /** Python truthiness of an optional string. */
  predicate Truthy(v: Option<string>) {
    v.Some? && v.value != ""
  }

  predicate HasModelVersion(r: ModelResponse) {
    Truthy(r.modelVersion)
  }

  function UpdatePredictionsVersion(r: ModelResponse): ModelResponse {
    var ps := r.predictions;
    r.(predictions := seq(|ps|, k requires 0 <= k < |ps| =>
         if Truthy(ps[k].modelVersion) then ps[k] else ps[k].(modelVersion := r.modelVersion)))
  }

  function SetVersion(r: ModelResponse, version: string): ModelResponse {
    UpdatePredictionsVersion(r.(modelVersion := Some(version)))
  }

  function Dump(p: PredictionValue): Json {
    JObject(map["result" := JList(p.result),
                "score" := OptReal(p.score),
                "model_version" := OptString(p.modelVersion)])
  }

  /** The response after the version handling of cli.py:86-92. */
  function Versioned(modelVersion: Option<string>, r: ModelResponse): ModelResponse {
    if !HasModelVersion(r) then
      if Truthy(modelVersion) then SetVersion(r, modelVersion.value) else r
    else UpdatePredictionsVersion(r)
  }

  /** `postprocess_response(model, response, task)`, with `model.model_version`
      as the parameter modelVersion. None and unrecognised shapes give None,
      a list passes through as it is, and a ModelResponse gives its
      predictions, one dict per prediction. */
  function Postprocess(modelVersion: Option<string>, response: Response): (r: Option<seq<Json>>)
    ensures r.None? <==> response.NoResponse? || response.Unrecognized?
    ensures response.Legacy? ==> r == Some(response.items)
    ensures response.Structured? ==> |r.value| == |response.response.predictions|
  {
    match response
    case NoResponse => None
    case Structured(resp) =>
      var ps := Versioned(modelVersion, resp).predictions;
      Some(seq(|ps|, k requires 0 <= k < |ps| => Dump(ps[k])))
    case Legacy(items) => Some(items)
    case Unrecognized(_) => None
  }

  /** The dict submitted for a prediction whose version became `version`: the
      prediction's result and score, untouched by the version handling. */
  predicate DumpedWith(j: Json, p: PredictionValue, version: Option<string>) {
    && j.JObject?
    && Lookup(j, "result") == Some(JList(p.result))
    && Lookup(j, "score") == Some(OptReal(p.score))
    && Lookup(j, "model_version") == Some(OptString(version))
  }

  /** No version on the response and a truthy model version v: every
      prediction that had no version of its own now carries v, the others
      keep theirs, so every submitted dict has a non-empty version. */
  lemma RunVersionStamped(modelVersion: Option<string>, resp: ModelResponse)
    requires !HasModelVersion(resp) && Truthy(modelVersion)
    ensures var out := Postprocess(modelVersion, Structured(resp)).value;
            && |out| == |resp.predictions|
            && forall k :: 0 <= k < |out| ==>
                 var p := resp.predictions[k];
                 && DumpedWith(out[k], p, if Truthy(p.modelVersion) then p.modelVersion else modelVersion)
                 && exists v :: v != "" && Lookup(out[k], "model_version") == Some(JStr(v))
  {
    var out := Postprocess(modelVersion, Structured(resp)).value;
    forall k | 0 <= k < |out|
      ensures exists v :: v != "" && Lookup(out[k], "model_version") == Some(JStr(v))
    {
      var p := resp.predictions[k];
      var v := if Truthy(p.modelVersion) then p.modelVersion.value else modelVersion.value;
      assert Lookup(out[k], "model_version") == Some(JStr(v));
    }
  }

  /** No version anywhere: the predictions are submitted as they are. */
  lemma UnversionedLeftAlone(modelVersion: Option<string>, resp: ModelResponse)
    requires !HasModelVersion(resp) && !Truthy(modelVersion)
    ensures var out := Postprocess(modelVersion, Structured(resp)).value;
            && |out| == |resp.predictions|
            && forall k :: 0 <= k < |out| ==> out[k] == Dump(resp.predictions[k])
  {
  }

  /** A response with its own version w: the model's version is ignored, and
      each prediction keeps its own version or takes w. */
  lemma ResponseVersionPropagated(modelVersion: Option<string>, resp: ModelResponse)
    requires HasModelVersion(resp)
    ensures var out := Postprocess(modelVersion, Structured(resp)).value;
            && |out| == |resp.predictions|
            && out == Postprocess(None, Structured(resp)).value
            && forall k :: 0 <= k < |out| ==>
                 var p := resp.predictions[k];
                 DumpedWith(out[k], p, if Truthy(p.modelVersion) then p.modelVersion else resp.modelVersion)
  {
  }
}
