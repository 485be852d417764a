/** `LabelStudioMLPredictor.run` of cli.py: resolve the tasks, then for each
    task in order ask the model for predictions, reconcile the response, and
    call `ls.predictions.create` once per prediction.

    The calls to `ls.predictions.create` that return are the entries of an
    append-only log; the model's `predict([task])` is the parameter
    `predict`, None where it raises, and whether the SDK call returns for a
    given submission is the parameter `create`, false where it raises. Any
    exception ends the run, and the submissions made before it stand. */
module BatchRunner {
  import opened Wrappers
  import opened JsonValues
  import opened TaskResolver
  import opened ResponseReconciler
  import YoloBackend

  /** The arguments of one `ls.predictions.create` call. */
  datatype Submission = Submission(task: Json, score: Json, modelVersion: Json, result: Json)

  datatype RunError =
    | TasksRejected(reason: TaskError)
    | PredictRaised(task: Json)
    | NoPredictions(task: Json)            // the loop iterates over None: TypeError
    | TaskIdUnavailable(task: Json)        // task["id"] raised
    | PredictionNotADict(prediction: Json) // prediction.get raised
    | ResultMissing(prediction: Json)      // prediction["result"] raised
    | CreateFailed(submission: Submission) // ls.predictions.create raised

  /** The submissions made, and the error that ended the run early, if any. */
  datatype Outcome = Outcome(log: seq<Submission>, error: Option<RunError>)

  /** The `create` call for prediction p of task, its arguments evaluated in
      source order: `task["id"]`, the score (0 when absent), the model version
      ("none" when absent), then `prediction["result"]`. */
  function SubmissionFor(task: Json, p: Json): (r: Result<Submission, RunError>)
    ensures r.Success? <==> task.JObject? && "id" in task.fields && p.JObject? && "result" in p.fields
    ensures r.Success? ==> r.value.task == task.fields["id"] && r.value.result == p.fields["result"]
    ensures r.Success? ==> r.value.score == (if "score" in p.fields then p.fields["score"] else JInt(0))
    ensures r.Success? ==>
      r.value.modelVersion == (if "model_version" in p.fields then p.fields["model_version"] else JStr("none"))
  {
    match Lookup(task, "id")
    case None => Failure(TaskIdUnavailable(task))
    case Some(id) =>
      match (GetOr(p, "score", JInt(0)), GetOr(p, "model_version", JStr("none")))
      case (Some(score), Some(version)) =>
        (match Lookup(p, "result")
         case None => Failure(ResultMissing(p))
         case Some(result) => Success(Submission(id, score, version, result)))
      case _ => Failure(PredictionNotADict(p))
  }

  /** Evaluating the arguments of the `create` call for prediction p, then
      making it: the submission is logged only when the call returns. */
  function Submit(task: Json, p: Json, create: Submission -> bool): (r: Result<Submission, RunError>)
    ensures r.Success? <==> SubmissionFor(task, p).Success? && create(SubmissionFor(task, p).value)
    ensures r.Success? ==> r == SubmissionFor(task, p)
    ensures SubmissionFor(task, p).Failure? ==> r == Failure(SubmissionFor(task, p).error)
    ensures SubmissionFor(task, p).Success? && r.Failure? ==> r.error == CreateFailed(SubmissionFor(task, p).value)
  {
    var s :- SubmissionFor(task, p);
    if create(s) then Success(s) else Failure(CreateFailed(s))
  }

  /** The inner loop: one submission per prediction, in order, up to the
      first one that raises. */
  function SubmitEach(task: Json, preds: seq<Json>, create: Submission -> bool): (o: Outcome)
    ensures o.error.None? ==> |o.log| == |preds|
    ensures o.error.Some? ==> |o.log| < |preds|
  {
    if |preds| == 0 then Outcome([], None)
    else
      var n := |preds| - 1;
      var o := SubmitEach(task, preds[..n], create);
      if o.error.Some? then o
      else
        match Submit(task, preds[n], create)
        case Failure(e) => Outcome(o.log, Some(e))
        case Success(s) => Outcome(o.log + [s], None)
  }

  /** The inner loop submits prediction k as entry k of its log; it ends
      early exactly at the first prediction whose call raises. */
  lemma {:induction false} SubmitEachElementwise(task: Json, preds: seq<Json>, create: Submission -> bool)
    ensures var o := SubmitEach(task, preds, create);
            && (o.error.None? <==> forall k :: 0 <= k < |preds| ==> Submit(task, preds[k], create).Success?)
            && (o.error.None? ==> forall k :: 0 <= k < |preds| ==> Submit(task, preds[k], create) == Success(o.log[k]))
            && (o.error.Some? ==>
                  var k := |o.log|;
                  && Submit(task, preds[k], create) == Failure(o.error.value)
                  && forall q :: 0 <= q < k ==> Submit(task, preds[q], create) == Success(o.log[q]))
  {
    if |preds| > 0 {
      var n := |preds| - 1;
      SubmitEachElementwise(task, preds[..n], create);
      assert forall k :: 0 <= k < n ==> preds[..n][k] == preds[k];
    }
  }

  /** The body of the outer loop for one task. */
  function RunTask(task: Json, predict: Json -> Option<Response>, modelVersion: Option<string>,
                   create: Submission -> bool): Outcome {
    match predict(task)
    case None => Outcome([], Some(PredictRaised(task)))
    case Some(response) =>
      match Postprocess(modelVersion, response)
      case None => Outcome([], Some(NoPredictions(task)))
      case Some(preds) => SubmitEach(task, preds, create)
  }

  /** The outer loop over the resolved tasks, up to the first task whose
      iteration raises. */
  function RunTasks(tasks: seq<Json>, predict: Json -> Option<Response>, modelVersion: Option<string>,
                    create: Submission -> bool): Outcome {
    if |tasks| == 0 then Outcome([], None)
    else
      var o := RunTasks(tasks[..|tasks| - 1], predict, modelVersion, create);
      if o.error.Some? then o
      else
        var t := RunTask(tasks[|tasks| - 1], predict, modelVersion, create);
        Outcome(o.log + t.log, t.error)
  }

  /** The whole of `run`: a rejected task specification ends it before any
      prediction. */
  function RunAll(spec: string, file: TaskFile, fetch: Json -> Option<Json>,
                  predict: Json -> Option<Response>, modelVersion: Option<string>,
                  create: Submission -> bool): Outcome {
    match PrepareTasks(spec, file, fetch)
    case Failure(e) => Outcome([], Some(TasksRejected(e)))
    case Success(tasks) => RunTasks(tasks, predict, modelVersion, create)
  }

  /** `run`, as the source's loops appending to the submission log. */
  method Run(spec: string, file: TaskFile, fetch: Json -> Option<Json>,
             predict: Json -> Option<Response>, modelVersion: Option<string>,
             create: Submission -> bool)
    returns (log: seq<Submission>, error: Option<RunError>)
    ensures Outcome(log, error) == RunAll(spec, file, fetch, predict, modelVersion, create)
    ensures PrepareTasks(spec, file, fetch).Failure? ==> log == [] && error.Some?
  {
    var resolved := PrepareTasks(spec, file, fetch);
    if resolved.Failure? {
      return [], Some(TasksRejected(resolved.error));
    }
    log, error := RunTaskLoop(resolved.value, predict, modelVersion, create);
  }

  /** The outer loop of `run` over the resolved tasks. */
  method RunTaskLoop(tasks: seq<Json>, predict: Json -> Option<Response>, modelVersion: Option<string>,
                     create: Submission -> bool)
    returns (log: seq<Submission>, error: Option<RunError>)
    ensures Outcome(log, error) == RunTasks(tasks, predict, modelVersion, create)
  {
    log := [];
    error := None;
    var i := 0;
    while i < |tasks|
      invariant 0 <= i <= |tasks|
      invariant RunTasks(tasks[..i], predict, modelVersion, create) == Outcome(log, None)
    {
      RunTasksStep(tasks, i, predict, modelVersion, create);
      var made, failed := RunOne(tasks[i], predict, modelVersion, create);
      log := log + made;
      if failed.Some? {
        error := failed;
        ErrorEndsRun(tasks, i + 1, predict, modelVersion, create);
        return;
      }
      i := i + 1;
    }
    assert tasks[..i] == tasks;
  }

  /** One more task extends the log of the earlier ones by its own. */
  lemma RunTasksStep(tasks: seq<Json>, i: nat, predict: Json -> Option<Response>, modelVersion: Option<string>,
                     create: Submission -> bool)
    requires i < |tasks| && RunTasks(tasks[..i], predict, modelVersion, create).error.None?
    ensures var t := RunTask(tasks[i], predict, modelVersion, create);
            RunTasks(tasks[..i + 1], predict, modelVersion, create) == Outcome(RunTasks(tasks[..i], predict, modelVersion, create).log + t.log, t.error)
  {
    assert tasks[..i + 1][..i] == tasks[..i];
  }

  /** One iteration of the outer loop: predict, reconcile, submit. */
  method RunOne(task: Json, predict: Json -> Option<Response>, modelVersion: Option<string>,
                create: Submission -> bool)
    returns (made: seq<Submission>, error: Option<RunError>)
    ensures Outcome(made, error) == RunTask(task, predict, modelVersion, create)
  {
    var response := predict(task);
    if response.None? {
      return [], Some(PredictRaised(task));
    }
    var predictions := Postprocess(modelVersion, response.value);
    if predictions.None? {
      return [], Some(NoPredictions(task));
    }
    made, error := SubmitAll(task, predictions.value, create);
  }

  /** The inner loop of `run` for one task. */
  method SubmitAll(task: Json, preds: seq<Json>, create: Submission -> bool) returns (made: seq<Submission>, error: Option<RunError>)
    ensures Outcome(made, error) == SubmitEach(task, preds, create)
  {
    made := [];
    error := None;
    var k := 0;
    while k < |preds|
      invariant 0 <= k <= |preds|
      invariant SubmitEach(task, preds[..k], create) == Outcome(made, None)
    {
      assert preds[..k + 1][..k] == preds[..k];
      var submission := SubmissionFor(task, preds[k]);
      if submission.Failure? {
        error := Some(submission.error);
        SubmitEachStops(task, preds, k + 1, create);
        return;
      }
      if !create(submission.value) {
        error := Some(CreateFailed(submission.value));
        SubmitEachStops(task, preds, k + 1, create);
        return;
      }
      made := made + [submission.value];
      k := k + 1;
    }
    assert preds[..k] == preds;
  }

  /** Once the inner loop has raised at some prediction, the later ones are
      not submitted. */
  lemma {:induction false} SubmitEachStops(task: Json, preds: seq<Json>, k: nat, create: Submission -> bool)
    requires k <= |preds|
    requires SubmitEach(task, preds[..k], create).error.Some?
    ensures SubmitEach(task, preds, create) == SubmitEach(task, preds[..k], create)
  {
    if k < |preds| {
      var n := |preds| - 1;
      assert preds[..n][..k] == preds[..k];
      SubmitEachStops(task, preds[..n], k, create);
    } else {
      assert preds[..k] == preds;
    }
  }

  /** Once a task's iteration has raised, no later task is looked at: the
      run ends with the log and error it had then. */
  lemma {:induction false} ErrorEndsRun(tasks: seq<Json>, j: nat, predict: Json -> Option<Response>, modelVersion: Option<string>,
                                        create: Submission -> bool)
    requires j <= |tasks|
    requires RunTasks(tasks[..j], predict, modelVersion, create).error.Some?
    ensures RunTasks(tasks, predict, modelVersion, create) == RunTasks(tasks[..j], predict, modelVersion, create)
  {
    if j < |tasks| {
      var n := |tasks| - 1;
      assert tasks[..n][..j] == tasks[..j];
      ErrorEndsRun(tasks[..n], j, predict, modelVersion, create);
      assert RunTasks(tasks[..n], predict, modelVersion, create).error.Some?;
    } else {
      assert tasks[..j] == tasks;
    }
  }

  /** Submissions already made stand: the log after the first j tasks is a
      prefix of the final log. */
  lemma {:induction false} SubmissionsStand(tasks: seq<Json>, j: nat, predict: Json -> Option<Response>, modelVersion: Option<string>,
                                            create: Submission -> bool)
    requires j <= |tasks|
    ensures RunTasks(tasks[..j], predict, modelVersion, create).log <= RunTasks(tasks, predict, modelVersion, create).log
  {
    if j < |tasks| {
      var n := |tasks| - 1;
      assert tasks[..n][..j] == tasks[..j];
      SubmissionsStand(tasks[..n], j, predict, modelVersion, create);
    } else {
      assert tasks[..j] == tasks;
    }
  }

  /** A task whose response reconciles to None ends the run instead of being
      skipped: the log is what the earlier tasks submitted. */
  lemma NoneResponseAbortsRun(tasks: seq<Json>, j: nat, predict: Json -> Option<Response>, modelVersion: Option<string>,
                              create: Submission -> bool)
    requires j < |tasks|
    requires RunTasks(tasks[..j], predict, modelVersion, create).error.None?
    requires predict(tasks[j]).Some? && Postprocess(modelVersion, predict(tasks[j]).value).None?
    ensures RunTasks(tasks, predict, modelVersion, create).error == Some(NoPredictions(tasks[j]))
    ensures RunTasks(tasks, predict, modelVersion, create).log == RunTasks(tasks[..j], predict, modelVersion, create).log
  {
    assert tasks[..j + 1][..j] == tasks[..j];
    ErrorEndsRun(tasks, j + 1, predict, modelVersion, create);
  }

  /** The predictions reconciled for a task, as the run sees them. */
  function PredictionsOf(task: Json, predict: Json -> Option<Response>, modelVersion: Option<string>): seq<Json> {
    match predict(task)
    case None => []
    case Some(response) =>
      match Postprocess(modelVersion, response)
      case None => []
      case Some(preds) => preds
  }

  function PredictionCount(tasks: seq<Json>, predict: Json -> Option<Response>, modelVersion: Option<string>): nat {
    if |tasks| == 0 then 0
    else PredictionCount(tasks[..|tasks| - 1], predict, modelVersion)
         + |PredictionsOf(tasks[|tasks| - 1], predict, modelVersion)|
  }

  /** Entry `base + k` of log is the submission for prediction k of task. */
  predicate SubmittedAt(log: seq<Submission>, base: nat, task: Json, preds: seq<Json>, k: nat,
                        create: Submission -> bool)
    requires k < |preds|
  {
    base + k < |log| && Submit(task, preds[k], create) == Success(log[base + k])
  }

  lemma SubmittedAtExtends(log: seq<Submission>, more: seq<Submission>, base: nat, task: Json, preds: seq<Json>, k: nat,
                           create: Submission -> bool)
    requires k < |preds| && SubmittedAt(log, base, task, preds, k, create)
    ensures SubmittedAt(log + more, base, task, preds, k, create)
  {
  }

  /** A task whose iteration ends without error submitted each of its
      predictions once, in order. */
  lemma TaskEntries(task: Json, predict: Json -> Option<Response>, modelVersion: Option<string>,
                    create: Submission -> bool, before: seq<Submission>)
    requires RunTask(task, predict, modelVersion, create).error.None?
    ensures var preds := PredictionsOf(task, predict, modelVersion);
            var log := before + RunTask(task, predict, modelVersion, create).log;
            && |RunTask(task, predict, modelVersion, create).log| == |preds|
            && forall k :: 0 <= k < |preds| ==> SubmittedAt(log, |before|, task, preds, k, create)
  {
    var preds := PredictionsOf(task, predict, modelVersion);
    assert RunTask(task, predict, modelVersion, create) == SubmitEach(task, preds, create);
    SubmitEachElementwise(task, preds, create);
  }

  /** A run that ends without error made one submission per prediction of
      every task, task by task in resolved order and prediction by
      prediction within a task: prediction k of task j is entry k after all
      submissions of the earlier tasks. */
  lemma {:induction false} CompleteRunLog(tasks: seq<Json>, predict: Json -> Option<Response>, modelVersion: Option<string>,
                                          create: Submission -> bool)
    requires RunTasks(tasks, predict, modelVersion, create).error.None?
    ensures |RunTasks(tasks, predict, modelVersion, create).log| == PredictionCount(tasks, predict, modelVersion)
    ensures forall j, k :: 0 <= j < |tasks| && 0 <= k < |PredictionsOf(tasks[j], predict, modelVersion)| ==>
      SubmittedAt(RunTasks(tasks, predict, modelVersion, create).log, PredictionCount(tasks[..j], predict, modelVersion),
                  tasks[j], PredictionsOf(tasks[j], predict, modelVersion), k, create)
  {
    if |tasks| > 0 {
      var n := |tasks| - 1;
      var prefix := tasks[..n];
      var o := RunTasks(prefix, predict, modelVersion, create);
      var t := RunTask(tasks[n], predict, modelVersion, create);
      CompleteRunLog(prefix, predict, modelVersion, create);
      TaskEntries(tasks[n], predict, modelVersion, create, o.log);
      var log := RunTasks(tasks, predict, modelVersion, create).log;
      assert log == o.log + t.log;
      forall j, k | 0 <= j < |tasks| && 0 <= k < |PredictionsOf(tasks[j], predict, modelVersion)|
        ensures SubmittedAt(log, PredictionCount(tasks[..j], predict, modelVersion),
                            tasks[j], PredictionsOf(tasks[j], predict, modelVersion), k, create)
      {
        if j < n {
          assert prefix[j] == tasks[j];
          assert prefix[..j] == tasks[..j];
          SubmittedAtExtends(o.log, t.log, PredictionCount(tasks[..j], predict, modelVersion),
                             tasks[j], PredictionsOf(tasks[j], predict, modelVersion), k, create);
        } else {
          assert tasks[..j] == prefix;
        }
      }
    }
  }

  // ---------------------------------------------------------------------
  // The run driven by model.py's YOLO backend

  function RectValueJson(v: YoloBackend.RectValue): Json {
    JObject(map["rotation" := JInt(v.rotation),
                "x" := JReal(v.x), "y" := JReal(v.y),
                "width" := JReal(v.width), "height" := JReal(v.height),
                "rectanglelabels" := JList(seq(|v.rectanglelabels|, k requires 0 <= k < |v.rectanglelabels| =>
                                                 JStr(v.rectanglelabels[k])))])
  }

  function RegionJson(r: YoloBackend.Region): Json {
    JObject(map["id" := JStr(r.id), "from_name" := JStr(r.fromName), "to_name" := JStr(r.toName),
                "type" := JStr(r.regionType), "score" := JReal(r.score),
                "original_width" := JInt(r.originalWidth), "original_height" := JInt(r.originalHeight),
                "image_rotation" := JInt(r.imageRotation), "value" := RectValueJson(r.value)])
  }

  function RegionsJson(regions: seq<YoloBackend.Region>): Json {
    JList(seq(|regions|, k requires 0 <= k < |regions| => RegionJson(regions[k])))
  }

  /** The dict `YOLO.predict` returns for a prediction. */
  function PredictionJson(p: YoloBackend.Prediction): Json {
    JObject(map["result" := RegionsJson(p.result), "score" := JReal(p.score),
                "model_version" := OptString(p.modelVersion)])
  }

  /** `model.predict([task])` with model.py's backend: a plain list (the older
      format), or None where it raises. */
  function YoloPredictor(backend: YoloBackend.Backend, detect: Json -> Option<YoloBackend.Detection>): Json -> Option<Response> {
    (task: Json) =>
      match YoloBackend.Predict(backend, [task], detect)
      case Failure(_) => None
      case Success(ps) => Some(Legacy(seq(|ps|, k requires 0 <= k < |ps| => PredictionJson(ps[k]))))
  }

  /** With model.py's backend, a task with an id that predicts successfully
      gets exactly one `create` call: the prediction's score and regions, and
      its model version, null when MODEL_VERSION is unset (the key is present,
      so the "none" default never applies); the call either returns or ends
      the run. A task whose prediction raises ends the run with nothing
      submitted for it. */
  lemma YoloTaskSubmission(backend: YoloBackend.Backend, detect: Json -> Option<YoloBackend.Detection>,
                           task: Json, modelVersion: Option<string>, create: Submission -> bool)
    requires task.JObject? && "id" in task.fields
    ensures var o := RunTask(task, YoloPredictor(backend, detect), modelVersion, create);
            match YoloBackend.Predict(backend, [task], detect)
            case Failure(_) => o == Outcome([], Some(PredictRaised(task)))
            case Success(ps) =>
              var s := Submission(task.fields["id"], JReal(ps[0].score),
                                  OptString(backend.modelVersion), RegionsJson(ps[0].result));
              o == if create(s) then Outcome([s], None) else Outcome([], Some(CreateFailed(s)))
  {
    match YoloBackend.Predict(backend, [task], detect)
    case Failure(_) =>
    case Success(ps) =>
      var preds := seq(|ps|, k requires 0 <= k < |ps| => PredictionJson(ps[k]));
      assert YoloPredictor(backend, detect)(task) == Some(Legacy(preds));
      assert preds == [PredictionJson(ps[0])];
      PredictionSubmission(task, ps[0]);
      SubmitEachSingle(task, PredictionJson(ps[0]), create);
  }

  /** The `create` call for a prediction of model.py's backend. */
  lemma PredictionSubmission(task: Json, p: YoloBackend.Prediction)
    requires task.JObject? && "id" in task.fields
    ensures SubmissionFor(task, PredictionJson(p))
         == Success(Submission(task.fields["id"], JReal(p.score), OptString(p.modelVersion), RegionsJson(p.result)))
  {
  }

  lemma SubmitEachSingle(task: Json, p: Json, create: Submission -> bool)
    ensures SubmitEach(task, [p], create) == match Submit(task, p, create)
                                     case Failure(e) => Outcome([], Some(e))
                                     case Success(s) => Outcome([s], None)
  {
    assert [p][..0] == [];
  }
}
