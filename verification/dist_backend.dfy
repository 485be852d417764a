/** `YOLO.predict` of the packaged copy under dist/label-studio-ml-backend,
    which repeats model.py's line for line. It is written here the way the
    source runs it, as two nested loops with a running region list, a
    running score and the enumerate counter `i` that outlives the loops,
    and is proved to return exactly what YoloBackend.Predict returns, so
    every property proved of that function holds for this copy too. */
module DistBackend {
  import opened Wrappers
  import opened JsonValues
  import opened YoloBackend

  method Predict(backend: Backend, tasks: seq<Json>, detect: Json -> Option<Detection>)
    returns (r: Result<seq<Prediction>, PredictError>)
    ensures r == YoloBackend.Predict(backend, tasks, detect)
    ensures r.Success? ==> |r.value| == 1 && r.value[0].modelVersion == backend.modelVersion
  {
    if |tasks| == 0 {
      return Failure(NoTasks);
    }
    var task := tasks[0];
    var found := detect(task);
    if found.None? {
      return Failure(ImageUnavailable);
    }
    var d := found.value;
    var visited := VisitResults(backend, d);
    if visited.Failure? {
      return Failure(visited.error);
    }
    var (predictions, score, i) := visited.value;
    r := Success([Prediction(predictions, score / ((i + 1) as real), backend.modelVersion)]);
  }

  /** The outer loop over the detector's results: the regions of all boxes,
      the running score and the final value of `i`, or the error of the first
      box whose region raises. */
  method VisitResults(backend: Backend, d: Detection) returns (r: Result<(seq<Region>, real, nat), PredictError>)
    ensures r.Success? ==> BuildRegions(backend, d.width, d.height, Flatten(d.results)) == Success(r.value.0)
    ensures r.Success? ==> r.value.1 == SumConf(d.results) && r.value.2 == LastIndex(d.results)
    ensures r.Failure? ==> BuildRegions(backend, d.width, d.height, Flatten(d.results)) == Failure(r.error)
  {
    var results := d.results;
    var predictions: seq<Region> := [];
    var score := 0.0;
    var i: nat := 0;
    var j := 0;
    while j < |results|
      invariant 0 <= j <= |results|
      invariant BuildRegions(backend, d.width, d.height, Flatten(results[..j])) == Success(predictions)
      invariant score == SumConf(results[..j])
      invariant i == LastIndex(results[..j])
    {
      ResultsStep(results, j);
      var step := VisitBoxes(backend, d.width, d.height, Flatten(results[..j]), results[j], predictions, score, i);
      if step.Failure? {
        FailureOfResults(backend, d, j + 1, step.error);
        return Failure(step.error);
      }
      predictions, score, i := step.value.0, step.value.1, step.value.2;
      j := j + 1;
    }
    assert results[..j] == results;
    return Success((predictions, score, i));
  }

  /** The inner loop over the boxes of one result, continuing from the
      regions of the boxes visited before, the running score and the counter
      `i`. On success it returns their new values; on failure, the error of
      the first box whose region raises. */
  method VisitBoxes(backend: Backend, w: nat, h: nat, before: seq<(nat, Box)>, boxes: seq<Box>,
                    predictions: seq<Region>, score: real, i: nat)
    returns (r: Result<(seq<Region>, real, nat), PredictError>)
    requires BuildRegions(backend, w, h, before) == Success(predictions)
    ensures r.Success? ==> BuildRegions(backend, w, h, before + Enumerate(boxes)) == Success(r.value.0)
    ensures r.Success? ==> r.value.1 == score + SumBoxes(boxes)
    ensures r.Success? ==> r.value.2 == if |boxes| == 0 then i else |boxes| - 1
    ensures r.Failure? ==> BuildRegions(backend, w, h, before + Enumerate(boxes)) == Failure(r.error)
  {
    var regions := predictions;
    var total := score;
    var last := i;
    var m := 0;
    assert before + Enumerate(boxes)[..m] == before;
    while m < |boxes|
      invariant 0 <= m <= |boxes|
      invariant BuildRegions(backend, w, h, before + Enumerate(boxes)[..m]) == Success(regions)
      invariant total == score + SumBoxes(boxes[..m])
      invariant last == if m == 0 then i else m - 1
    {
      last := m;
      var region := MakeRegion(backend, w, h, m, boxes[m]);
      VisitStep(backend, w, h, before, boxes, m, regions);
      if region.Failure? {
        return Failure(region.error);
      }
      regions := regions + [region.value];
      SumBoxesStep(boxes, m);
      total := total + boxes[m].conf;
      m := m + 1;
    }
    assert Enumerate(boxes)[..m] == Enumerate(boxes);
    assert boxes[..m] == boxes;
    return Success((regions, total, last));
  }

  /** Box m of a result extends the regions built so far by its own region,
      or its error is that of the whole result. */
  lemma VisitStep(backend: Backend, w: nat, h: nat, before: seq<(nat, Box)>, boxes: seq<Box>, m: nat, regions: seq<Region>)
    requires m < |boxes|
    requires BuildRegions(backend, w, h, before + Enumerate(boxes)[..m]) == Success(regions)
    ensures MakeRegion(backend, w, h, m, boxes[m]).Failure? ==>
      BuildRegions(backend, w, h, before + Enumerate(boxes)) == Failure(MakeRegion(backend, w, h, m, boxes[m]).error)
    ensures MakeRegion(backend, w, h, m, boxes[m]).Success? ==>
      BuildRegions(backend, w, h, before + Enumerate(boxes)[..m + 1]) == Success(regions + [MakeRegion(backend, w, h, m, boxes[m]).value])
  {
    var visited := before + Enumerate(boxes)[..m];
    assert Enumerate(boxes)[..m + 1] == Enumerate(boxes)[..m] + [(m, boxes[m])];
    assert visited + [(m, boxes[m])] == before + Enumerate(boxes)[..m + 1];
    BuildRegionsStep(backend, w, h, visited, (m, boxes[m]), regions);
    if MakeRegion(backend, w, h, m, boxes[m]).Failure? {
      PrefixFailure(backend, w, h, before, boxes, m + 1, MakeRegion(backend, w, h, m, boxes[m]).error);
    }
  }

  /** Visiting one more box extends the regions by that box's region, or
      stops with its error. */
  lemma BuildRegionsStep(backend: Backend, w: nat, h: nat, items: seq<(nat, Box)>, x: (nat, Box), rs: seq<Region>)
    requires BuildRegions(backend, w, h, items) == Success(rs)
    ensures MakeRegion(backend, w, h, x.0, x.1).Failure? ==>
      BuildRegions(backend, w, h, items + [x]) == Failure(MakeRegion(backend, w, h, x.0, x.1).error)
    ensures MakeRegion(backend, w, h, x.0, x.1).Success? ==>
      BuildRegions(backend, w, h, items + [x]) == Success(rs + [MakeRegion(backend, w, h, x.0, x.1).value])
  {
    assert (items + [x])[..|items|] == items;
  }

  /** What one more result adds to the visited boxes, the score and `i`. */
  lemma ResultsStep(results: seq<seq<Box>>, j: nat)
    requires j < |results|
    ensures Flatten(results[..j + 1]) == Flatten(results[..j]) + Enumerate(results[j])
    ensures SumConf(results[..j + 1]) == SumConf(results[..j]) + SumBoxes(results[j])
    ensures LastIndex(results[..j + 1]) == if |results[j]| == 0 then LastIndex(results[..j]) else |results[j]| - 1
  {
    assert results[..j + 1][..j] == results[..j];
  }

  lemma SumBoxesStep(boxes: seq<Box>, m: nat)
    requires m < |boxes|
    ensures SumBoxes(boxes[..m + 1]) == SumBoxes(boxes[..m]) + boxes[m].conf
  {
    assert boxes[..m + 1][..m] == boxes[..m];
  }

  /** A failure among the first n boxes of a result is the failure of the
      whole result. */
  lemma PrefixFailure(backend: Backend, w: nat, h: nat, before: seq<(nat, Box)>, boxes: seq<Box>, n: nat, e: PredictError)
    requires n <= |boxes|
    requires BuildRegions(backend, w, h, before + Enumerate(boxes)[..n]) == Failure(e)
    ensures BuildRegions(backend, w, h, before + Enumerate(boxes)) == Failure(e)
  {
    var all := Enumerate(boxes);
    assert before + all == (before + all[..n]) + all[n..] by { assert all == all[..n] + all[n..]; }
    BuildRegionsFailurePersists(backend, w, h, before + all[..n], all[n..]);
  }

  /** A failure among the first n results is the failure of the whole call. */
  lemma FailureOfResults(backend: Backend, d: Detection, n: nat, e: PredictError)
    requires n <= |d.results|
    requires BuildRegions(backend, d.width, d.height, Flatten(d.results[..n])) == Failure(e)
    ensures BuildRegions(backend, d.width, d.height, Flatten(d.results)) == Failure(e)
  {
    var rs := d.results;
    FlattenAppend(rs[..n], rs[n..]);
    assert rs[..n] + rs[n..] == rs;
    BuildRegionsFailurePersists(backend, d.width, d.height, Flatten(rs[..n]), Flatten(rs[n..]));
  }

  lemma {:induction false} BuildRegionsFailurePersists(backend: Backend, w: nat, h: nat, items: seq<(nat, Box)>, more: seq<(nat, Box)>)
    requires BuildRegions(backend, w, h, items).Failure?
    ensures BuildRegions(backend, w, h, items + more) == BuildRegions(backend, w, h, items)
  {
    if |more| > 0 {
      var n := |more| - 1;
      BuildRegionsFailurePersists(backend, w, h, items, more[..n]);
      assert (items + more)[..|items + more| - 1] == items + more[..n];
    } else {
      assert items + more == items;
    }
  }

  lemma {:induction false} FlattenAppend(a: seq<seq<Box>>, b: seq<seq<Box>>)
    ensures Flatten(a + b) == Flatten(a) + Flatten(b)
  {
    if |b| > 0 {
      var n := |b| - 1;
      FlattenAppend(a, b[..n]);
      assert (a + b)[..|a + b| - 1] == a + b[..n];
    } else {
      assert a + b == a;
    }
  }
}
