/** `YOLO.predict` and `YOLO.fit` of model.py: the detector's boxes for the
    first task become Label Studio `rectanglelabels` regions, gathered into a
    single prediction with an aggregate score and the model version.

    The image download, its decoding and the YOLO inference are one
    collaborator `detect`: it maps a task to the image size and the
    detector's results (one list of boxes per result), or to None when any
    of those steps raises. */
module YoloBackend {
  import opened Wrappers
  import opened Text
  import opened Geometry
  import opened JsonValues

  /** One detected box: pixel corners, confidence and class index. */
  datatype Box = Box(xyxy: Corners, conf: real, cls: int)

  /** What the image and the detector yield for a task. */
  datatype Detection = Detection(width: nat, height: nat, results: seq<seq<Box>>)

  /** The state `setup` leaves behind: control tag names, the detector's
      label table in class order, and the MODEL_VERSION setting. */
  datatype Backend = Backend(fromName: string, toName: string, labels: seq<string>,
                             modelVersion: Option<string>)

  datatype RectValue = RectValue(rotation: int, x: real, y: real, width: real, height: real,
                                 rectanglelabels: seq<string>)

  datatype Region = Region(id: string, fromName: string, toName: string, regionType: string,
                           score: real, originalWidth: nat, originalHeight: nat,
                           imageRotation: int, value: RectValue)

  /** The one dict `predict` returns: `result`, `score`, `model_version`. */
  datatype Prediction = Prediction(result: seq<Region>, score: real, modelVersion: Option<string>)

  datatype PredictError =
    | NoTasks                        // tasks[0] on an empty list
    | ImageUnavailable               // image fetch, decoding or inference raised
    | ZeroDivision                   // a box on an image of width or height 0
    | LabelIndexOutOfRange(cls: int) // labels[cls] raised IndexError

  const RectangleLabels: string := "rectanglelabels"

  /** Python's `labels[cls]`: negative indices count from the end. */
  function LabelAt(labels: seq<string>, cls: int): (r: Option<string>)
    ensures r.Some? <==> -|labels| <= cls < |labels|
    ensures 0 <= cls < |labels| ==> r == Some(labels[cls])
    ensures -|labels| <= cls < 0 ==> r == Some(labels[|labels| + cls])
    ensures r.Some? ==> r == Some(labels[cls % |labels|])
  {
    if 0 <= cls < |labels| then Some(labels[cls])
    else if -|labels| <= cls < 0 then Some(labels[|labels| + cls])
    else None
  }

  /** The region for the box at position `index` of its result. */
  function MakeRegion(backend: Backend, w: nat, h: nat, index: nat, b: Box): Result<Region, PredictError> {
    if w == 0 || h == 0 then Failure(ZeroDivision)
    else match LabelAt(backend.labels, b.cls)
      case None => Failure(LabelIndexOutOfRange(b.cls))
      case Some(name) =>
        var p := ToPercent(b.xyxy, w, h);
        Success(Region(NatToString(index), backend.fromName, backend.toName, RectangleLabels,
                       b.conf, w, h, 0, RectValue(0, p.x, p.y, p.width, p.height, [name])))
  }

  /** `enumerate(boxes)`. */
  function Enumerate(boxes: seq<Box>): (e: seq<(nat, Box)>)
    ensures |e| == |boxes|
    ensures forall k :: 0 <= k < |e| ==> e[k] == (k, boxes[k])
  {
    seq(|boxes|, k requires 0 <= k < |boxes| => (k as nat, boxes[k]))
  }

  /** The boxes of all results in the order the nested loops visit them, each
      with its index inside its own result. */
  function Flatten(results: seq<seq<Box>>): seq<(nat, Box)> {
    if |results| == 0 then []
    else Flatten(results[..|results| - 1]) + Enumerate(results[|results| - 1])
  }

  function TotalBoxes(results: seq<seq<Box>>): nat {
    if |results| == 0 then 0
    else TotalBoxes(results[..|results| - 1]) + |results[|results| - 1]|
  }

  function SumBoxes(boxes: seq<Box>): real {
    if |boxes| == 0 then 0.0 else SumBoxes(boxes[..|boxes| - 1]) + boxes[|boxes| - 1].conf
  }

  /** The running `score` after the loops: every confidence added once. */
  function SumConf(results: seq<seq<Box>>): real {
    if |results| == 0 then 0.0
    else SumConf(results[..|results| - 1]) + SumBoxes(results[|results| - 1])
  }

  /** The value `i` holds after the loops: it starts at 0 and each inner
      `enumerate` that runs at least once leaves it at its last index. */
  function LastIndex(results: seq<seq<Box>>): nat {
    if |results| == 0 then 0
    else if |results[|results| - 1]| > 0 then |results[|results| - 1]| - 1
    else LastIndex(results[..|results| - 1])
  }

  /** The regions of `items` in order, stopping at the first box whose region
      raises. */
  function BuildRegions(backend: Backend, w: nat, h: nat, items: seq<(nat, Box)>): (r: Result<seq<Region>, PredictError>)
    ensures r.Success? ==> |r.value| == |items|
  {
    if |items| == 0 then Success([])
    else
      var n := |items| - 1;
      match BuildRegions(backend, w, h, items[..n])
      case Failure(e) => Failure(e)
      case Success(rs) =>
        match MakeRegion(backend, w, h, items[n].0, items[n].1)
        case Failure(e) => Failure(e)
        case Success(region) => Success(rs + [region])
  }

  /** Building succeeds exactly when every box's region can be made; the
      regions are then those of the boxes, position by position, and
      otherwise the error is that of the first box that fails. */
  lemma {:induction false} BuildRegionsElementwise(backend: Backend, w: nat, h: nat, items: seq<(nat, Box)>)
    ensures BuildRegions(backend, w, h, items).Success? <==>
      forall k :: 0 <= k < |items| ==> MakeRegion(backend, w, h, items[k].0, items[k].1).Success?
    ensures BuildRegions(backend, w, h, items).Success? ==>
      forall k :: 0 <= k < |items| ==>
        MakeRegion(backend, w, h, items[k].0, items[k].1) == Success(BuildRegions(backend, w, h, items).value[k])
    ensures BuildRegions(backend, w, h, items).Failure? ==>
      exists k :: 0 <= k < |items|
        && MakeRegion(backend, w, h, items[k].0, items[k].1) == Failure(BuildRegions(backend, w, h, items).error)
        && forall m :: 0 <= m < k ==> MakeRegion(backend, w, h, items[m].0, items[m].1).Success?
  {
    if |items| > 0 {
      var n := |items| - 1;
      BuildRegionsElementwise(backend, w, h, items[..n]);
      assert forall k :: 0 <= k < n ==> items[..n][k] == items[k];
    }
  }

  /** The k-th region built is the region of the k-th item. */
  lemma {:induction false} BuildRegionsAt(backend: Backend, w: nat, h: nat, items: seq<(nat, Box)>, k: nat)
    requires BuildRegions(backend, w, h, items).Success? && k < |items|
    ensures MakeRegion(backend, w, h, items[k].0, items[k].1) == Success(BuildRegions(backend, w, h, items).value[k])
  {
    var n := |items| - 1;
    if k < n {
      BuildRegionsAt(backend, w, h, items[..n], k);
    }
  }

  /** `YOLO.predict`: only `tasks[0]` is looked at, and a successful call
      returns a list of exactly one prediction. */
  function Predict(backend: Backend, tasks: seq<Json>, detect: Json -> Option<Detection>): (r: Result<seq<Prediction>, PredictError>)
    ensures |tasks| == 0 ==> r == Failure(NoTasks)
    ensures r.Success? ==> |r.value| == 1 && r.value[0].modelVersion == backend.modelVersion
  {
    if |tasks| == 0 then Failure(NoTasks)
    else match detect(tasks[0])
      case None => Failure(ImageUnavailable)
      case Some(d) =>
        var regions :- BuildRegions(backend, d.width, d.height, Flatten(d.results));
        Success([Prediction(regions, SumConf(d.results) / ((LastIndex(d.results) + 1) as real),
                            backend.modelVersion)])
  }

  /** Only the first task is read: any two task lists that share their first
      element get the same answer, the same as for that task alone. */
  lemma PredictUsesFirstTaskOnly(backend: Backend, tasks: seq<Json>, others: seq<Json>, detect: Json -> Option<Detection>)
    requires |tasks| > 0 && |others| > 0 && tasks[0] == others[0]
    ensures Predict(backend, tasks, detect) == Predict(backend, others, detect)
    ensures Predict(backend, tasks, detect) == Predict(backend, [tasks[0]], detect)
  {
  }

  lemma {:induction false} FlattenLength(results: seq<seq<Box>>)
    ensures |Flatten(results)| == TotalBoxes(results)
  {
    if |results| > 0 {
      FlattenLength(results[..|results| - 1]);
    }
  }

  /** Box m of result j is visited after every box of the earlier results, as
      the m-th box of its own result. */
  lemma {:induction false} FlattenPosition(results: seq<seq<Box>>, j: nat, m: nat)
    requires j < |results| && m < |results[j]|
    ensures TotalBoxes(results[..j]) + m < |Flatten(results)|
    ensures Flatten(results)[TotalBoxes(results[..j]) + m] == (m, results[j][m])
  {
    var n := |results| - 1;
    FlattenLength(results);
    FlattenLength(results[..n]);
    if j == n {
      assert results[..j] == results[..n];
    } else {
      FlattenPosition(results[..n], j, m);
      assert results[..n][..j] == results[..j];
    }
  }

  /** Every visited box is some box m of some result j. */
  lemma {:induction false} FlattenMembers(results: seq<seq<Box>>, k: nat)
    requires k < |Flatten(results)|
    ensures exists j, m :: 0 <= j < |results| && 0 <= m < |results[j]| && Flatten(results)[k] == (m, results[j][m])
  {
    var n := |results| - 1;
    FlattenLength(results[..n]);
    if k < |Flatten(results[..n])| {
      FlattenMembers(results[..n], k);
      var j, m :| 0 <= j < |results[..n]| && 0 <= m < |results[..n][j]| && Flatten(results[..n])[k] == (m, results[..n][j][m]);
      assert Flatten(results)[k] == (m, results[j][m]);
    } else {
      var m := k - |Flatten(results[..n])|;
      assert Flatten(results)[k] == (m, results[n][m]);
    }
  }

  /** The region Label Studio receives for box `b`, the `index`-th box of its
      result, on a w x h image. */
  predicate Describes(r: Region, backend: Backend, w: nat, h: nat, index: nat, b: Box)
    requires w > 0 && h > 0
  {
    && r.id == NatToString(index)
    && r.fromName == backend.fromName
    && r.toName == backend.toName
    && r.regionType == "rectanglelabels"
    && r.score == b.conf
    && r.originalWidth == w
    && r.originalHeight == h
    && r.imageRotation == 0
    && r.value.rotation == 0
    && Percent(r.value.x, r.value.y, r.value.width, r.value.height) == ToPercent(b.xyxy, w, h)
    && |r.value.rectanglelabels| == 1
    && LabelAt(backend.labels, b.cls) == Some(r.value.rectanglelabels[0])
  }

  lemma MakeRegionDescribes(backend: Backend, w: nat, h: nat, index: nat, b: Box)
    requires MakeRegion(backend, w, h, index, b).Success?
    ensures w > 0 && h > 0
    ensures Describes(MakeRegion(backend, w, h, index, b).value, backend, w, h, index, b)
  {
  }

  /** The region at the position of box m of result j describes that box. */
  lemma RegionOfBox(backend: Backend, d: Detection, regions: seq<Region>, j: nat, m: nat)
    requires BuildRegions(backend, d.width, d.height, Flatten(d.results)) == Success(regions)
    requires j < |d.results| && m < |d.results[j]|
    ensures DescribesBox(backend, d, regions, j, m)
  {
    var items := Flatten(d.results);
    var k := TotalBoxes(d.results[..j]) + m;
    FlattenPosition(d.results, j, m);
    BuildRegionsAt(backend, d.width, d.height, items, k);
    MakeRegionDescribes(backend, d.width, d.height, m, d.results[j][m]);
  }

  /** One region per box, results in order and boxes in order within each
      result, each describing its box. */
  predicate RegionsDescribe(backend: Backend, d: Detection, regions: seq<Region>) {
    && |regions| == TotalBoxes(d.results)
    && forall j, m :: 0 <= j < |d.results| && 0 <= m < |d.results[j]| ==> DescribesBox(backend, d, regions, j, m)
  }

  /** The region at the position of box m of result j describes that box. */
  predicate DescribesBox(backend: Backend, d: Detection, regions: seq<Region>, j: nat, m: nat)
    requires j < |d.results| && m < |d.results[j]|
  {
    && TotalBoxes(d.results[..j]) + m < |regions|
    && d.width > 0 && d.height > 0
    && Describes(regions[TotalBoxes(d.results[..j]) + m], backend, d.width, d.height, m, d.results[j][m])
  }

  /** The regions the call returns are one per box, results in order and
      boxes in order within each result, each carrying the box's
      percentages, label and confidence, and its index within its own result
      as id. */
  lemma PredictRegions(backend: Backend, tasks: seq<Json>, detect: Json -> Option<Detection>)
    requires |tasks| > 0 && detect(tasks[0]).Some?
    requires Predict(backend, tasks, detect).Success?
    ensures RegionsDescribe(backend, detect(tasks[0]).value, Predict(backend, tasks, detect).value[0].result)
  {
    var d := detect(tasks[0]).value;
    PredictParts(backend, tasks, detect);
    BuiltRegionsDescribe(backend, d, BuildRegions(backend, d.width, d.height, Flatten(d.results)).value);
  }

  lemma BuiltRegionsDescribe(backend: Backend, d: Detection, regions: seq<Region>)
    requires BuildRegions(backend, d.width, d.height, Flatten(d.results)) == Success(regions)
    ensures RegionsDescribe(backend, d, regions)
  {
    FlattenLength(d.results);
    forall j, m | 0 <= j < |d.results| && 0 <= m < |d.results[j]|
      ensures DescribesBox(backend, d, regions, j, m)
    {
      RegionOfBox(backend, d, regions, j, m);
    }
  }

  /** The call succeeds exactly when there is a task, its image and detection
      are available, the image has a non-zero size unless nothing was
      detected, and every class index can be looked up in the label table. */
  lemma PredictSucceedsExactly(backend: Backend, tasks: seq<Json>, detect: Json -> Option<Detection>)
    ensures Predict(backend, tasks, detect).Success? <==>
      && |tasks| > 0
      && detect(tasks[0]).Some?
      && (TotalBoxes(detect(tasks[0]).value.results) == 0
          || (detect(tasks[0]).value.width > 0 && detect(tasks[0]).value.height > 0))
      && forall j, m :: 0 <= j < |detect(tasks[0]).value.results| && 0 <= m < |detect(tasks[0]).value.results[j]| ==>
           LabelAt(backend.labels, detect(tasks[0]).value.results[j][m].cls).Some?
  {
    if |tasks| > 0 && detect(tasks[0]).Some? {
      var d := detect(tasks[0]).value;
      BuildSucceedsExactly(backend, d);
      assert Predict(backend, tasks, detect).Success? <==>
        BuildRegions(backend, d.width, d.height, Flatten(d.results)).Success?;
    }
  }

  /** The regions of a detection can all be built exactly when the image has a
      non-zero size (unless there are no boxes) and every class index has a
      label. */
  lemma BuildSucceedsExactly(backend: Backend, d: Detection)
    ensures BuildRegions(backend, d.width, d.height, Flatten(d.results)).Success? <==>
      && (TotalBoxes(d.results) == 0 || (d.width > 0 && d.height > 0))
      && forall j, m :: 0 <= j < |d.results| && 0 <= m < |d.results[j]| ==> LabelAt(backend.labels, d.results[j][m].cls).Some?
  {
    var items := Flatten(d.results);
    FlattenLength(d.results);
    BuildRegionsElementwise(backend, d.width, d.height, items);
    var ok := forall k :: 0 <= k < |items| ==> MakeRegion(backend, d.width, d.height, items[k].0, items[k].1).Success?;
    var sized := TotalBoxes(d.results) == 0 || (d.width > 0 && d.height > 0);
    var labelled := forall j, m :: 0 <= j < |d.results| && 0 <= m < |d.results[j]| ==> LabelAt(backend.labels, d.results[j][m].cls).Some?;
    if ok {
      if |items| > 0 {
        assert MakeRegion(backend, d.width, d.height, items[0].0, items[0].1).Success?;
      }
      forall j, m | 0 <= j < |d.results| && 0 <= m < |d.results[j]|
        ensures LabelAt(backend.labels, d.results[j][m].cls).Some?
      {
        FlattenPosition(d.results, j, m);
        var k := TotalBoxes(d.results[..j]) + m;
        assert MakeRegion(backend, d.width, d.height, items[k].0, items[k].1).Success?;
      }
    }
    if sized && labelled {
      forall k | 0 <= k < |items|
        ensures MakeRegion(backend, d.width, d.height, items[k].0, items[k].1).Success?
      {
        FlattenMembers(d.results, k);
      }
    }
  }

  /** With a single result, the ids are "0", "1", ... in order, so they are
      pairwise distinct. */
  lemma SingleResultIds(backend: Backend, tasks: seq<Json>, detect: Json -> Option<Detection>, boxes: seq<Box>)
    requires |tasks| > 0 && detect(tasks[0]).Some? && detect(tasks[0]).value.results == [boxes]
    requires Predict(backend, tasks, detect).Success?
    ensures var regions := Predict(backend, tasks, detect).value[0].result;
            && |regions| == |boxes|
            && (forall k :: 0 <= k < |regions| ==> regions[k].id == NatToString(k))
            && (forall k, m :: 0 <= k < m < |regions| ==> regions[k].id != regions[m].id)
  {
    var d := detect(tasks[0]).value;
    var regions := Predict(backend, tasks, detect).value[0].result;
    PredictRegions(backend, tasks, detect);
    assert d.results[..0] == [];
    forall k | 0 <= k < |regions|
      ensures regions[k].id == NatToString(k)
    {
      assert TotalBoxes(d.results[..0]) + k == k;
      assert DescribesBox(backend, d, regions, 0, k);
    }
    forall k, m | 0 <= k < m < |regions|
      ensures regions[k].id != regions[m].id
    {
      NatToStringInjective(k, m);
    }
  }

  /** With several results the ids restart at "0" for each: two results of one
      box each give two regions both with id "0". */
  lemma IdsRepeatAcrossResults(backend: Backend, tasks: seq<Json>, detect: Json -> Option<Detection>, first: Box, second: Box)
    requires |tasks| > 0 && detect(tasks[0]).Some? && detect(tasks[0]).value.results == [[first], [second]]
    requires Predict(backend, tasks, detect).Success?
    ensures var regions := Predict(backend, tasks, detect).value[0].result;
            |regions| == 2 && regions[0].id == "0" && regions[1].id == "0"
  {
    var d := detect(tasks[0]).value;
    PredictRegions(backend, tasks, detect);
    assert d.results[..0] == [];
    assert d.results[..1] == [[first]];
    var regions := Predict(backend, tasks, detect).value[0].result;
    assert TotalBoxes(d.results[..0]) + 0 == 0;
    assert TotalBoxes(d.results[..1]) + 0 == 1;
    assert TotalBoxes(d.results) == 2;
    assert DescribesBox(backend, d, regions, 0, 0);
    assert DescribesBox(backend, d, regions, 1, 0);
  }

  // ---------------------------------------------------------------------
  // The aggregate score

  function SumScores(regions: seq<Region>): real {
    if |regions| == 0 then 0.0 else SumScores(regions[..|regions| - 1]) + regions[|regions| - 1].score
  }

  function SumItems(items: seq<(nat, Box)>): real {
    if |items| == 0 then 0.0 else SumItems(items[..|items| - 1]) + items[|items| - 1].1.conf
  }

  lemma {:induction false} SumItemsAppend(a: seq<(nat, Box)>, b: seq<(nat, Box)>)
    ensures SumItems(a + b) == SumItems(a) + SumItems(b)
  {
    if |b| > 0 {
      SumItemsAppend(a, b[..|b| - 1]);
      assert (a + b)[..|a + b| - 1] == a + b[..|b| - 1];
    } else {
      assert a + b == a;
    }
  }

  lemma {:induction false} SumItemsEnumerate(boxes: seq<Box>)
    ensures SumItems(Enumerate(boxes)) == SumBoxes(boxes)
  {
    if |boxes| > 0 {
      var n := |boxes| - 1;
      SumItemsEnumerate(boxes[..n]);
      assert Enumerate(boxes)[..n] == Enumerate(boxes[..n]);
    }
  }

  lemma {:induction false} SumConfIsSumOfVisited(results: seq<seq<Box>>)
    ensures SumConf(results) == SumItems(Flatten(results))
  {
    if |results| > 0 {
      var n := |results| - 1;
      SumConfIsSumOfVisited(results[..n]);
      SumItemsAppend(Flatten(results[..n]), Enumerate(results[n]));
      SumItemsEnumerate(results[n]);
    }
  }

  lemma {:induction false} SumScoresOfRegions(backend: Backend, w: nat, h: nat, items: seq<(nat, Box)>)
    requires BuildRegions(backend, w, h, items).Success?
    ensures SumScores(BuildRegions(backend, w, h, items).value) == SumItems(items)
  {
    if |items| > 0 {
      var n := |items| - 1;
      SumScoresOfRegions(backend, w, h, items[..n]);
      var rs := BuildRegions(backend, w, h, items).value;
      assert rs[..n] == BuildRegions(backend, w, h, items[..n]).value;
    }
  }

  /** The score is the sum of the region scores divided by LastIndex + 1. */
  lemma ScoreIsSumOverDivisor(backend: Backend, tasks: seq<Json>, detect: Json -> Option<Detection>)
    requires |tasks| > 0 && detect(tasks[0]).Some?
    requires Predict(backend, tasks, detect).Success?
    ensures var p := Predict(backend, tasks, detect).value[0];
            && SumScores(p.result) == SumConf(detect(tasks[0]).value.results)
            && p.score == SumScores(p.result) / ((LastIndex(detect(tasks[0]).value.results) + 1) as real)
  {
    var d := detect(tasks[0]).value;
    PredictParts(backend, tasks, detect);
    SumConfIsSumOfVisited(d.results);
    SumScoresOfRegions(backend, d.width, d.height, Flatten(d.results));
  }

  /** Nothing detected: no regions and score 0, with no division by zero. */
  lemma ScoreWithoutBoxes(backend: Backend, tasks: seq<Json>, detect: Json -> Option<Detection>)
    requires |tasks| > 0 && detect(tasks[0]).Some? && TotalBoxes(detect(tasks[0]).value.results) == 0
    ensures Predict(backend, tasks, detect).Success?
    ensures Predict(backend, tasks, detect).value[0].result == []
    ensures Predict(backend, tasks, detect).value[0].score == 0.0
  {
    var d := detect(tasks[0]).value;
    FlattenLength(d.results);
    SumConfIsSumOfVisited(d.results);
  }

  /** One result with N >= 1 boxes: the score is the mean of the N region
      scores. */
  lemma ScoreIsMeanForOneResult(backend: Backend, tasks: seq<Json>, detect: Json -> Option<Detection>, boxes: seq<Box>)
    requires |tasks| > 0 && detect(tasks[0]).Some? && detect(tasks[0]).value.results == [boxes]
    requires |boxes| > 0
    requires Predict(backend, tasks, detect).Success?
    ensures var p := Predict(backend, tasks, detect).value[0];
            |p.result| == |boxes| && p.score == SumScores(p.result) / (|p.result| as real)
  {
    var d := detect(tasks[0]).value;
    ScoreIsSumOverDivisor(backend, tasks, detect);
    PredictRegions(backend, tasks, detect);
    assert d.results[..0] == [];
    assert TotalBoxes(d.results) == |boxes|;
    assert LastIndex(d.results) == |boxes| - 1;
  }

  /** In general the divisor is the size of the last non-empty result, not
      the number of boxes. */
  lemma {:induction false} LastIndexOfLastNonEmpty(results: seq<seq<Box>>, j: nat)
    requires j < |results| && |results[j]| > 0
    requires forall k :: j < k < |results| ==> |results[k]| == 0
    ensures LastIndex(results) + 1 == |results[j]|
  {
    var n := |results| - 1;
    if j < n {
      LastIndexOfLastNonEmpty(results[..n], j);
    }
  }

  /** Two results of one box each: the score is the sum of both confidences,
      twice their mean. */
  lemma ScoreNotMeanAcrossResults(backend: Backend, tasks: seq<Json>, detect: Json -> Option<Detection>, first: Box, second: Box)
    requires |tasks| > 0 && detect(tasks[0]).Some? && detect(tasks[0]).value.results == [[first], [second]]
    requires Predict(backend, tasks, detect).Success?
    ensures var p := Predict(backend, tasks, detect).value[0];
            && |p.result| == 2
            && p.score == first.conf + second.conf
            && p.score == SumScores(p.result)
  {
    var d := detect(tasks[0]).value;
    ScoreIsSumOverDivisor(backend, tasks, detect);
    PredictRegions(backend, tasks, detect);
    assert d.results[..1] == [[first]];
    assert [first][..0] == [];
    assert SumBoxes([first]) == first.conf;
    assert SumBoxes([second]) == second.conf by { assert [second][..0] == []; }
    assert d.results[..1][..0] == [];
    assert SumConf(d.results[..1]) == first.conf;
    assert SumConf(d.results) == first.conf + second.conf;
    assert LastIndex(d.results) == 0;
    assert TotalBoxes(d.results[..1]) == 1;
    assert TotalBoxes(d.results) == 2;
  }

  /** One task on a 1000 x 500 image with one box (100,100)-(300,200) of
      confidence 0.9 and class 0, labelled "cat": one region at x = 10,
      y = 20, width = 20, height = 20 labelled "cat", and score 0.9. */
  lemma EndToEndExample(backend: Backend, tasks: seq<Json>, detect: Json -> Option<Detection>)
    requires |tasks| > 0 && backend.labels == ["cat"]
    requires detect(tasks[0]) == Some(Detection(1000, 500, [[Box(Corners(100.0, 100.0, 300.0, 200.0), 0.9, 0)]]))
    ensures Predict(backend, tasks, detect).Success?
    ensures var p := Predict(backend, tasks, detect).value[0];
            && |p.result| == 1
            && p.result[0].value == RectValue(0, 10.0, 20.0, 20.0, 20.0, ["cat"])
            && p.result[0].id == "0"
            && p.score == 0.9
  {
    var d := detect(tasks[0]).value;
    var b := d.results[0][0];
    PredictSucceedsExactly(backend, tasks, detect);
    assert TotalBoxes(d.results) == 1 by { assert d.results[..0] == []; }
    PredictRegions(backend, tasks, detect);
    ScoreIsMeanForOneResult(backend, tasks, detect, d.results[0]);
    var p := Predict(backend, tasks, detect).value[0];
    assert d.results[..0] == [];
    assert DescribesBox(backend, d, p.result, 0, 0);
    ExampleBox();
    assert p.result[0].value.rectanglelabels == ["cat"];
    assert SumScores(p.result) == 0.9 by { assert p.result[..0] == []; }
  }

  /** The prediction a successful call returns, in terms of its parts. */
  lemma PredictParts(backend: Backend, tasks: seq<Json>, detect: Json -> Option<Detection>)
    requires |tasks| > 0 && detect(tasks[0]).Some?
    requires Predict(backend, tasks, detect).Success?
    ensures var d := detect(tasks[0]).value;
            && BuildRegions(backend, d.width, d.height, Flatten(d.results)).Success?
            && Predict(backend, tasks, detect).value[0] ==
               Prediction(BuildRegions(backend, d.width, d.height, Flatten(d.results)).value,
                          SumConf(d.results) / ((LastIndex(d.results) + 1) as real), backend.modelVersion)
  {
  }

  datatype FitError = NotImplemented(message: string)

  /** `YOLO.fit`: training is not implemented, whatever the event and data. */
  function Fit<Event, Data>(event: Event, data: Data): (r: Result<(), FitError>)
    ensures r.Failure?
  {
    Failure(NotImplemented("Training is not implemented yet"))
  }
}
