/** `LabelStudioMLPredictor.prepare_tasks` of cli.py: the --tasks argument is
    either the path of a JSON file or a comma-separated list of task ids, and
    comes out as a non-empty list of task records.

    Whether the path exists and what `json.load` makes of the file are the
    parameter `file`; `ls.tasks.get(id).data` is the parameter `fetch`,
    None where the SDK call raises. */
module TaskResolver {
  import opened Wrappers
  import opened Text
  import opened JsonValues

  datatype TaskFile = NoSuchFile | Unparsable | Parsed(content: Json)

  datatype TaskError =
    | InvalidJson               // json.load raised
    | NotAnInteger(piece: string) // int(piece) raised ValueError
    | NotAList                  // "Tasks should be a list"
    | EmptyTaskList             // "Task list can't be empty"
    | MissingIdOrData           // "'data' and 'id' must be presented in all tasks"
    | UnknownTaskFormat         // first element neither dict nor int
    | FetchFailed(id: Json)     // ls.tasks.get raised

  /** The record built for a bare id. */
  function TaskRecord(id: Json, data: Json): Json {
    JObject(map["id" := id, "data" := data])
  }

  /** `isinstance(x, int)`, which Python's bools also satisfy. */
  predicate IsInt(j: Json) {
    j.JInt? || j.JBool?
  }

  /** `[int(task) for task in pieces]`: raises at the first piece that is not
      an integer. */
  function ParseIds(pieces: seq<string>): (r: Result<seq<Json>, TaskError>)
    ensures r.Success? ==> |r.value| == |pieces|
    ensures r.Success? ==>
      forall k :: 0 <= k < |pieces| ==> ParseInt(pieces[k]).Some? && r.value[k] == JInt(ParseInt(pieces[k]).value)
    ensures r.Failure? ==>
      exists k :: 0 <= k < |pieces|
        && ParseInt(pieces[k]).None?
        && r.error == NotAnInteger(pieces[k])
        && forall q :: 0 <= q < k ==> ParseInt(pieces[q]).Some?
  {
    if |pieces| == 0 then Success([])
    else
      var head := ParseInt(pieces[0]);
      if head.None? then Failure(NotAnInteger(pieces[0]))
      else
        var rest :- ParseIds(pieces[1..]);
        assert forall k :: 0 < k < |pieces| ==> pieces[k] == pieces[1..][k - 1];
        Success([JInt(head.value)] + rest)
  }

  /** The list comprehension over `ls.tasks.get`: one record per id, in
      order, each keeping its id; the first fetch that raises aborts. */
  function Hydrate(ids: seq<Json>, fetch: Json -> Option<Json>): (r: Result<seq<Json>, TaskError>)
    ensures r.Success? <==> forall k :: 0 <= k < |ids| ==> fetch(ids[k]).Some?
    ensures r.Success? ==> |r.value| == |ids|
    ensures r.Success? ==>
      forall k :: 0 <= k < |ids| ==> fetch(ids[k]).Some? && r.value[k] == TaskRecord(ids[k], fetch(ids[k]).value)
    ensures r.Failure? ==>
      exists k :: 0 <= k < |ids|
        && fetch(ids[k]).None?
        && r.error == FetchFailed(ids[k])
        && forall q :: 0 <= q < k ==> fetch(ids[q]).Some?
  {
    if |ids| == 0 then Success([])
    else match fetch(ids[0])
      case None => Failure(FetchFailed(ids[0]))
      case Some(data) =>
        var rest :- Hydrate(ids[1..], fetch);
        assert forall k :: 0 < k < |ids| ==> ids[k] == ids[1..][k - 1];
        Success([TaskRecord(ids[0], data)] + rest)
  }

  /** The tasks value before the checks: the file's JSON, or the ids of the
      inline form. */
  function LoadTasks(spec: string, file: TaskFile): Result<Json, TaskError> {
    match file
    case Parsed(content) => Success(content)
    case Unparsable => Failure(InvalidJson)
    case NoSuchFile =>
      var ids :- ParseIds(Split(spec, ','));
      Success(JList(ids))
  }

  /** `prepare_tasks`. The result is never empty and its first record always
      has both an "id" and a "data" key; later elements are checked only in
      the id form, where each becomes a record. */
  function PrepareTasks(spec: string, file: TaskFile, fetch: Json -> Option<Json>): (r: Result<seq<Json>, TaskError>)
    ensures r.Success? ==> |r.value| > 0
    ensures r.Success? ==> r.value[0].JObject? && "id" in r.value[0].fields && "data" in r.value[0].fields
  {
    var loaded :- LoadTasks(spec, file);
    if !loaded.JList? then Failure(NotAList)
    else if |loaded.items| == 0 then Failure(EmptyTaskList)
    else
      var first := loaded.items[0];
      if first.JObject? then
        if "data" in first.fields && "id" in first.fields then Success(loaded.items)
        else Failure(MissingIdOrData)
      else if IsInt(first) then Hydrate(loaded.items, fetch)
      else Failure(UnknownTaskFormat)
  }

  /** File form: content that is not a list, or an empty list, is rejected. */
  lemma FileMustHoldNonEmptyList(spec: string, content: Json, fetch: Json -> Option<Json>)
    ensures !content.JList? ==> PrepareTasks(spec, Parsed(content), fetch) == Failure(NotAList)
    ensures content == JList([]) ==> PrepareTasks(spec, Parsed(content), fetch) == Failure(EmptyTaskList)
  {
  }

  /** File form, first element a dict: the list comes back unchanged when
      that dict has "id" and "data", whatever the later elements are, and is
      rejected otherwise. */
  lemma RecordListPassesThrough(spec: string, items: seq<Json>, fetch: Json -> Option<Json>)
    requires |items| > 0 && items[0].JObject?
    ensures "id" in items[0].fields && "data" in items[0].fields ==>
      PrepareTasks(spec, Parsed(JList(items)), fetch) == Success(items)
    ensures !("id" in items[0].fields && "data" in items[0].fields) ==>
      PrepareTasks(spec, Parsed(JList(items)), fetch) == Failure(MissingIdOrData)
  {
  }

  /** File form, first element an int: every element, whatever its type, is
      fetched in order and becomes {id, data}; the length and ids are kept. */
  lemma IdListIsHydrated(spec: string, items: seq<Json>, fetch: Json -> Option<Json>)
    requires |items| > 0 && IsInt(items[0])
    requires forall k :: 0 <= k < |items| ==> fetch(items[k]).Some?
    ensures PrepareTasks(spec, Parsed(JList(items)), fetch).Success?
    ensures var tasks := PrepareTasks(spec, Parsed(JList(items)), fetch).value;
            && |tasks| == |items|
            && forall k :: 0 <= k < |items| ==> tasks[k] == TaskRecord(items[k], fetch(items[k]).value)
  {
  }

  /** A first element that is neither a dict nor an int is an unknown
      format. */
  lemma OtherFirstElementRejected(spec: string, items: seq<Json>, fetch: Json -> Option<Json>)
    requires |items| > 0 && !items[0].JObject? && !IsInt(items[0])
    ensures PrepareTasks(spec, Parsed(JList(items)), fetch) == Failure(UnknownTaskFormat)
  {
  }

  lemma NoCommaInNatToString(n: nat)
    ensures ',' !in NatToString(n)
  {
  }

  function IdStrings(ids: seq<int>): (r: seq<string>)
    ensures |r| == |ids|
    ensures forall k :: 0 <= k < |ids| ==> r[k] == IntToString(ids[k])
  {
    seq(|ids|, k requires 0 <= k < |ids| => IntToString(ids[k]))
  }

  /** Inline form: the string written by joining ids with commas resolves to
      one record per id, in order ("7,8,9" gives the records of 7, 8, 9). */
  lemma InlineIdsRoundTrip(ids: seq<int>, fetch: Json -> Option<Json>)
    requires |ids| > 0
    requires forall k :: 0 <= k < |ids| ==> fetch(JInt(ids[k])).Some?
    ensures var tasks := PrepareTasks(Join(IdStrings(ids), ','), NoSuchFile, fetch);
            && tasks.Success?
            && |tasks.value| == |ids|
            && forall k :: 0 <= k < |ids| ==> tasks.value[k] == TaskRecord(JInt(ids[k]), fetch(JInt(ids[k])).value)
  {
    var pieces := IdStrings(ids);
    forall k | 0 <= k < |pieces|
      ensures ',' !in pieces[k]
    {
      NoCommaInNatToString(if ids[k] < 0 then -ids[k] else ids[k]);
      assert pieces[k] == IntToString(ids[k]);
    }
    SplitJoin(pieces, ',');
    forall k | 0 <= k < |pieces|
      ensures ParseInt(pieces[k]) == Some(ids[k])
    {
      ParseIntOfIntToString(ids[k]);
    }
    var parsed := ParseIds(pieces);
    assert parsed.Success?;
    assert forall k :: 0 <= k < |ids| ==> parsed.value[k] == JInt(ids[k]);
  }

  /** Inline form: the split always gives at least one piece, so the
      empty-list and type checks never fire; the only errors are a piece
      that is not an integer and a fetch that raises. A successful result
      has one record per piece. */
  lemma InlineFormErrors(spec: string, fetch: Json -> Option<Json>)
    ensures var r := PrepareTasks(spec, NoSuchFile, fetch);
            && (r.Failure? ==> r.error.NotAnInteger? || r.error.FetchFailed?)
            && (r.Success? ==> |r.value| == Occurrences(spec, ',') + 1)
  {
    SplitPieceCount(spec, ',');
  }

  /** `"".split(",")` is `[""]` and `int("")` raises, so an empty argument is
      not an empty task list but a parse error. */
  lemma EmptyInlineSpec(fetch: Json -> Option<Json>)
    ensures PrepareTasks("", NoSuchFile, fetch) == Failure(NotAnInteger(""))
  {
    ParseIntRejectsBlank("");
  }
}
