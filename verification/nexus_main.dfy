/** The second version of the pipeline engine, ex2/main.py. Its rules differ
    from ex2/nexus_pipeline.py: the csv split keeps the whole string, the
    output stage never raises, routing picks the LAST matching pipeline,
    reports a missing one instead of raising and throws the result away, and
    chains let a failing stage escape to the caller. */
module NexusMain {
  import opened Results
  import opened Text
  import opened PyValues

  datatype Stage = InputStage | TransformStage | OutputStage

  /** The three concrete `ProcessingPipeline` subclasses. */
  datatype AdapterKind = JsonAdapter | CsvAdapter | StreamAdapter

  datatype Pipeline = Pipeline(pipelineId: string, kind: AdapterKind, stages: seq<Stage>)

  datatype Manager = Manager(pipelines: seq<Pipeline>)

  /** What process_data does when it does not raise: it ran a pipeline and
      discarded its result, or it printed that none was found. */
  datatype RouteOutcome = Processed | NoSuitablePipeline(format: string)

  /** The payload TransformStage rejects. */
  const INVALID_MARKER := "INVALID_DATA"

  /** OutputStage's fixed rendering of any payload that is not a dict. */
  const STREAM_SUMMARY := "Stream summary: 5 readings, avg: 22.1\U{B0}C"

  /** The label every sensor reading gets, whatever its value. */
  const NORMAL_SUFFIX := "\U{B0}C (Normal range)"

  // ---------------------------------------------------------------------
  // Stages
  // ---------------------------------------------------------------------

  /** InputStage.process: rejects exactly the falsy payloads and passes every
      other payload through untouched. */
  function InputProcess(data: Value): (r: PyResult<Value>)
    ensures r.Err? <==>
      data == PyNone || data == PyInt(0) || data == PyStr("") || data == PyList([]) || data == PyDict([])
    ensures r.Err? ==> r.error == ValueError("Empty data received")
    ensures r.Ok? ==> r.value == data
  {
    if !Truthy(data) then Err(ValueError("Empty data received")) else Ok(data)
  }

  /** TransformStage.process. A dict with a "sensor" key gains status
      "valid" and keeps every other key and value; a string with a comma
      becomes a csv record whose headers join back to exactly that string;
      the invalid marker is rejected; every other payload comes back
      unchanged. */
  function TransformProcess(data: Value): (r: PyResult<Value>)
    ensures HasKey(data, "sensor") ==>
      && r.Ok? && r.value.PyDict?
      && Get(r.value.entries, "status") == Some(PyStr("valid"))
      && (forall k :: k != "status" ==> Get(r.value.entries, k) == Get(data.entries, k))
      && Keys(r.value.entries) ==
           (if "status" in Keys(data.entries) then Keys(data.entries) else Keys(data.entries) + ["status"])
    ensures data.PyStr? && ',' in data.s ==>
      && r.Ok? && r.value.PyDict?
      && Keys(r.value.entries) == ["type", "headers", "count"]
      && Get(r.value.entries, "type") == Some(PyStr("csv"))
      && Get(r.value.entries, "count") == Some(PyInt(1))
      && CsvHeaders(r.value).Some?
      && Join(CsvHeaders(r.value).value, ",") == data.s
      && |CsvHeaders(r.value).value| == multiset(data.s)[','] + 1
    ensures data == PyStr(INVALID_MARKER) ==> r == Err(ValueError("Invalid data format"))
    ensures !HasKey(data, "sensor") && !(data.PyStr? && (',' in data.s || data.s == INVALID_MARKER)) ==>
      r == Ok(data)
  {
    if data.PyDict? && "sensor" in Keys(data.entries) then
      Ok(PyDict(Put(data.entries, "status", PyStr("valid"))))
    else if data.PyStr? && ',' in data.s then
      MarkerHasNoComma();
      SplitCount(data.s, ',');
      Ok(CsvRecord(Split(data.s, ',')))
    else if data == PyStr(INVALID_MARKER) then
      Err(ValueError("Invalid data format"))
    else
      Ok(data)
  }

  lemma MarkerHasNoComma()
    ensures ',' !in INVALID_MARKER
  {
    assert forall k :: 0 <= k < |INVALID_MARKER| ==> INVALID_MARKER[k] != ',';
  }

  /** What process_data reports once the chosen pipeline has run. */
  function RunOutcome(res: PyResult<Value>): PyResult<RouteOutcome> {
    match res
    case Ok(_) => Ok(Processed)
    case Err(e) => Err(e)
  }

  /** OutputStage.process, which never raises. A sensor dict always reads as
      normal, whatever its value (a missing one shows as `None`); a csv dict
      reports its count; any other dict renders as the empty string; a
      payload that is not a dict gets the fixed stream summary. */
  function OutputProcess(data: Value): (r: Value)
    ensures r.PyStr?
    ensures HasKey(data, "sensor") ==>
      r.s == "Processed temperature reading: " + Str(GetOrNone(data.entries, "value")) + NORMAL_SUFFIX
    ensures data.PyDict? && !HasKey(data, "sensor") && Get(data.entries, "type") == Some(PyStr("csv")) ==>
      r.s == "User activity logged: " + Str(GetOrNone(data.entries, "count")) + " actions processed"
    ensures data.PyDict? && !HasKey(data, "sensor") && Get(data.entries, "type") != Some(PyStr("csv")) ==>
      r.s == ""
    ensures !data.PyDict? ==> r.s == STREAM_SUMMARY
  {
    match data
    case PyDict(entries) =>
      if "sensor" in Keys(entries) then
        PyStr("Processed temperature reading: " + Str(GetOrNone(entries, "value")) + NORMAL_SUFFIX)
      else if GetOrNone(entries, "type") == PyStr("csv") then
        PyStr("User activity logged: " + Str(GetOrNone(entries, "count")) + " actions processed")
      else PyStr("")
    case _ => PyStr(STREAM_SUMMARY)
  }

  /** Whatever reading a sensor dict carries, the rendered line ends with
      the normal-range label: this version has no bands. */
  lemma SensorAlwaysNormal(entries: seq<Entry>, v: Value)
    requires "sensor" in Keys(entries)
    ensures var out := OutputProcess(PyDict(Put(entries, "value", v))).s;
            |out| >= |NORMAL_SUFFIX| && out[|out| - |NORMAL_SUFFIX|..] == NORMAL_SUFFIX
  {
    var out := OutputProcess(PyDict(Put(entries, "value", v))).s;
    var prefix := "Processed temperature reading: " + Str(v);
    assert Get(Put(entries, "value", v), "sensor") == Get(entries, "sensor");
    assert out == prefix + NORMAL_SUFFIX;
    assert out[|prefix|..] == NORMAL_SUFFIX;
  }

  function StageProcess(stage: Stage, data: Value): PyResult<Value> {
    match stage
    case InputStage => InputProcess(data)
    case TransformStage => TransformProcess(data)
    case OutputStage => Ok(OutputProcess(data))
  }

  // ---------------------------------------------------------------------
  // Pipelines
  // ---------------------------------------------------------------------

  /** ProcessingPipeline._run_stages: a left fold of the stages over the
      payload; an exception from a stage propagates. */
  function RunStages(stages: seq<Stage>, data: Value): PyResult<Value>
    decreases |stages|
  {
    if |stages| == 0 then Ok(data)
    else
      var next :- StageProcess(stages[0], data);
      RunStages(stages[1..], next)
  }

  /** The adapters' `process`, which all call `_run_stages`. */
  function Process(p: Pipeline, data: Value): PyResult<Value> {
    RunStages(p.stages, data)
  }

  /** Running `a + b` is running `a`, then `b` on its output; a failure in
      `a` is the failure of the whole run. */
  lemma {:induction false} RunStagesAppend(a: seq<Stage>, b: seq<Stage>, data: Value)
    ensures RunStages(a + b, data) ==
      match RunStages(a, data)
      case Ok(mid) => RunStages(b, mid)
      case Err(e) => Err(e)
    decreases |a|
  {
    if |a| == 0 {
      assert a + b == b;
    } else {
      assert (a + b)[0] == a[0];
      assert (a + b)[1..] == a[1..] + b;
      match StageProcess(a[0], data)
      case Ok(next) => RunStagesAppend(a[1..], b, next);
      case Err(_) =>
    }
  }

  /** The first stage that fails decides the result, whatever follows it. */
  lemma FirstFailureStops(stages: seq<Stage>, data: Value, i: nat, mid: Value)
    requires i < |stages|
    requires RunStages(stages[..i], data) == Ok(mid)
    requires StageProcess(stages[i], mid).Err?
    ensures RunStages(stages, data) == Err(StageProcess(stages[i], mid).error)
  {
    assert stages == stages[..i] + ([stages[i]] + stages[i + 1..]);
    RunStagesAppend(stages[..i], [stages[i]] + stages[i + 1..], data);
  }

  /** A pipeline with no stages returns its input. */
  lemma EmptyPipelineIdentity(id: string, kind: AdapterKind, data: Value)
    ensures Process(Pipeline(id, kind, []), data) == Ok(data)
  {
  }

  /** ProcessingPipeline.add_stage: appends one stage, changes nothing else. */
  function AddStage(p: Pipeline, stage: Stage): (r: Pipeline)
    ensures r.pipelineId == p.pipelineId && r.kind == p.kind
    ensures r.stages == p.stages + [stage]
  {
    p.(stages := p.stages + [stage])
  }

  /** A pipeline with a stage added runs its old stages, then the new one. */
  lemma AddStageProcess(p: Pipeline, stage: Stage, data: Value)
    ensures Process(AddStage(p, stage), data) ==
      match Process(p, data)
      case Ok(mid) => StageProcess(stage, mid)
      case Err(e) => Err(e)
  {
    RunStagesAppend(p.stages, [stage], data);
    assert [stage][1..] == [];
  }

  /** The pipeline `main` builds: Input, Transform and Output added one by one. */
  function ThreeStagePipeline(id: string, kind: AdapterKind): (p: Pipeline)
    ensures p.pipelineId == id && p.kind == kind
    ensures p.stages == [InputStage, TransformStage, OutputStage]
  {
    AddStage(AddStage(AddStage(Pipeline(id, kind, []), InputStage), TransformStage), OutputStage)
  }

  /** Running the three-stage pipeline on a payload the first two stages
      accept is rendering what the transform produced. */
  lemma RunThreeStages(id: string, kind: AdapterKind, data: Value, transformed: Value)
    requires InputProcess(data).Ok?
    requires TransformProcess(data) == Ok(transformed)
    ensures Process(ThreeStagePipeline(id, kind), data) == Ok(OutputProcess(transformed))
  {
    var last := [OutputStage];
    assert last[1..] == [];
    assert RunStages(last, transformed) == Ok(OutputProcess(transformed));
    var two := [TransformStage, OutputStage];
    assert two[1..] == last;
    assert RunStages(two, data) == RunStages(last, transformed);
    var stages := [InputStage, TransformStage, OutputStage];
    assert stages[1..] == two;
    assert RunStages(stages, data) == RunStages(two, data);
    assert ThreeStagePipeline(id, kind).stages == stages;
  }

  /** The stream summary holds a comma ("5 readings, avg"). */
  lemma SummaryHasComma()
    ensures ',' in STREAM_SUMMARY
  {
    assert STREAM_SUMMARY[26] == ',';
  }

  /** Through the three stages, a sensor dict is rendered as a normal
      temperature line with its "value" (or `None`). */
  lemma SensorThroughStages(id: string, kind: AdapterKind, entries: seq<Entry>)
    requires "sensor" in Keys(entries)
    ensures Process(ThreeStagePipeline(id, kind), PyDict(entries)) ==
      Ok(PyStr("Processed temperature reading: " + Str(GetOrNone(entries, "value")) + NORMAL_SUFFIX))
  {
    var tagged := SensorTransform(entries);
    RunThreeStages(id, kind, PyDict(entries), PyDict(tagged));
  }

  /** A sensor dict passes the input stage, gains status "valid" in the
      transform stage and keeps its "value" for the output stage. */
  lemma SensorTransform(entries: seq<Entry>) returns (tagged: seq<Entry>)
    requires "sensor" in Keys(entries)
    ensures InputProcess(PyDict(entries)).Ok?
    ensures TransformProcess(PyDict(entries)) == Ok(PyDict(tagged))
    ensures OutputProcess(PyDict(tagged)) ==
      PyStr("Processed temperature reading: " + Str(GetOrNone(entries, "value")) + NORMAL_SUFFIX)
  {
    tagged := Put(entries, "status", PyStr("valid"));
    assert GetOrNone(tagged, "value") == GetOrNone(entries, "value");
  }

  /** Through the three stages, a non-empty string without a comma (and not
      the invalid marker) comes out as the canned stream summary. */
  lemma PlainTextThroughStages(id: string, kind: AdapterKind, s: string)
    requires |s| > 0 && ',' !in s && s != INVALID_MARKER
    ensures Process(ThreeStagePipeline(id, kind), PyStr(s)) == Ok(PyStr(STREAM_SUMMARY))
  {
    RunThreeStages(id, kind, PyStr(s), PyStr(s));
  }

  /** Through the three stages, any string with a comma is logged as one
      action. */
  lemma CsvThroughStages(id: string, kind: AdapterKind, s: string)
    requires ',' in s
    ensures Process(ThreeStagePipeline(id, kind), PyStr(s)) ==
      Ok(PyStr("User activity logged: 1 actions processed"))
  {
    var headers := CsvTransform(s);
    CsvOutput(headers);
    RunThreeStages(id, kind, PyStr(s), CsvRecord(headers));
  }

  /** The output stage logs a csv record as one action. */
  lemma CsvOutput(headers: seq<string>)
    ensures OutputProcess(CsvRecord(headers)) == PyStr("User activity logged: 1 actions processed")
  {
    var record := CsvRecord(headers);
    assert "sensor" !in Keys(record.entries);
    assert "headers" in Keys(record.entries);
    OneActionText();
  }

  /** A string with a comma passes the input stage and becomes the csv
      record of its comma-separated pieces. */
  lemma CsvTransform(s: string) returns (headers: seq<string>)
    requires ',' in s
    ensures InputProcess(PyStr(s)).Ok?
    ensures TransformProcess(PyStr(s)) == Ok(CsvRecord(headers))
    ensures headers == Split(s, ',')
  {
    headers := Split(s, ',');
  }

  lemma OneActionText()
    ensures "User activity logged: " + Str(PyInt(1)) + " actions processed" ==
            "User activity logged: 1 actions processed"
  {
    assert NatToString(1) == "1";
  }

  /** A rendered temperature line holds no comma when its value does not. */
  lemma ReadingLineShape(v: Value)
    requires ',' !in Str(v)
    ensures var line := "Processed temperature reading: " + Str(v) + NORMAL_SUFFIX;
            ',' !in line && |line| > 0 && line != INVALID_MARKER
  {
    var line := "Processed temperature reading: " + Str(v) + NORMAL_SUFFIX;
    assert ',' !in "Processed temperature reading: ";
    assert ',' !in NORMAL_SUFFIX;
    assert line[0] == 'P';
    assert INVALID_MARKER[0] == 'I';
  }

  /** The chain demonstration: a sensor dict goes through the JSON, CSV and
      stream pipelines in turn. The first renders a temperature line, the
      second turns that line into the stream summary, and the third, finding
      a comma in the summary, parses it as csv, so the chain ends with the
      activity line. */
  lemma DemoChain(entries: seq<Entry>)
    requires "sensor" in Keys(entries)
    requires ',' !in Str(GetOrNone(entries, "value"))
    ensures ExecuteChain(PyDict(entries), [ThreeStagePipeline("PIPE_01", JsonAdapter),
                                           ThreeStagePipeline("PIPE_02", CsvAdapter),
                                           ThreeStagePipeline("PIPE_03", StreamAdapter)])
            == Ok(PyStr("User activity logged: 1 actions processed"))
  {
    var chain := [ThreeStagePipeline("PIPE_01", JsonAdapter),
                  ThreeStagePipeline("PIPE_02", CsvAdapter),
                  ThreeStagePipeline("PIPE_03", StreamAdapter)];
    var line := "Processed temperature reading: " + Str(GetOrNone(entries, "value")) + NORMAL_SUFFIX;
    SensorThroughStages("PIPE_01", JsonAdapter, entries);
    ReadingLineShape(GetOrNone(entries, "value"));
    PlainTextThroughStages("PIPE_02", CsvAdapter, line);
    SummaryHasComma();
    CsvThroughStages("PIPE_03", StreamAdapter, STREAM_SUMMARY);
    assert chain[1..] == [chain[1], chain[2]];
    assert chain[1..][1..] == [chain[2]];
    assert chain[1..][1..][1..] == [];
  }

  /** The dict of the demonstration has no "value" key, so the reading
      renders as `None` and the chain still ends with the activity line. */
  lemma DemoChainReading()
    ensures ExecuteChain(PyDict([Entry("sensor", PyStr("start_chain")), Entry("val", PyInt(100))]),
                         [ThreeStagePipeline("PIPE_01", JsonAdapter),
                          ThreeStagePipeline("PIPE_02", CsvAdapter),
                          ThreeStagePipeline("PIPE_03", StreamAdapter)])
            == Ok(PyStr("User activity logged: 1 actions processed"))
  {
    var entries := [Entry("sensor", PyStr("start_chain")), Entry("val", PyInt(100))];
    assert Keys(entries) == ["sensor", "val"];
    assert GetOrNone(entries, "value") == PyNone;
    assert Str(PyNone) == "None";
    DemoChain(entries);
  }

  // ---------------------------------------------------------------------
  // Manager: routing and chains
  // ---------------------------------------------------------------------

  /** NexusManager.add_pipeline: registers one pipeline at the end. */
  function AddPipeline(m: Manager, p: Pipeline): (r: Manager)
    ensures r.pipelines == m.pipelines + [p]
  {
    Manager(m.pipelines + [p])
  }

  /** The routing test of process_data. */
  predicate Matches(p: Pipeline, format: string) {
    || (format == "json" && p.kind == JsonAdapter)
    || (format == "csv" && p.kind == CsvAdapter)
    || (format == "stream" && p.kind == StreamAdapter)
  }

  /** The index of the last pipeline that matches the format, if any: the
      one process_data picks. */
  function Target(ps: seq<Pipeline>, format: string): (t: Option<nat>)
    ensures t.None? <==> forall j :: 0 <= j < |ps| ==> !Matches(ps[j], format)
    ensures t.Some? ==>
      && t.value < |ps| && Matches(ps[t.value], format)
      && forall j :: t.value < j < |ps| ==> !Matches(ps[j], format)
    decreases |ps|
  {
    if |ps| == 0 then None
    else if Matches(ps[|ps| - 1], format) then Some(|ps| - 1)
    else
      var t := Target(ps[..|ps| - 1], format);
      assert forall j :: 0 <= j < |ps| - 1 ==> ps[..|ps| - 1][j] == ps[j];
      t
  }

  /** What process_data gives for a manager: the run of the target pipeline,
      or the no-suitable-pipeline report. */
  function Route(m: Manager, data: Value, format: string): PyResult<RouteOutcome> {
    match Target(m.pipelines, format)
    case None => Ok(NoSuitablePipeline(format))
    case Some(t) => RunOutcome(Process(m.pipelines[t], data))
  }

  /** Registering a pipeline that matches the format makes it the one that
      runs, because the last match wins; registering one that does not match
      leaves the routing of that format as it was. */
  lemma AddPipelineRoutes(m: Manager, p: Pipeline, data: Value, format: string)
    ensures Matches(p, format) ==> Route(AddPipeline(m, p), data, format) == RunOutcome(Process(p, data))
    ensures !Matches(p, format) ==> Route(AddPipeline(m, p), data, format) == Route(m, data, format)
  {
    var ps := AddPipeline(m, p).pipelines;
    assert ps[|ps| - 1] == p;
    assert ps[..|ps| - 1] == m.pipelines;
  }

  /** NexusManager.process_data. The scan visits every registered pipeline
      and keeps the last one that matches; that pipeline runs, its result is
      discarded, and its exception, if any, propagates. When nothing matches
      the call reports it and raises nothing. */
  method ProcessData(m: Manager, data: Value, format: string) returns (r: PyResult<RouteOutcome>)
    ensures r == Route(m, data, format)
    ensures (forall j :: 0 <= j < |m.pipelines| ==> !Matches(m.pipelines[j], format)) ==>
      r == Ok(NoSuitablePipeline(format))
    ensures forall i ::
      (0 <= i < |m.pipelines| && Matches(m.pipelines[i], format) &&
       forall j :: i < j < |m.pipelines| ==> !Matches(m.pipelines[j], format))
      ==> r == RunOutcome(Process(m.pipelines[i], data))
  {
    var target: Option<nat> := None;
    var k := 0;
    while k < |m.pipelines|
      invariant 0 <= k <= |m.pipelines|
      invariant target.None? ==> forall j :: 0 <= j < k ==> !Matches(m.pipelines[j], format)
      invariant target.Some? ==>
        && target.value < k && Matches(m.pipelines[target.value], format)
        && forall j :: target.value < j < k ==> !Matches(m.pipelines[j], format)
    {
      if Matches(m.pipelines[k], format) {
        target := Some(k);
      }
      k := k + 1;
    }
    if target.None? {
      r := Ok(NoSuitablePipeline(format));
    } else {
      var t := target.value;
      r := RunOutcome(Process(m.pipelines[t], data));
      forall i | 0 <= i < |m.pipelines| && Matches(m.pipelines[i], format) &&
                 (forall j :: i < j < |m.pipelines| ==> !Matches(m.pipelines[j], format))
        ensures i == t
      {
        if i < t {
          assert false;
        }
      }
    }
  }

  /** NexusManager.execute_chain: each pipeline's output is the next one's
      input; nothing is caught. */
  function ExecuteChain(data: Value, chain: seq<Pipeline>): PyResult<Value>
    decreases |chain|
  {
    if |chain| == 0 then Ok(data)
    else
      var next :- Process(chain[0], data);
      ExecuteChain(next, chain[1..])
  }

  /** Chaining `a + b` feeds the output of `a` into `b`. */
  lemma {:induction false} ExecuteChainAppend(a: seq<Pipeline>, b: seq<Pipeline>, data: Value)
    ensures ExecuteChain(data, a + b) ==
      match ExecuteChain(data, a)
      case Ok(mid) => ExecuteChain(mid, b)
      case Err(e) => Err(e)
    decreases |a|
  {
    if |a| == 0 {
      assert a + b == b;
    } else {
      assert (a + b)[0] == a[0];
      assert (a + b)[1..] == a[1..] + b;
      match Process(a[0], data)
      case Ok(next) => ExecuteChainAppend(a[1..], b, next);
      case Err(_) =>
    }
  }

  /** A pipeline that raises inside the chain makes the chain raise the same
      exception: nothing is recovered. */
  lemma ChainFailureEscapes(chain: seq<Pipeline>, data: Value, i: nat, mid: Value)
    requires i < |chain|
    requires ExecuteChain(data, chain[..i]) == Ok(mid)
    requires Process(chain[i], mid).Err?
    ensures ExecuteChain(data, chain) == Err(Process(chain[i], mid).error)
  {
    assert chain == chain[..i] + ([chain[i]] + chain[i + 1..]);
    ExecuteChainAppend(chain[..i], [chain[i]] + chain[i + 1..], data);
  }
}
