/** The enterprise pipeline engine of ex2/nexus_pipeline.py: three stateless
    stages, pipelines that run their stages in order, adapters distinguished
    only by their class, and a manager that routes a payload to the FIRST
    pipeline whose adapter class matches the requested format and that runs
    chains of pipelines, turning any failure into `None`. */
module NexusPipeline {
  import opened Results
  import opened Text
  import opened PyValues

  datatype Stage = InputStage | TransformStage | OutputStage

  /** The three concrete `ProcessingPipeline` subclasses. */
  datatype AdapterKind = JsonAdapter | CsvAdapter | StreamAdapter

  datatype Pipeline = Pipeline(pipelineId: string, kind: AdapterKind, stages: seq<Stage>)

  datatype Manager = Manager(pipelines: seq<Pipeline>)

  /** The payload TransformStage rejects. */
  const INVALID_MARKER := "INVALID_DATA"

  /** OutputStage's fixed rendering of any string payload. */
  const STREAM_SUMMARY := "Stream summary: 5 readings, avg: 22.1\U{B0}C"

  /** Readings above this are in the high band. */
  const HIGH_LIMIT := 40

  /** Readings below this are in the low band. */
  const LOW_LIMIT := 5

  // ---------------------------------------------------------------------
  // Stages
  // ---------------------------------------------------------------------

  /** InputStage.process: rejects exactly the falsy payloads and passes every
      other payload through untouched. */
  function InputProcess(data: Value): (r: PyResult<Value>)
    ensures r.Err? <==>
      data == PyNone || data == PyInt(0) || data == PyStr("") || data == PyList([]) || data == PyDict([])
    ensures r.Err? ==> r.error == ValueError("Impty data!")
    ensures r.Ok? ==> r.value == data
  {
    if !Truthy(data) then Err(ValueError("Impty data!")) else Ok(data)
  }

  /** Python's `s[1:-1]`: `s` without its first and last character. */
  function DropEnds(s: string): (r: string)
    ensures |s| >= 2 ==> r == s[1..|s| - 1]
    ensures |s| < 2 ==> r == ""
    ensures |s| >= 2 ==> [s[0]] + r + [s[|s| - 1]] == s
    ensures |r| == if |s| >= 2 then |s| - 2 else 0
  {
    if |s| < 2 then "" else s[1..|s| - 1]
  }

  /** The payloads TransformStage leaves exactly as they are. */
  predicate PassesThrough(data: Value) {
    && !HasKey(data, "sensor")
    && !(data.PyStr? && (data.s == INVALID_MARKER || ',' in data.s))
  }

  /** TransformStage.process. A dict with a "sensor" key gains
      status "valid" and keeps every other key and value; the invalid marker
      is rejected; a string with a comma loses its first and last character
      and becomes a csv record whose headers join back to what was left; every
      other payload comes back unchanged. */
  function TransformProcess(data: Value): (r: PyResult<Value>)
    ensures HasKey(data, "sensor") ==>
      && r.Ok? && r.value.PyDict?
      && Get(r.value.entries, "status") == Some(PyStr("valid"))
      && (forall k :: k != "status" ==> Get(r.value.entries, k) == Get(data.entries, k))
      && Keys(r.value.entries) ==
           (if "status" in Keys(data.entries) then Keys(data.entries) else Keys(data.entries) + ["status"])
    ensures data == PyStr(INVALID_MARKER) ==> r == Err(ValueError("Invalid data format"))
    ensures data.PyStr? && data.s != INVALID_MARKER && ',' in data.s ==>
      && r.Ok? && r.value.PyDict?
      && Keys(r.value.entries) == ["type", "headers", "count"]
      && Get(r.value.entries, "type") == Some(PyStr("csv"))
      && Get(r.value.entries, "count") == Some(PyInt(1))
      && CsvHeaders(r.value).Some?
      && Join(CsvHeaders(r.value).value, ",") == DropEnds(data.s)
      && |CsvHeaders(r.value).value| == multiset(DropEnds(data.s))[','] + 1
    ensures PassesThrough(data) ==> r == Ok(data)
  {
    if data.PyDict? && "sensor" in Keys(data.entries) then
      Ok(PyDict(Put(data.entries, "status", PyStr("valid"))))
    else if data == PyStr(INVALID_MARKER) then
      Err(ValueError("Invalid data format"))
    else if data.PyStr? && ',' in data.s then
      SplitCount(DropEnds(data.s), ',');
      Ok(CsvRecord(Split(DropEnds(data.s), ',')))
    else
      Ok(data)
  }

  datatype Band = High | Low | Normal

  /** The temperature band of a reading: high strictly above HIGH_LIMIT, low
      strictly below LOW_LIMIT, normal in between, both limits included. */
  function BandOf(v: int): (b: Band)
    ensures b == High <==> v > HIGH_LIMIT
    ensures b == Low <==> v < LOW_LIMIT
    ensures b == Normal <==> LOW_LIMIT <= v <= HIGH_LIMIT
  {
    if v > HIGH_LIMIT then High else if v < LOW_LIMIT then Low else Normal
  }

  function BandLabel(b: Band): string {
    match b
    case High => " (High range)"
    case Low => " (Low range)"
    case Normal => " (Normal range)"
  }

  /** OutputStage.process. A dict with "headers" reports its count; any
      other dict is a temperature reading that needs an int "value" and a
      "unit" and is labelled with its band; a string gets the fixed stream
      summary; anything else is this module's own TypeError. The lookups
      happen in source order, so a missing "value" is reported before a
      missing "unit", and both before a "value" that is not a number. */
  function OutputProcess(data: Value): (r: PyResult<Value>)
    ensures data.PyStr? ==> r == Ok(PyStr(STREAM_SUMMARY))
    ensures !data.PyDict? && !data.PyStr? ==> r.Err? && r.error.OutputTypeError?
    ensures HasKey(data, "headers") ==>
      match Get(data.entries, "count")
      case None => r == Err(KeyError("count"))
      case Some(c) => r == Ok(PyStr("User activity logged: " + Str(c) + " actions processed"))
    ensures data.PyDict? && !HasKey(data, "headers") ==>
      match (Get(data.entries, "value"), Get(data.entries, "unit"))
      case (None, _) => r == Err(KeyError("value"))
      case (Some(_), None) => r == Err(KeyError("unit"))
      case (Some(PyInt(v)), Some(u)) =>
        r == Ok(PyStr("Processed Temperature reading:" + IntToString(v) + "\U{B0}" + Str(u) + BandLabel(BandOf(v))))
      case (Some(_), Some(_)) => r.Err? && r.error.TypeError?
  {
    match data
    case PyDict(entries) =>
      if "headers" in Keys(entries) then
        (match Get(entries, "count")
         case None => Err(KeyError("count"))
         case Some(c) => Ok(PyStr("User activity logged: " + Str(c) + " actions processed")))
      else
        (match (Get(entries, "value"), Get(entries, "unit"))
         case (None, _) => Err(KeyError("value"))
         case (Some(_), None) => Err(KeyError("unit"))
         case (Some(v), Some(u)) =>
           var text := "Processed Temperature reading:" + Str(v) + "\U{B0}" + Str(u);
           if v.PyInt? then Ok(PyStr(text + BandLabel(BandOf(v.i))))
           else Err(TypeError("'>' not supported between instances of '" + TypeName(v) + "' and 'int'")))
    case PyStr(_) => Ok(PyStr(STREAM_SUMMARY))
    case _ => Err(OutputTypeError("Invalid type -> " + TypeName(data)))
  }

  /** One stage's `process`, chosen by the stage's class. */
  function StageProcess(stage: Stage, data: Value): PyResult<Value> {
    match stage
    case InputStage => InputProcess(data)
    case TransformStage => TransformProcess(data)
    case OutputStage => OutputProcess(data)
  }

  // ---------------------------------------------------------------------
  // Pipelines
  // ---------------------------------------------------------------------

  /** ProcessingPipeline.process: threads the payload through the stages in
      order; the first stage that raises ends the run. */
  function RunStages(stages: seq<Stage>, data: Value): PyResult<Value>
    decreases |stages|
  {
    if |stages| == 0 then Ok(data)
    else
      var next :- StageProcess(stages[0], data);
      RunStages(stages[1..], next)
  }

  /** The adapters' `process`, which defers to the base class. */
  function Process(p: Pipeline, data: Value): PyResult<Value> {
    RunStages(p.stages, data)
  }

  /** Running `a + b` is running `a`, then `b` on its output; a failure in
      `a` is the failure of the whole run and `b` never starts. */
  lemma {:induction false} RunStagesAppend(a: seq<Stage>, b: seq<Stage>, data: Value)
    ensures RunStages(a + b, data) ==
      match RunStages(a, data)
      case Ok(mid) => RunStages(b, mid)
      case Err(e) => Err(e)
    decreases |a|
  {
    if |a| == 0 {
      assert a + b == b;
    } else {
      assert (a + b)[0] == a[0];
      assert (a + b)[1..] == a[1..] + b;
      match StageProcess(a[0], data)
      case Ok(next) => RunStagesAppend(a[1..], b, next);
      case Err(_) =>
    }
  }

  /** The first stage that fails decides the result, whatever follows it. */
  lemma FirstFailureStops(stages: seq<Stage>, data: Value, i: nat, mid: Value)
    requires i < |stages|
    requires RunStages(stages[..i], data) == Ok(mid)
    requires StageProcess(stages[i], mid).Err?
    ensures RunStages(stages, data) == Err(StageProcess(stages[i], mid).error)
  {
    assert stages == stages[..i] + ([stages[i]] + stages[i + 1..]);
    RunStagesAppend(stages[..i], [stages[i]] + stages[i + 1..], data);
  }

  /** A pipeline with no stages returns its input. */
  lemma EmptyPipelineIdentity(id: string, kind: AdapterKind, data: Value)
    ensures Process(Pipeline(id, kind, []), data) == Ok(data)
  {
  }

  /** ProcessingPipeline.add_stage: appends one stage, changes nothing else. */
  function AddStage(p: Pipeline, stage: Stage): (r: Pipeline)
    ensures r.pipelineId == p.pipelineId && r.kind == p.kind
    ensures r.stages == p.stages + [stage]
  {
    p.(stages := p.stages + [stage])
  }

  /** The adapters' variadic add_stage: appends the stages one by one, in
      argument order. */
  function AddStages(p: Pipeline, stages: seq<Stage>): (r: Pipeline)
    ensures r.pipelineId == p.pipelineId && r.kind == p.kind
    ensures r.stages == p.stages + stages
    decreases |stages|
  {
    if |stages| == 0 then p
    else
      var r := AddStages(AddStage(p, stages[0]), stages[1..]);
      assert p.stages + [stages[0]] + stages[1..] == p.stages + stages;
      r
  }

  /** A pipeline with stages added runs its old stages first, then the new
      ones on their output. */
  lemma AddStagesProcess(p: Pipeline, stages: seq<Stage>, data: Value)
    ensures Process(AddStages(p, stages), data) ==
      match Process(p, data)
      case Ok(mid) => RunStages(stages, mid)
      case Err(e) => Err(e)
  {
    RunStagesAppend(p.stages, stages, data);
  }

  /** The Input -> Transform -> Output pipeline every adapter is given. */
  function ThreeStagePipeline(id: string, kind: AdapterKind): (p: Pipeline)
    ensures p.stages == [InputStage, TransformStage, OutputStage]
  {
    AddStages(Pipeline(id, kind, []), [InputStage, TransformStage, OutputStage])
  }

  /** Running the three-stage pipeline on a payload the first two stages
      accept is rendering what the transform produced. */
  lemma RunThreeStages(id: string, kind: AdapterKind, data: Value, transformed: Value)
    requires InputProcess(data).Ok?
    requires TransformProcess(data) == Ok(transformed)
    ensures Process(ThreeStagePipeline(id, kind), data) == OutputProcess(transformed)
  {
    var last := [OutputStage];
    assert last[1..] == [];
    assert RunStages(last, transformed) == OutputProcess(transformed);
    var two := [TransformStage, OutputStage];
    assert two[1..] == last;
    assert RunStages(two, data) == RunStages(last, transformed);
    var stages := [InputStage, TransformStage, OutputStage];
    assert stages[1..] == two;
    assert RunStages(stages, data) == RunStages(two, data);
    assert ThreeStagePipeline(id, kind).stages == stages;
  }

  /** Through the three stages, a sensor reading without "headers" is
      rendered with its own value, unit and band. */
  lemma SensorReadingThroughStages(id: string, kind: AdapterKind, entries: seq<Entry>, v: int, u: Value)
    requires "sensor" in Keys(entries) && "headers" !in Keys(entries)
    requires Get(entries, "value") == Some(PyInt(v)) && Get(entries, "unit") == Some(u)
    ensures Process(ThreeStagePipeline(id, kind), PyDict(entries)) ==
      Ok(PyStr("Processed Temperature reading:" + IntToString(v) + "\U{B0}" + Str(u) + BandLabel(BandOf(v))))
  {
    var tagged := SensorReadingTransform(entries, v, u);
    RunThreeStages(id, kind, PyDict(entries), PyDict(tagged));
  }

  /** The transform stage tags a sensor reading, and the output stage then
      renders the tagged reading with the reading's own value and unit. */
  lemma SensorReadingTransform(entries: seq<Entry>, v: int, u: Value) returns (tagged: seq<Entry>)
    requires "sensor" in Keys(entries) && "headers" !in Keys(entries)
    requires Get(entries, "value") == Some(PyInt(v)) && Get(entries, "unit") == Some(u)
    ensures InputProcess(PyDict(entries)).Ok?
    ensures TransformProcess(PyDict(entries)) == Ok(PyDict(tagged))
    ensures OutputProcess(PyDict(tagged)) ==
      Ok(PyStr("Processed Temperature reading:" + IntToString(v) + "\U{B0}" + Str(u) + BandLabel(BandOf(v))))
  {
    tagged := Put(entries, "status", PyStr("valid"));
    ReadingOutput(tagged, v, u);
  }

  /** OutputStage on a reading with an int value and a unit but no headers. */
  lemma ReadingOutput(entries: seq<Entry>, v: int, u: Value)
    requires "headers" !in Keys(entries)
    requires Get(entries, "value") == Some(PyInt(v)) && Get(entries, "unit") == Some(u)
    ensures OutputProcess(PyDict(entries)) ==
      Ok(PyStr("Processed Temperature reading:" + IntToString(v) + "\U{B0}" + Str(u) + BandLabel(BandOf(v))))
  {
  }

  /** Through the three stages, any comma-separated string is logged as one
      action. */
  lemma CsvThroughStages(id: string, kind: AdapterKind, s: string)
    requires ',' in s
    ensures Process(ThreeStagePipeline(id, kind), PyStr(s)) ==
      Ok(PyStr("User activity logged: 1 actions processed"))
  {
    var headers := CsvTransform(s);
    CsvOutput(headers);
    RunThreeStages(id, kind, PyStr(s), CsvRecord(headers));
  }

  /** A string with a comma passes the input stage and, stripped of its
      ends, becomes the csv record of its comma-separated pieces. */
  lemma CsvTransform(s: string) returns (headers: seq<string>)
    requires ',' in s
    ensures InputProcess(PyStr(s)).Ok?
    ensures TransformProcess(PyStr(s)) == Ok(CsvRecord(headers))
    ensures headers == Split(DropEnds(s), ',')
  {
    assert s != INVALID_MARKER;
    headers := Split(DropEnds(s), ',');
  }

  /** The output stage logs a csv record as one action. */
  lemma CsvOutput(headers: seq<string>)
    ensures OutputProcess(CsvRecord(headers)) == Ok(PyStr("User activity logged: 1 actions processed"))
  {
    var record := CsvRecord(headers);
    assert "headers" in Keys(record.entries);
    OneActionText();
  }

  lemma OneActionText()
    ensures "User activity logged: " + Str(PyInt(1)) + " actions processed" ==
            "User activity logged: 1 actions processed"
  {
    assert NatToString(1) == "1";
  }

  /** The demonstration reading of 23 degrees lies in the normal band. */
  lemma DemoReadingIsNormal()
    ensures Process(ThreeStagePipeline("JSON_001", JsonAdapter),
                    PyDict([Entry("sensor", PyStr("temp")), Entry("value", PyInt(23)), Entry("unit", PyStr("C"))]))
         == Ok(PyStr("Processed Temperature reading:23\U{B0}C (Normal range)"))
  {
    var entries := [Entry("sensor", PyStr("temp")), Entry("value", PyInt(23)), Entry("unit", PyStr("C"))];
    assert entries[1..][1..] == [Entry("unit", PyStr("C"))];
    assert Keys(entries) == ["sensor", "value", "unit"];
    assert Get(entries, "value") == Some(PyInt(23));
    assert Get(entries, "unit") == Some(PyStr("C"));
    SensorReadingThroughStages("JSON_001", JsonAdapter, entries, 23, PyStr("C"));
    NormalReadingText();
  }

  lemma NormalReadingText()
    ensures "Processed Temperature reading:" + IntToString(23) + "\U{B0}" + Str(PyStr("C")) + BandLabel(BandOf(23)) ==
            "Processed Temperature reading:23\U{B0}C (Normal range)"
  {
    TwoDigitText(23);
    assert IntToString(23) == "23";
    assert BandLabel(BandOf(23)) == " (Normal range)";
    assert "Processed Temperature reading:" + "23" + "\U{B0}" + "C" + " (Normal range)" ==
           "Processed Temperature reading:23\U{B0}C (Normal range)";
  }

  /** Through the three stages, a non-empty string without a comma (and not
      the invalid marker) comes out as the canned stream summary. */
  lemma PlainTextThroughStages(id: string, kind: AdapterKind, s: string)
    requires |s| > 0 && ',' !in s && s != INVALID_MARKER
    ensures Process(ThreeStagePipeline(id, kind), PyStr(s)) == Ok(PyStr(STREAM_SUMMARY))
  {
    RunThreeStages(id, kind, PyStr(s), PyStr(s));
  }

  /** A temperature line rendered from a comma-free unit holds no comma. */
  lemma ReadingLineHasNoComma(v: int, u: Value)
    requires ',' !in Str(u)
    ensures var line := "Processed Temperature reading:" + IntToString(v) + "\U{B0}" + Str(u) + BandLabel(BandOf(v));
            && ',' !in line && |line| > 0 && line != INVALID_MARKER
  {
    var head, digits, tail := "Processed Temperature reading:", IntToString(v), BandLabel(BandOf(v));
    IntTextChars(v);
    assert ',' !in head && ',' !in digits && ',' !in tail;
    var line := head + digits + "\U{B0}" + Str(u) + tail;
    assert ',' !in head + digits;
    assert ',' !in head + digits + "\U{B0}";
    assert ',' !in head + digits + "\U{B0}" + Str(u);
    assert line[0] == head[0] == 'P';
    assert INVALID_MARKER[0] == 'I';
  }

  /** The stream summary itself holds a comma ("5 readings, avg"). */
  lemma SummaryHasComma()
    ensures ',' in STREAM_SUMMARY
  {
    assert STREAM_SUMMARY[26] == ',';
  }

  /** The chain demonstration: a reading goes through the JSON, CSV and
      stream pipelines in turn. The first renders it as a temperature line,
      the second turns that line into the stream summary, and the third,
      finding a comma in the summary, parses it as csv, so the chain ends
      with the activity line rather than the summary. */
  lemma DemoChain(v: int, u: Value)
    requires ',' !in Str(u)
    ensures var reading := PyDict([Entry("sensor", PyStr("start_chain")), Entry("value", PyInt(v)), Entry("unit", u)]);
            ExecuteChain(reading, [ThreeStagePipeline("JSON_001", JsonAdapter),
                                   ThreeStagePipeline("CSV_001", CsvAdapter),
                                   ThreeStagePipeline("STREAM_001", StreamAdapter)])
            == Some(PyStr("User activity logged: 1 actions processed"))
  {
    var entries := [Entry("sensor", PyStr("start_chain")), Entry("value", PyInt(v)), Entry("unit", u)];
    var line := DemoChainReadingLine(v, u);
    SummaryHasComma();
    CsvThroughStages("STREAM_001", StreamAdapter, STREAM_SUMMARY);
    ChainOfThree(ThreeStagePipeline("JSON_001", JsonAdapter),
                 ThreeStagePipeline("CSV_001", CsvAdapter),
                 ThreeStagePipeline("STREAM_001", StreamAdapter),
                 PyDict(entries), PyStr(line), PyStr(STREAM_SUMMARY),
                 PyStr("User activity logged: 1 actions processed"));
  }

  /** The first two links of the chain demonstration: the JSON pipeline
      renders the reading as a comma-free temperature line, which the CSV
      pipeline turns into the stream summary. */
  lemma DemoChainReadingLine(v: int, u: Value) returns (line: string)
    requires ',' !in Str(u)
    ensures var reading := PyDict([Entry("sensor", PyStr("start_chain")), Entry("value", PyInt(v)), Entry("unit", u)]);
            && Process(ThreeStagePipeline("JSON_001", JsonAdapter), reading) == Ok(PyStr(line))
            && Process(ThreeStagePipeline("CSV_001", CsvAdapter), PyStr(line)) == Ok(PyStr(STREAM_SUMMARY))
  {
    var entries := [Entry("sensor", PyStr("start_chain")), Entry("value", PyInt(v)), Entry("unit", u)];
    DemoReadingFields(v, u);
    line := "Processed Temperature reading:" + IntToString(v) + "\U{B0}" + Str(u) + BandLabel(BandOf(v));
    SensorReadingThroughStages("JSON_001", JsonAdapter, entries, v, u);
    ReadingLineHasNoComma(v, u);
    PlainTextThroughStages("CSV_001", CsvAdapter, line);
  }

  /** A chain of three pipelines that each succeed ends with the last one's
      result. */
  lemma ChainOfThree(p1: Pipeline, p2: Pipeline, p3: Pipeline, a: Value, b: Value, c: Value, d: Value)
    requires Process(p1, a) == Ok(b) && Process(p2, b) == Ok(c) && Process(p3, c) == Ok(d)
    ensures ExecuteChain(a, [p1, p2, p3]) == Some(d)
  {
    assert [p3][1..] == [];
    assert ExecuteChain(c, [p3]) == Some(d);
    assert [p2, p3][1..] == [p3];
    assert ExecuteChain(b, [p2, p3]) == Some(d);
    assert [p1, p2, p3][1..] == [p2, p3];
  }

  /** The keys, value and unit of the chain demonstration's reading. */
  lemma DemoReadingFields(v: int, u: Value)
    ensures var entries := [Entry("sensor", PyStr("start_chain")), Entry("value", PyInt(v)), Entry("unit", u)];
            && Keys(entries) == ["sensor", "value", "unit"]
            && Get(entries, "value") == Some(PyInt(v))
            && Get(entries, "unit") == Some(u)
  {
    var entries := [Entry("sensor", PyStr("start_chain")), Entry("value", PyInt(v)), Entry("unit", u)];
    assert entries[1..][1..] == [Entry("unit", u)];
    assert Keys(entries[1..][1..]) == ["unit"];
    assert Keys(entries[1..]) == ["value", "unit"];
    assert Get(entries[1..][1..], "unit") == Some(u);
    assert Get(entries[1..], "unit") == Some(u);
  }

  // ---------------------------------------------------------------------
  // Manager: routing and chains
  // ---------------------------------------------------------------------

  /** NexusManager.add_pipeline: registers the pipelines in argument order. */
  function AddPipelines(m: Manager, ps: seq<Pipeline>): (r: Manager)
    ensures r.pipelines == m.pipelines + ps
    decreases |ps|
  {
    if |ps| == 0 then m
    else
      var r := AddPipelines(Manager(m.pipelines + [ps[0]]), ps[1..]);
      assert m.pipelines + [ps[0]] + ps[1..] == m.pipelines + ps;
      r
  }

  /** The routing test of process_data: the pipeline's class matches the
      requested format name. */
  predicate Matches(p: Pipeline, format: string) {
    || (p.kind == JsonAdapter && format == "json")
    || (p.kind == CsvAdapter && format == "csv")
    || (p.kind == StreamAdapter && format == "stream")
  }

  /** Index of the first registered pipeline matching `format`. */
  function FirstMatch(ps: seq<Pipeline>, format: string): (r: Option<nat>)
    ensures r.None? <==> forall j :: 0 <= j < |ps| ==> !Matches(ps[j], format)
    ensures r.Some? ==>
      && r.value < |ps| && Matches(ps[r.value], format)
      && forall j :: 0 <= j < r.value ==> !Matches(ps[j], format)
    decreases |ps|
  {
    if |ps| == 0 then None
    else if Matches(ps[0], format) then Some(0)
    else match FirstMatch(ps[1..], format)
      case None => None
      case Some(i) => Some(i + 1)
  }

  /** NexusManager.process_data: the result of the first registered pipeline
      whose class matches the format; a PipelineError naming the format when
      none does, which is always the case for a format other than
      "json", "csv" and "stream". */
  function ProcessData(m: Manager, data: Value, format: string): (r: PyResult<Value>)
    ensures (forall j :: 0 <= j < |m.pipelines| ==> !Matches(m.pipelines[j], format)) ==>
      r == Err(PipelineError(" No suitable pipeline found for " + format))
    ensures forall i ::
      (0 <= i < |m.pipelines| && Matches(m.pipelines[i], format) &&
       forall j :: 0 <= j < i ==> !Matches(m.pipelines[j], format))
      ==> r == Process(m.pipelines[i], data)
    ensures format != "json" && format != "csv" && format != "stream" ==>
      r == Err(PipelineError(" No suitable pipeline found for " + format))
  {
    match FirstMatch(m.pipelines, format)
    case None => Err(PipelineError(" No suitable pipeline found for " + format))
    case Some(i) => Process(m.pipelines[i], data)
  }

  /** The chain loop of execute_chain, with failures still visible. */
  function RunChain(chain: seq<Pipeline>, data: Value): PyResult<Value>
    decreases |chain|
  {
    if |chain| == 0 then Ok(data)
    else
      var next :- Process(chain[0], data);
      RunChain(chain[1..], next)
  }

  /** Chaining `a + b` feeds the output of `a` into `b`. */
  lemma {:induction false} RunChainAppend(a: seq<Pipeline>, b: seq<Pipeline>, data: Value)
    ensures RunChain(a + b, data) ==
      match RunChain(a, data)
      case Ok(mid) => RunChain(b, mid)
      case Err(e) => Err(e)
    decreases |a|
  {
    if |a| == 0 {
      assert a + b == b;
    } else {
      assert (a + b)[0] == a[0];
      assert (a + b)[1..] == a[1..] + b;
      match Process(a[0], data)
      case Ok(next) => RunChainAppend(a[1..], b, next);
      case Err(_) =>
    }
  }

  /** NexusManager.execute_chain: the final value when every pipeline of the
      chain succeeds, `None` as soon as any of them raises. The model keeps
      that failure (`None`) apart from a chain whose final value is Python's
      None (`Some(PyNone)`); a Python caller cannot tell the two apart. */
  function ExecuteChain(data: Value, chain: seq<Pipeline>): (r: Option<Value>)
    ensures |chain| == 0 ==> r == Some(data)
    ensures |chain| > 0 ==>
      match Process(chain[0], data)
      case Err(_) => r == None
      case Ok(mid) => r == ExecuteChain(mid, chain[1..])
    decreases |chain|
  {
    match RunChain(chain, data)
    case Ok(v) => Some(v)
    case Err(_) => None
  }

  /** A failure anywhere in the chain makes the whole chain `None`, even when
      earlier pipelines produced a value. */
  lemma ChainFailureIsNone(chain: seq<Pipeline>, data: Value, i: nat, mid: Value)
    requires i < |chain|
    requires RunChain(chain[..i], data) == Ok(mid)
    requires Process(chain[i], mid).Err?
    ensures ExecuteChain(data, chain) == None
  {
    assert chain == chain[..i] + ([chain[i]] + chain[i + 1..]);
    RunChainAppend(chain[..i], [chain[i]] + chain[i + 1..], data);
  }

  /** execute_chain does not fall back to the last good value: the first
      pipeline accepts the invalid marker, the second rejects it, and the
      chain yields `None`. */
  lemma ChainDropsLastGoodValue()
    ensures var first := Pipeline("A", JsonAdapter, [InputStage]);
            var second := Pipeline("B", CsvAdapter, [TransformStage]);
            && Process(first, PyStr(INVALID_MARKER)) == Ok(PyStr(INVALID_MARKER))
            && ExecuteChain(PyStr(INVALID_MARKER), [first, second]) == None
  {
    var first := Pipeline("A", JsonAdapter, [InputStage]);
    var second := Pipeline("B", CsvAdapter, [TransformStage]);
    ChainFailureIsNone([first, second], PyStr(INVALID_MARKER), 1, PyStr(INVALID_MARKER));
  }
}
