/** The polymorphic stream handlers of main.py: a DataStream base with a
    substring filter and a stats snapshot, and three variants that each
    summarise a batch their own way. A summary is kept as the record of the
    numbers the handler reports; the transaction and event lines are also
    rendered as text. */
module Streams {
  import opened Results
  import opened Text
  import opened Seqs
  import opened PyValues

  datatype StreamKind = SensorStream | TransactionStream | EventStream

  /** A handler: its id, its status and which subclass it is. The handlers
      keep no other state; no operation returns a changed handler. */
  datatype DataStream = DataStream(streamId: string, status: string, kind: StreamKind)

  /** What `process_batch` reports, without the sensor average. */
  datatype Summary =
    | SensorAnalysis(readings: nat)
    | TransactionAnalysis(operations: nat, netFlow: int)
    | EventAnalysis(events: nat, errors: nat)

  /** What `process_stream_batch` prints: a summary, or the failure. */
  datatype Report = Printed(summary: Summary) | Failed(error: PyError)

  /** A buy or sell order parsed from an `"<action>:<magnitude>"` item. */
  datatype Trade = Trade(action: string, magnitude: int)

  /** The status every handler is created with. */
  const ACTIVE := "active"

  /** TransactionStream's "high_value" filter keeps magnitudes above this. */
  const HIGH_VALUE_THRESHOLD := 500

  /** The item EventStream counts as an error. */
  const ERROR_EVENT := PyStr("error")

  // ---------------------------------------------------------------------
  // Construction and stats
  // ---------------------------------------------------------------------

  /** DataStream.__init__: the given id, status "active". */
  function NewStream(id: string, kind: StreamKind): (s: DataStream)
    ensures s.streamId == id && s.status == ACTIVE && s.kind == kind
  {
    DataStream(id, ACTIVE, kind)
  }

  function ClassName(kind: StreamKind): string {
    match kind
    case SensorStream => "SensorStream"
    case TransactionStream => "TransactionStream"
    case EventStream => "EventStream"
  }

  /** DataStream.get_stats: a fresh dict with the id, the status and the
      handler's class name, in that order. */
  function GetStats(s: DataStream): (r: Value)
    ensures r.PyDict? && Keys(r.entries) == ["id", "status", "type"]
    ensures Get(r.entries, "id") == Some(PyStr(s.streamId))
    ensures Get(r.entries, "status") == Some(PyStr(s.status))
    ensures Get(r.entries, "type") == Some(PyStr(ClassName(s.kind)))
  {
    var entries := [Entry("id", PyStr(s.streamId)), Entry("status", PyStr(s.status)),
                    Entry("type", PyStr(ClassName(s.kind)))];
    assert Keys(entries[2..]) == ["type"];
    assert Keys(entries[1..]) == ["status", "type"];
    assert Get(entries[1..], "type") == Get(entries[2..], "type");
    PyDict(entries)
  }

  /** A new handler reports itself active under its id and class. */
  lemma NewStreamStats(id: string, kind: StreamKind)
    ensures var stats := GetStats(NewStream(id, kind)).entries;
            && Get(stats, "id") == Some(PyStr(id))
            && Get(stats, "status") == Some(PyStr("active"))
            && Get(stats, "type") == Some(PyStr(ClassName(kind)))
  {
  }

  // ---------------------------------------------------------------------
  // Filtering
  // ---------------------------------------------------------------------

  /** `needle in str(x)`. */
  predicate Mentions(x: Value, needle: string) {
    Contains(Str(x), needle)
  }

  /** DataStream.filter_data. No criteria (None or "") returns the batch
      itself; otherwise the items whose string form contains the criteria,
      each as often as in the batch, the rest dropped. */
  function BaseFilter(batch: seq<Value>, criteria: Option<string>): (r: seq<Value>)
    ensures criteria == None || criteria == Some("") ==> r == batch
    ensures criteria.Some? ==> forall x :: x in r <==> x in batch && Mentions(x, criteria.value)
    ensures criteria.Some? ==> forall x :: Mentions(x, criteria.value) ==> multiset(r)[x] == multiset(batch)[x]
    ensures criteria.Some? ==> forall x :: !Mentions(x, criteria.value) ==> multiset(r)[x] == 0
  {
    if criteria.None? || criteria.value == "" then
      assert forall x :: Mentions(x, "") by {
        forall x ensures Mentions(x, "") {
          assert OccursAt(Str(x), "", 0);
        }
      }
      batch
    else Filter(batch, x => Mentions(x, criteria.value))
  }

  /** The base filter keeps the batch order: filtering a concatenation is
      concatenating the filtered parts. */
  lemma BaseFilterAppend(a: seq<Value>, b: seq<Value>, criteria: Option<string>)
    ensures BaseFilter(a + b, criteria) == BaseFilter(a, criteria) + BaseFilter(b, criteria)
  {
    if criteria.Some? && criteria.value != "" {
      FilterAppend(a, b, x => Mentions(x, criteria.value));
    }
  }

  /** SensorStream's "critical" test. */
  predicate IsCritical(x: Value) {
    Mentions(x, "alert") || Mentions(x, "crit")
  }

  /** SensorStream.filter_data: "critical" keeps the items mentioning
      "alert" or "crit"; any other criteria is the base filter. */
  function SensorFilter(batch: seq<Value>, criteria: Option<string>): (r: seq<Value>)
    ensures criteria == Some("critical") ==>
      && (forall x :: x in r <==> x in batch && IsCritical(x))
      && (forall x :: IsCritical(x) ==> multiset(r)[x] == multiset(batch)[x])
    ensures criteria != Some("critical") ==> r == BaseFilter(batch, criteria)
  {
    if criteria == Some("critical") then Filter(batch, IsCritical)
    else BaseFilter(batch, criteria)
  }

  /** `int(x.split(":")[1])`: AttributeError for a non-string, IndexError
      without a colon, ValueError when the second field is not an int. */
  function Magnitude(x: Value): (r: PyResult<int>)
    ensures r.Ok? ==> x.PyStr? && ':' in x.s
    ensures x.PyStr? && ':' !in x.s ==> r.Err? && r.error.IndexError?
    ensures !x.PyStr? ==> r.Err? && r.error.AttributeError?
    ensures x.PyStr? && ':' in x.s && r.Err? ==> r.error.ValueError?
  {
    if !x.PyStr? then Err(AttributeError("'" + TypeName(x) + "' object has no attribute 'split'"))
    else
      var parts := Split(x.s, ':');
      SplitCount(x.s, ':');
      if |parts| < 2 then Err(IndexError("list index out of range"))
      else match ParseInt(parts[1])
        case None => Err(ValueError("invalid literal for int() with base 10: '" + parts[1] + "'"))
        case Some(n) => Ok(n)
  }

  /** The magnitude of a well-formed trade item is the trade's number. */
  lemma MagnitudeOfTrade(x: Value)
    requires TradeOf(x).Some?
    ensures Magnitude(x) == Ok(TradeOf(x).value.magnitude)
  {
    TradeOfSplit(x.s);
    SplitCount(x.s, ':');
  }

  /** The magnitude is the field between the first and the second colon,
      read with `int()`; whatever follows a second colon is ignored. */
  lemma MagnitudeField(a: string, b: string, rest: string)
    requires ':' !in a && ':' !in b
    ensures Magnitude(PyStr(a + ":" + b)) ==
      if ParseInt(b).Some? then Ok(ParseInt(b).value)
      else Err(ValueError("invalid literal for int() with base 10: '" + b + "'"))
    ensures Magnitude(PyStr(a + ":" + b + ":" + rest)) == Magnitude(PyStr(a + ":" + b))
  {
    assert a + ":" + b == a + [':'] + b;
    SplitAfterPiece(a, ':', b);
    assert Split(b, ':') == [b];
    assert a + ":" + b + ":" + rest == a + [':'] + (b + [':'] + rest);
    SplitAfterPiece(a, ':', b + [':'] + rest);
    SplitAfterPiece(b, ':', rest);
  }

  /** The "high_value" test, for an item whose magnitude can be read. */
  predicate IsHighValue(x: Value) {
    Magnitude(x).Ok? && Magnitude(x).value > HIGH_VALUE_THRESHOLD
  }

  /** A readable first item in front of `k` readable items of the tail
      makes `k + 1` readable items of the batch. */
  lemma ReadablePrefix(batch: seq<Value>, k: nat)
    requires k < |batch| && Magnitude(batch[0]).Ok?
    requires forall j :: 0 <= j < k ==> Magnitude(batch[1..][j]).Ok?
    ensures forall j :: 0 <= j < k + 1 ==> Magnitude(batch[j]).Ok?
  {
    forall j | 0 <= j < k + 1 ensures Magnitude(batch[j]).Ok? {
      if j > 0 {
        assert batch[j] == batch[1..][j - 1];
      }
    }
  }

  /** `[x for x in batch if int(x.split(":")[1]) > 500]`: the items are read
      in order and the first one that cannot be read raises. */
  function HighValueFilter(batch: seq<Value>): (r: PyResult<seq<Value>>)
    ensures r.Ok? <==> forall k :: 0 <= k < |batch| ==> Magnitude(batch[k]).Ok?
    ensures r.Ok? ==> r.value == Filter(batch, IsHighValue)
    ensures r.Err? ==> exists k :: 0 <= k < |batch| && Magnitude(batch[k]) == Err(r.error) &&
                                   forall j :: 0 <= j < k ==> Magnitude(batch[j]).Ok?
    decreases |batch|
  {
    if |batch| == 0 then Ok([])
    else
      match Magnitude(batch[0])
      case Err(e) =>
        assert Magnitude(batch[0]) == Err(e);
        Err(e)
      case Ok(n) =>
        match HighValueFilter(batch[1..])
        case Err(e) =>
          ghost var k :| 0 <= k < |batch[1..]| && Magnitude(batch[1..][k]) == Err(e) &&
                         forall j :: 0 <= j < k ==> Magnitude(batch[1..][j]).Ok?;
          assert Magnitude(batch[k + 1]) == Err(e);
          ReadablePrefix(batch, k);
          Err(e)
        case Ok(rest) =>
          ReadablePrefix(batch, |batch| - 1);
          assert IsHighValue(batch[0]) <==> n > HIGH_VALUE_THRESHOLD;
          assert Filter(batch, IsHighValue) ==
                 if IsHighValue(batch[0]) then [batch[0]] + Filter(batch[1..], IsHighValue)
                 else Filter(batch[1..], IsHighValue);
          Ok(if n > HIGH_VALUE_THRESHOLD then [batch[0]] + rest else rest)
  }

  /** TransactionStream.filter_data: "high_value" is the magnitude filter;
      any other criteria, None and plain substrings included, returns the
      batch unchanged. */
  function TransactionFilter(batch: seq<Value>, criteria: Option<string>): (r: PyResult<seq<Value>>)
    ensures criteria != Some("high_value") ==> r == Ok(batch)
    ensures criteria == Some("high_value") ==>
      && (r.Ok? <==> forall k :: 0 <= k < |batch| ==> Magnitude(batch[k]).Ok?)
      && (r.Ok? ==> forall x :: x in r.value <==> x in batch && IsHighValue(x))
  {
    if criteria == Some("high_value") then HighValueFilter(batch) else Ok(batch)
  }

  /** `filter_data` dispatched on the handler's class. */
  function FilterData(s: DataStream, batch: seq<Value>, criteria: Option<string>): (r: PyResult<seq<Value>>)
    ensures r.Err? ==> s.kind == TransactionStream && criteria == Some("high_value")
    ensures r.Ok? ==> multiset(r.value) <= multiset(batch)
    ensures criteria == None ==> r == Ok(batch)
  {
    match s.kind
    case SensorStream => Ok(SensorFilter(batch, criteria))
    case TransactionStream => TransactionFilter(batch, criteria)
    case EventStream => Ok(BaseFilter(batch, criteria))
  }

  /** Filtering without criteria is the identity for every handler. */
  lemma FilterWithoutCriteria(s: DataStream, batch: seq<Value>)
    ensures FilterData(s, batch, None) == Ok(batch)
  {
  }

  // ---------------------------------------------------------------------
  // Batch processing
  // ---------------------------------------------------------------------

  /** The trade an item denotes: a string with exactly one colon whose second
      field is an int. */
  function TradeOf(item: Value): (t: Option<Trade>)
    ensures t.Some? ==> item.PyStr? && multiset(item.s)[':'] == 1
  {
    if item.PyStr? && multiset(item.s)[':'] == 1 then
      var i := IndexOf(item.s, ':');
      match ParseInt(item.s[i + 1..])
      case Some(n) => Some(Trade(item.s[..i], n))
      case None => None
    else None
  }

  /** A string with a colon that is not a trade: process_batch raises on it. */
  predicate Malformed(item: Value) {
    item.PyStr? && ':' in item.s && TradeOf(item).None?
  }

  /** Some item of the batch is malformed. */
  predicate HasMalformed(batch: seq<Value>) {
    exists k :: 0 <= k < |batch| && Malformed(batch[k])
  }

  /** The sum of the magnitudes of the trades in `batch` with the given action. */
  ghost function ActionTotal(batch: seq<Value>, action: string): int
    decreases |batch|
  {
    if |batch| == 0 then 0
    else
      (match TradeOf(batch[0])
       case Some(t) => if t.action == action then t.magnitude else 0
       case None => 0)
      + ActionTotal(batch[1..], action)
  }

  /** What a trade adds to the net flow: a buy adds its magnitude, a sell
      subtracts it, any other action adds nothing. */
  function Contribution(t: Trade): int {
    if t.action == "buy" then t.magnitude
    else if t.action == "sell" then -t.magnitude
    else 0
  }

  /** The reference net flow: bought units minus sold units. */
  ghost function NetTotal(batch: seq<Value>): int {
    ActionTotal(batch, "buy") - ActionTotal(batch, "sell")
  }

  /** One item's contribution to the net flow: `action, val_str =
      item.split(":")` raises for two or more colons, `int(val_str)` raises
      for a bad magnitude (whatever the action), and anything but a string
      with a colon adds nothing. */
  function ItemFlow(item: Value): (r: PyResult<int>)
    ensures r.Err? <==> Malformed(item)
    ensures r.Err? ==> r.error.ValueError?
    ensures item.PyStr? && multiset(item.s)[':'] >= 2 ==>
      r == Err(ValueError("too many values to unpack (expected 2)"))
    ensures r.Ok? && TradeOf(item).Some? ==> r.value == Contribution(TradeOf(item).value)
    ensures r.Ok? && TradeOf(item).None? ==> r.value == 0
  {
    if item.PyStr? && ':' in item.s then
      var parts := Split(item.s, ':');
      TradeOfSplit(item.s);
      SplitCount(item.s, ':');
      if |parts| != 2 then Err(ValueError("too many values to unpack (expected 2)"))
      else match ParseInt(parts[1])
        case None => Err(ValueError("invalid literal for int() with base 10: '" + parts[1] + "'"))
        case Some(n) => Ok(Contribution(Trade(parts[0], n)))
    else
      Ok(0)
  }

  /** TradeOf in terms of `split(":")`: a trade exactly when the split has
      two fields and the second parses. */
  lemma TradeOfSplit(s: string)
    requires ':' in s
    ensures var parts := Split(s, ':');
            && (|parts| != 2 ==> TradeOf(PyStr(s)) == None)
            && (|parts| == 2 && ParseInt(parts[1]).None? ==> TradeOf(PyStr(s)) == None)
            && (|parts| == 2 && ParseInt(parts[1]).Some? ==>
                  TradeOf(PyStr(s)) == Some(Trade(parts[0], ParseInt(parts[1]).value)))
  {
    SplitCount(s, ':');
    if multiset(s)[':'] == 1 {
      SplitOneColon(s);
    }
  }

  /** With exactly one colon, `split(":")` gives the text before and after it. */
  lemma SplitOneColon(s: string)
    requires multiset(s)[':'] == 1
    ensures var i := IndexOf(s, ':');
            Split(s, ':') == [s[..i], s[i + 1..]]
  {
    var i := IndexOf(s, ':');
    assert s == s[..i] + [':'] + s[i + 1..];
    assert multiset(s) == multiset(s[..i]) + multiset{':'} + multiset(s[i + 1..]);
    assert multiset(s[..i])[':'] == 0;
    assert ':' !in s[i + 1..];
  }

  /** TransactionStream.process_batch's running net flow. */
  function NetFlow(batch: seq<Value>): (r: PyResult<int>)
    ensures r.Err? <==> exists k :: 0 <= k < |batch| && Malformed(batch[k])
    ensures r.Err? ==> r.error.ValueError?
    ensures r.Ok? ==> r.value == ActionTotal(batch, "buy") - ActionTotal(batch, "sell")
    decreases |batch|
  {
    if |batch| == 0 then Ok(0)
    else
      var head :- ItemFlow(batch[0]);
      var rest :- NetFlowOrWitness(batch);
      Ok(head + rest)
  }

  /** The net flow of the tail, exposing a malformed item of the tail as a
      malformed item of the whole batch. */
  function NetFlowOrWitness(batch: seq<Value>): (r: PyResult<int>)
    requires |batch| > 0
    ensures r == NetFlow(batch[1..])
    ensures r.Err? ==> exists k :: 0 <= k < |batch| && Malformed(batch[k])
    ensures (forall k :: 0 <= k < |batch| ==> !Malformed(batch[k])) ==> r.Ok?
    decreases |batch|, 0
  {
    var r := NetFlow(batch[1..]);
    if r.Err? then
      ghost var k :| 0 <= k < |batch[1..]| && Malformed(batch[1..][k]);
      assert Malformed(batch[k + 1]);
      r
    else
      assert forall k :: 1 <= k < |batch| ==> !Malformed(batch[k]) by {
        forall k | 1 <= k < |batch| ensures !Malformed(batch[k]) {
          assert batch[k] == batch[1..][k - 1];
        }
      }
      r
  }

  /** TransactionStream.process_batch: the number of items and the net flow,
      or the error of the first malformed item. */
  function TransactionBatch(batch: seq<Value>): (r: PyResult<Summary>)
    ensures r.Err? <==> HasMalformed(batch)
    ensures r.Err? ==> r.error.ValueError?
    ensures r.Ok? ==> r.value.TransactionAnalysis? && r.value.operations == |batch|
    ensures r.Ok? ==> r.value.netFlow == NetTotal(batch)
  {
    match NetFlow(batch)
    case Err(e) => Err(e)
    case Ok(net) => Ok(TransactionAnalysis(|batch|, net))
  }

  /** `"<action>:<n>"` reads as the trade it spells, for a colon-free action. */
  lemma TradeText(action: string, n: int)
    requires ':' !in action
    ensures TradeOf(PyStr(action + ":" + IntToString(n))) == Some(Trade(action, n))
  {
    IntTextChars(n);
    ParseIntRoundTrip(n);
    TradeOfColonFree(action, IntToString(n));
  }

  /** `"<action>:<rest>"` with colon-free parts reads as a trade exactly when
      `rest` is an int literal. */
  lemma TradeOfColonFree(action: string, rest: string)
    requires ':' !in action && ':' !in rest
    ensures TradeOf(PyStr(action + ":" + rest)) ==
      if ParseInt(rest).Some? then Some(Trade(action, ParseInt(rest).value)) else None
  {
    var s := action + [':'] + rest;
    assert action + ":" + rest == s;
    IndexOfAfterPrefix(action, ':', rest);
    assert multiset(s) == multiset(action) + multiset{':'} + multiset(rest);
    assert multiset(action)[':'] == 0 && multiset(rest)[':'] == 0;
    assert s[..|action|] == action;
    assert s[|action| + 1..] == rest;
  }

  lemma HundredText()
    ensures IntToString(100) == "100"
  {
    assert NatToString(1) == "1";
    assert NatToString(10) == "10";
  }

  lemma DemoBuy()
    ensures TradeOf(PyStr("buy:100")) == Some(Trade("buy", 100))
  {
    HundredText();
    assert "buy" + ":" + "100" == "buy:100";
    TradeText("buy", 100);
  }

  lemma DemoSell()
    ensures TradeOf(PyStr("sell:150")) == Some(Trade("sell", 150))
  {
    assert NatToString(1) == "1";
    assert NatToString(15) == "15";
    assert IntToString(150) == "150";
    assert "sell" + ":" + "150" == "sell:150";
    TradeText("sell", 150);
  }

  lemma DemoSmallBuy()
    ensures TradeOf(PyStr("buy:75")) == Some(Trade("buy", 75))
  {
    assert NatToString(7) == "7";
    assert IntToString(75) == "75";
    assert "buy" + ":" + "75" == "buy:75";
    TradeText("buy", 75);
  }

  /** Three orders reading as buy 100, sell 150 and buy 75 leave a net flow of 25. */
  lemma ThreeOrders(a: Value, b: Value, c: Value)
    requires TradeOf(a) == Some(Trade("buy", 100))
    requires TradeOf(b) == Some(Trade("sell", 150))
    requires TradeOf(c) == Some(Trade("buy", 75))
    ensures var r := TransactionBatch([a, b, c]);
            r.Ok? && r.value.operations == 3 && r.value.netFlow == 25
  {
    var batch := [a, b, c];
    assert !HasMalformed(batch);
    assert batch[1..] == [b, c];
    assert batch[1..][1..] == [c];
    assert [c][1..] == [];
    assert "buy" != "sell" by { assert "buy"[0] != "sell"[0]; }
    assert ActionTotal([c], "buy") == 75;
    assert ActionTotal([c], "sell") == (if TradeOf(c).value.action == "sell" then 75 else 0) + ActionTotal([], "sell");
    assert ActionTotal([c], "sell") == 0;
    assert ActionTotal([b, c], "buy") == 75 && ActionTotal([b, c], "sell") == 150;
    assert ActionTotal(batch, "buy") == 175;
    assert ActionTotal(batch, "sell") == 150;
  }

  /** The three-order batch of the demonstration: buy 100, sell 150, buy 75. */
  lemma DemoTransactions()
    ensures var r := TransactionBatch([PyStr("buy:100"), PyStr("sell:150"), PyStr("buy:75")]);
            r.Ok? && r.value.operations == 3 && r.value.netFlow == 25
  {
    DemoBuy();
    DemoSell();
    DemoSmallBuy();
    ThreeOrders(PyStr("buy:100"), PyStr("sell:150"), PyStr("buy:75"));
  }

  lemma TwentyFiveText()
    ensures FlowText(25) == "+25"
  {
    assert NatToString(2) == "2";
    assert IntToString(25) == "25";
    assert FlowText(25) == "+" + IntToString(25);
  }

  /** ... which prints a net flow of "+25". */
  lemma DemoTransactionsText()
    ensures SummaryText(TransactionAnalysis(3, 25)) ==
            "Transaction analysis: " + "3" + " operations, net flow: " + "+25" + " units"
  {
    TwentyFiveText();
    assert IntToString(3) == "3";
  }

  /** The net flow as printed: a `+` before a non-negative number. */
  function FlowText(net: int): (t: string)
    ensures |t| >= 2
    ensures t[0] == '+' <==> net >= 0
    ensures ParseInt(t) == Some(net)
  {
    if net >= 0 then
      ParsePlusRoundTrip(net);
      "+" + IntToString(net)
    else
      ParseIntRoundTrip(net);
      IntToString(net)
  }

  /** EventStream.process_batch: the batch size and how many items equal
      "error" exactly. */
  function EventBatch(batch: seq<Value>): (r: Summary)
    ensures r.EventAnalysis? && r.events == |batch|
    ensures r.errors == multiset(batch)[ERROR_EVENT]
    ensures r.errors <= r.events
  {
    EventAnalysis(|batch|, Count(batch, ERROR_EVENT))
  }

  /** `process_batch` dispatched on the handler's class. SensorStream counts
      every item of the batch as a reading, whatever the item is, and never
      raises: a reading that does not parse as a number is skipped by the
      average only. */
  function ProcessBatch(s: DataStream, batch: seq<Value>): (r: PyResult<Summary>)
    ensures r.Err? <==> s.kind == TransactionStream && HasMalformed(batch)
    ensures r.Err? ==> r.error.ValueError?
    ensures s.kind == SensorStream ==> r == Ok(SensorAnalysis(|batch|))
    ensures s.kind == TransactionStream && r.Ok? ==> r.value == TransactionAnalysis(|batch|, NetTotal(batch))
    ensures s.kind == EventStream ==> r == Ok(EventAnalysis(|batch|, multiset(batch)[ERROR_EVENT]))
  {
    match s.kind
    case SensorStream => Ok(SensorAnalysis(|batch|))
    case TransactionStream => TransactionBatch(batch)
    case EventStream => Ok(EventBatch(batch))
  }

  /** The line process_batch returns for a summary; the sensor line leaves
      out the average temperature. */
  function SummaryText(summary: Summary): (t: string)
    ensures summary.SensorAnalysis? ==> ReadsAt(t, 17, summary.readings)
    ensures summary.TransactionAnalysis? ==> ReadsAt(t, 22, summary.operations)
    ensures summary.TransactionAnalysis? ==>
      var i := 45 + |IntToString(summary.operations)|;
      i + |FlowText(summary.netFlow)| <= |t| && ParseInt(t[i..i + |FlowText(summary.netFlow)|]) == Some(summary.netFlow)
    ensures summary.EventAnalysis? ==> ReadsAt(t, 16, summary.events)
    ensures summary.EventAnalysis? ==> ReadsAt(t, 25 + |IntToString(summary.events)|, summary.errors)
  {
    match summary
    case SensorAnalysis(n) =>
      NumberAt("Sensor analysis: ", n, " readings processed");
      "Sensor analysis: " + IntToString(n) + " readings processed"
    case TransactionAnalysis(n, net) => TransactionLine(n, net)
    case EventAnalysis(n, errors) => EventLine(n, errors)
  }

  /** "Transaction analysis: <n> operations, net flow: <flow> units". */
  function TransactionLine(n: nat, net: int): (t: string)
    ensures ReadsAt(t, 22, n)
    ensures var i := 45 + |IntToString(n)|;
      i + |FlowText(net)| <= |t| && ParseInt(t[i..i + |FlowText(net)|]) == Some(net)
  {
    var flow := FlowText(net);
    NumberThenText("Transaction analysis: ", n, " operations, net flow: ", flow, " units");
    "Transaction analysis: " + IntToString(n) + " operations, net flow: " + flow + " units"
  }

  /** "Event analysis: <n> events, <errors> error detected". */
  function EventLine(n: nat, errors: nat): (t: string)
    ensures ReadsAt(t, 16, n)
    ensures ReadsAt(t, 25 + |IntToString(n)|, errors)
  {
    TwoNumbersAt("Event analysis: ", n, " events, ", errors, " error detected");
    "Event analysis: " + IntToString(n) + " events, " + IntToString(errors) + " error detected"
  }

  /** StreamProcessor.process_stream_batch never raises: it prints the
      summary, or the failure, which only a transaction batch holding a
      malformed item can produce. */
  function ProcessStreamBatch(s: DataStream, batch: seq<Value>): (r: Report)
    ensures r.Failed? <==> s.kind == TransactionStream && HasMalformed(batch)
    ensures r.Printed? ==> ProcessBatch(s, batch) == Ok(r.summary)
    ensures r.Failed? ==> r.error.ValueError?
    ensures s.kind == SensorStream ==> r == Printed(SensorAnalysis(|batch|))
    ensures s.kind == EventStream ==> r == Printed(EventAnalysis(|batch|, multiset(batch)[ERROR_EVENT]))
  {
    match ProcessBatch(s, batch)
    case Ok(summary) => Printed(summary)
    case Err(e) => Failed(e)
  }
}
