/** The three data processors of ex0/stream_processor.py. Each validates its
    input and turns it into a one-line report. NumericProcessor also adds
    every accepted batch to a running sum that its class keeps, so all its
    instances share one sum; that sum is threaded through explicitly here. */
module Processors {
  import opened Results
  import opened Text
  import opened PyValues

  /** The class-level state of NumericProcessor (the average is left out). */
  datatype Totals = Totals(sumData: int)

  /** The state before any batch has been processed. */
  const INITIAL_TOTALS := Totals(0)

  /** What NumericProcessor.process reports: the batch size and its sum, or
      that the batch did not validate. */
  datatype NumericReport = Summed(count: nat, total: int) | NumericRejected

  /** The report together with the shared state after the call. */
  datatype NumericStep = NumericStep(totals: Totals, report: NumericReport)

  /** What TextProcessor.process reports. */
  datatype TextReport = Counted(chars: nat, words: nat) | TextRejected

  /** The rejection line of NumericProcessor and LogProcessor. Like every
      rejection line it starts with "Error: ", which no report line does. */
  const REJECTED := "Error: " + "data was not validate, please verify your input"

  /** TextProcessor's rejection line, which differs by one word. */
  const TEXT_REJECTED := "Error: " + "data was not validate, please verify you input"

  /** DataProcessor.format_output. */
  function FormatOutput(result: string): (r: string)
    ensures |r| == |result| + 8
    ensures r[..8] == "Output: " && r[8..] == result
    ensures StripOutput(r) == Some(result)
  {
    "Output: " + result
  }

  /** Reading a formatted line back: the text after the "Output: " prefix,
      or nothing when the line lacks that prefix. */
  function StripOutput(line: string): Option<string> {
    if |line| >= 8 && line[..8] == "Output: " then Some(line[8..]) else None
  }

  /** A line is the formatting of `result` exactly when stripping its prefix
      gives `result`, so two different results never format alike. */
  lemma FormatOutputRoundTrip(result: string, line: string)
    ensures FormatOutput(result) == line <==> StripOutput(line) == Some(result)
  {
    if StripOutput(line) == Some(result) {
      assert line == line[..8] + line[8..];
    }
  }

  // ---------------------------------------------------------------------
  // NumericProcessor
  // ---------------------------------------------------------------------

  /** `int(v)` succeeds: an int, or a string holding a decimal literal. */
  predicate IntConvertible(v: Value) {
    v.PyInt? || (v.PyStr? && ParseInt(v.s).Some?)
  }

  /** The loop of `validate` that calls `int(num)` on every item. */
  function AllConvertible(items: seq<Value>): (ok: bool)
    ensures ok <==> forall k :: 0 <= k < |items| ==> IntConvertible(items[k])
    decreases |items|
  {
    if |items| == 0 then true
    else
      assert forall k :: 1 <= k < |items| ==> items[k] == items[1..][k - 1];
      IntConvertible(items[0]) && AllConvertible(items[1..])
  }

  /** NumericProcessor.validate: a non-empty list every item of which `int()`
      accepts. Any other value is rejected; nothing escapes the handler. */
  function NumericValidate(data: Value): (ok: bool)
    ensures ok <==> data.PyList? && |data.items| > 0 &&
                    forall k :: 0 <= k < |data.items| ==> IntConvertible(data.items[k])
  {
    data.PyList? && |data.items| > 0 && AllConvertible(data.items)
  }

  /** Every item is an int. */
  predicate AllInts(items: seq<Value>) {
    forall k :: 0 <= k < |items| ==> items[k].PyInt?
  }

  /** The reference sum of the int items, right to left. */
  ghost function IntTotal(items: seq<Value>): int
    decreases |items|
  {
    if |items| == 0 then 0
    else (if items[0].PyInt? then items[0].i else 0) + IntTotal(items[1..])
  }

  /** Python's `sum(items, start=acc)`: a left fold with `+`, which raises
      TypeError at the first item that is not an int. */
  function SumFrom(acc: int, items: seq<Value>): (r: PyResult<int>)
    ensures r.Ok? <==> AllInts(items)
    ensures r.Ok? ==> r.value == acc + IntTotal(items)
    ensures r.Err? ==> r.error.TypeError?
    decreases |items|
  {
    if |items| == 0 then Ok(acc)
    else if !items[0].PyInt? then
      Err(TypeError("unsupported operand type(s) for +: 'int' and '" + TypeName(items[0]) + "'"))
    else
      assert forall k :: 1 <= k < |items| ==> items[k] == items[1..][k - 1];
      SumFrom(acc + items[0].i, items[1..])
  }

  /** `sum(items)`. */
  function PySum(items: seq<Value>): (r: PyResult<int>)
    ensures r.Ok? <==> AllInts(items)
    ensures r.Ok? ==> r.value == IntTotal(items)
  {
    SumFrom(0, items)
  }

  /** NumericProcessor.process. A batch that does not validate is reported
      and leaves the shared sum alone; a valid batch of ints adds its sum to
      it; a valid batch holding a numeric string passes validation but makes
      `sum` raise TypeError, which the handler does not catch. */
  function NumericProcess(totals: Totals, data: Value): (r: PyResult<NumericStep>)
    ensures !NumericValidate(data) ==> r == Ok(NumericStep(totals, NumericRejected))
    ensures NumericValidate(data) && AllInts(data.items) ==>
              && r.Ok?
              && r.value.totals.sumData == totals.sumData + IntTotal(data.items)
              && r.value.report == Summed(|data.items|, IntTotal(data.items))
    ensures NumericValidate(data) && !AllInts(data.items) ==> r.Err? && r.error.TypeError?
  {
    if !NumericValidate(data) then Ok(NumericStep(totals, NumericRejected))
    else
      match PySum(data.items)
      case Err(e) => Err(e)
      case Ok(s) => Ok(NumericStep(Totals(totals.sumData + s), Summed(|data.items|, s)))
  }

  /** The report line, up to the average after `vg=`, which is left out.
      The count and the sum read back from their places, and the rejection
      line is never a report. */
  function NumericText(report: NumericReport): (r: string)
    ensures r == REJECTED <==> report.NumericRejected?
    ensures report.Summed? ==> ReadsAt(r, 10, report.count)
    ensures report.Summed? ==> ReadsAt(r, 31 + |IntToString(report.count)|, report.total)
  {
    match report
    case Summed(n, total) => NumericLine(n, total)
    case NumericRejected => REJECTED
  }

  /** "Processed <n> numeric values, sum=<total>,". */
  function NumericLine(n: nat, total: int): (r: string)
    ensures r != REJECTED
    ensures ReadsAt(r, 10, n)
    ensures ReadsAt(r, 31 + |IntToString(n)|, total)
  {
    var r := "Processed " + IntToString(n) + " numeric values, sum=" + IntToString(total) + ",";
    TwoNumbersAt("Processed ", n, " numeric values, sum=", total, ",");
    assert r[0] == r[..10][0] == 'P' && REJECTED[0] == 'E';
    r
  }

  /** NumericProcessor.get_data: the shared running sum under "total sum". */
  function GetData(totals: Totals): (r: Value)
    ensures r.PyDict? && Keys(r.entries) == ["total sum"]
    ensures Get(r.entries, "total sum") == Some(PyInt(totals.sumData))
  {
    PyDict([Entry("total sum", PyInt(totals.sumData))])
  }

  /** Feeding batches to NumericProcessor instances one after another; any
      instance will do, since they share the class-level sum. */
  function ProcessAll(totals: Totals, batches: seq<Value>): PyResult<Totals>
    decreases |batches|
  {
    if |batches| == 0 then Ok(totals)
    else
      var step :- NumericProcess(totals, batches[0]);
      ProcessAll(step.totals, batches[1..])
  }

  /** The contribution of one batch to the shared sum: its sum if it is a
      valid list of ints, nothing if it is rejected. */
  ghost function BatchContribution(data: Value): int {
    if NumericValidate(data) then IntTotal(data.items) else 0
  }

  ghost function ContributionTotal(batches: seq<Value>): int
    decreases |batches|
  {
    if |batches| == 0 then 0 else BatchContribution(batches[0]) + ContributionTotal(batches[1..])
  }

  /** A batch that `sum` would choke on: it validates but holds a non-int. */
  predicate Unsummable(data: Value) {
    NumericValidate(data) && !AllInts(data.items)
  }

  /** The shared sum accumulates across calls: after a run of batches none of
      which makes `sum` raise, it has grown by the sums of exactly the batches
      that validated. */
  lemma {:induction false} SumAccumulates(totals: Totals, batches: seq<Value>)
    requires forall k :: 0 <= k < |batches| ==> !Unsummable(batches[k])
    ensures ProcessAll(totals, batches) == Ok(Totals(totals.sumData + ContributionTotal(batches)))
    decreases |batches|
  {
    if |batches| > 0 {
      var step := NumericProcess(totals, batches[0]).value;
      assert step.totals.sumData == totals.sumData + BatchContribution(batches[0]);
      assert forall k :: 0 <= k < |batches[1..]| ==> !Unsummable(batches[1..][k]) by {
        forall k | 0 <= k < |batches[1..]| ensures !Unsummable(batches[1..][k]) {
          assert batches[1..][k] == batches[k + 1];
        }
      }
      SumAccumulates(step.totals, batches[1..]);
    }
  }

  /** The polymorphic demo's numeric batch `[2, 2, 2]`: three values summing
      to 6, which the shared sum gains. */
  lemma DemoNumeric(totals: Totals)
    ensures var r := NumericProcess(totals, PyList([PyInt(2), PyInt(2), PyInt(2)]));
            r.Ok? && r.value.report == Summed(3, 6) && r.value.totals.sumData == totals.sumData + 6
  {
    var items := [PyInt(2), PyInt(2), PyInt(2)];
    assert items[1..] == [PyInt(2), PyInt(2)];
    assert items[1..][1..] == [PyInt(2)];
    assert IntTotal(items) == 6;
  }

  /** A batch holding a numeric string passes validation and then makes
      process raise: `["1", "2"]`. */
  lemma NumericStringsCrash()
    ensures NumericValidate(PyList([PyStr("1"), PyStr("2")]))
    ensures NumericProcess(INITIAL_TOTALS, PyList([PyStr("1"), PyStr("2")])).Err?
  {
    var items := [PyStr("1"), PyStr("2")];
    assert ParseInt("1") == Some(1) && ParseInt("2") == Some(2);
    assert IntConvertible(items[0]) && IntConvertible(items[1]);
    assert !items[0].PyInt?;
  }

  /** `int(v)` for a value `int()` accepts. */
  function IntOf(v: Value): int
    requires IntConvertible(v)
  {
    if v.PyInt? then v.i else ParseInt(v.s).value
  }

  /** `[int(x) for x in items]`. */
  ghost function IntsOf(items: seq<Value>): (r: seq<Value>)
    requires forall k :: 0 <= k < |items| ==> IntConvertible(items[k])
  {
    seq(|items|, k requires 0 <= k < |items| => PyInt(IntOf(items[k])))
  }

  /** The sum of `int(item)` over items `int()` accepts, left to right: the
      sum of the converted list, which on ints is the list itself. */
  function ConvertedSum(items: seq<Value>): (r: int)
    requires forall k :: 0 <= k < |items| ==> IntConvertible(items[k])
    ensures AllInts(items) ==> r == IntTotal(items)
    ensures r == IntTotal(IntsOf(items))
    decreases |items|
  {
    if |items| == 0 then 0
    else
      assert IntConvertible(items[0]);
      assert forall k :: 1 <= k < |items| ==> items[k] == items[1..][k - 1];
      assert IntsOf(items)[1..] == IntsOf(items[1..]);
      IntOf(items[0]) + ConvertedSum(items[1..])
  }

  /** NumericProcessor.process as its validation intends: it sums the values
      `int()` accepted, so nothing that validates can make it raise, and on
      batches of ints it agrees with the code as written. */
  function NumericProcessIntended(totals: Totals, data: Value): (r: NumericStep)
    ensures !NumericValidate(data) ==> r == NumericStep(totals, NumericRejected)
    ensures NumericValidate(data) ==>
              && r.report.Summed? && r.report.count == |data.items|
              && r.totals.sumData == totals.sumData + r.report.total
    ensures NumericValidate(data) && AllInts(data.items) ==> Ok(r) == NumericProcess(totals, data)
    ensures NumericValidate(data) ==> Ok(r) == NumericProcess(totals, PyList(IntsOf(data.items)))
  {
    if !NumericValidate(data) then NumericStep(totals, NumericRejected)
    else
      ConvertedIsValid(data.items);
      var s := ConvertedSum(data.items);
      NumericStep(Totals(totals.sumData + s), Summed(|data.items|, s))
  }

  /** The converted list of a valid batch is a valid list of ints. */
  lemma ConvertedIsValid(items: seq<Value>)
    requires |items| > 0 && forall k :: 0 <= k < |items| ==> IntConvertible(items[k])
    ensures AllInts(IntsOf(items)) && NumericValidate(PyList(IntsOf(items)))
  {
    var ints := IntsOf(items);
    assert forall k :: 0 <= k < |ints| ==> ints[k].PyInt? && IntConvertible(ints[k]);
  }

  /** The batch of numeric strings `["1", "2"]`, summed by its converted
      values, reports 2 values with sum 3. */
  lemma NumericStringsIntended(totals: Totals)
    ensures NumericProcessIntended(totals, PyList([PyStr("1"), PyStr("2")])) ==
              NumericStep(Totals(totals.sumData + 3), Summed(2, 3))
  {
    var items := [PyStr("1"), PyStr("2")];
    assert ParseInt("1") == Some(1) && ParseInt("2") == Some(2);
    assert IntConvertible(items[0]) && IntConvertible(items[1]);
    assert items[1..] == [PyStr("2")];
    assert ConvertedSum(items[1..][1..]) == 0;
  }

  // ---------------------------------------------------------------------
  // TextProcessor
  // ---------------------------------------------------------------------

  /** TextProcessor.validate: a non-empty string. */
  function TextValidate(data: Value): (ok: bool)
    ensures ok <==> data.PyStr? && |data.s| > 0
  {
    data.PyStr? && |data.s| != 0
  }

  /** TextProcessor.process: for valid text, the number of characters and of
      whitespace-separated words, of which there are at most half as many as
      characters, rounded up. */
  function TextProcess(data: Value): (r: TextReport)
    ensures r.TextRejected? <==> !TextValidate(data)
    ensures r.Counted? ==> r.chars == |data.s| && r.words == |Words(data.s)|
    ensures r.Counted? ==> 2 * r.words <= r.chars + 1 && r.words <= r.chars
    ensures r.Counted? ==> r.words == WordStarts(data.s, true)
  {
    if TextValidate(data) then
      WordsCount(data.s); Counted(|data.s|, |Words(data.s)|) else TextRejected
  }

  /** Text without whitespace is one word; text of whitespace alone has none. */
  lemma {:induction false} WordCountExtremes(s: string)
    ensures (forall k :: 0 <= k < |s| ==> IsSpace(s[k])) ==> |Words(s)| == 0
    ensures |s| > 0 && (forall k :: 0 <= k < |s| ==> !IsSpace(s[k])) ==> |Words(s)| == 1
    decreases |s|
  {
    if |s| > 0 {
      if IsSpace(s[0]) {
        assert forall k :: 1 <= k < |s| ==> s[k] == s[1..][k - 1];
        WordCountExtremes(s[1..]);
      } else if forall k :: 0 <= k < |s| ==> !IsSpace(s[k]) {
        var n := WordLength(s);
        assert n == |s|;
        assert s[n..] == [];
        assert Words(s) == [s[..n]] + Words(s[n..]);
      }
    }
  }

  /** The report line of TextProcessor.process: the character and word
      counts read back from their places, and the rejection line is never a
      report. */
  function TextText(report: TextReport): (r: string)
    ensures r == TEXT_REJECTED <==> report.TextRejected?
    ensures report.Counted? ==> ReadsAt(r, 16, report.chars)
    ensures report.Counted? ==> ReadsAt(r, 29 + |IntToString(report.chars)|, report.words)
  {
    match report
    case Counted(c, w) => TextLine(c, w)
    case TextRejected => TEXT_REJECTED
  }

  /** "Processed text: <c> characters, <w> words". */
  function TextLine(c: nat, w: nat): (r: string)
    ensures r != TEXT_REJECTED
    ensures ReadsAt(r, 16, c)
    ensures ReadsAt(r, 29 + |IntToString(c)|, w)
  {
    var r := "Processed text: " + IntToString(c) + " characters, " + IntToString(w) + " words";
    TwoNumbersAt("Processed text: ", c, " characters, ", w, " words");
    assert r[0] == r[..16][0] == 'P' && TEXT_REJECTED[0] == 'E';
    r
  }

  // ---------------------------------------------------------------------
  // LogProcessor
  // ---------------------------------------------------------------------

  /** LogProcessor.validate: a non-empty string. Its third test, that
      `split(":")` gives no pieces, can never hold. */
  function LogValidate(data: Value): (ok: bool)
    ensures ok <==> data.PyStr? && |data.s| > 0
  {
    data.PyStr? && |data.s| != 0 && |Split(data.s, ':')| != 0
  }

  /** The level of a log line: the text before its first colon, or the whole
      line when it has none. */
  function Level(s: string): (level: string)
    ensures ':' !in level
    ensures level == Split(s, ':')[0]
  {
    if ':' in s then s[..IndexOf(s, ':')] else s
  }

  /** LogProcessor.process. For input that does not validate, `log` is never
      assigned and reading it raises UnboundLocalError. An "ERROR" or "INFO"
      line is reported with the text between its first and second colon,
      and raises IndexError when there is no colon; any other line gets the
      rejection message. */
  function LogProcess(data: Value): (r: PyResult<string>)
    ensures !LogValidate(data) ==> r == Err(UnboundLocalError("log"))
    ensures LogValidate(data) ==>
      (r.Err? <==> data.s == "ERROR" || data.s == "INFO")
    ensures r.Err? && LogValidate(data) ==> r.error.IndexError?
    ensures LogValidate(data) && Level(data.s) != "ERROR" && Level(data.s) != "INFO" ==> r == Ok(REJECTED)
  {
    if !LogValidate(data) then Err(UnboundLocalError("log"))
    else
      var log := Split(data.s, ':');
      SplitOnlyPiece(data.s);
      if log[0] == "ERROR" then
        if |log| < 2 then Err(IndexError("list index out of range"))
        else Ok("[ALERT] " + log[0] + " level detected:" + log[1])
      else if log[0] == "INFO" then
        if |log| < 2 then Err(IndexError("list index out of range"))
        else Ok("[INFO] " + log[0] + " level detected:" + log[1])
      else Ok(REJECTED)
  }

  /** `split(":")` gives a single piece exactly when there is no colon, and
      that piece is the whole string. */
  lemma SplitOnlyPiece(s: string)
    ensures |Split(s, ':')| < 2 <==> ':' !in s
    ensures |Split(s, ':')| < 2 ==> Split(s, ':')[0] == s
  {
    SplitCount(s, ':');
    if ':' in s {
      assert multiset(s)[':'] > 0;
    } else {
      assert multiset(s)[':'] == 0;
    }
  }

  /** A line `<level>:<message>` is reported, when the level is ERROR or
      INFO, with the message up to its own first colon (all of it when it has
      none); whatever follows a second colon is dropped. */
  lemma LogLine(level: string, message: string)
    requires ':' !in level
    ensures level == "ERROR" ==>
      LogProcess(PyStr(level + ":" + message)) == Ok("[ALERT] ERROR level detected:" + Level(message))
    ensures level == "INFO" ==>
      LogProcess(PyStr(level + ":" + message)) == Ok("[INFO] INFO level detected:" + Level(message))
    ensures ':' !in message && level == "ERROR" ==>
      LogProcess(PyStr(level + ":" + message)) == Ok("[ALERT] ERROR level detected:" + message)
    ensures ':' !in message && level == "INFO" ==>
      LogProcess(PyStr(level + ":" + message)) == Ok("[INFO] INFO level detected:" + message)
  {
    var s := level + ":" + message;
    assert s == level + [':'] + message;
    SplitAfterPiece(level, ':', message);
    LogReport(s, Level(message));
    LevelLines(Level(message));
    if ':' !in message {
      assert Level(message) == message;
    }
  }

  /** The report lines with the level written in. */
  lemma LevelLines(field: string)
    ensures "[ALERT] " + "ERROR" + " level detected:" + field == "[ALERT] ERROR level detected:" + field
    ensures "[INFO] " + "INFO" + " level detected:" + field == "[INFO] INFO level detected:" + field
  {
  }

  /** A line with a colon whose second field is `field` is reported with that
      field under ERROR and INFO. */
  lemma LogReport(s: string, field: string)
    requires |Split(s, ':')| >= 2 && Split(s, ':')[1] == field
    ensures Level(s) == "ERROR" ==> LogProcess(PyStr(s)) == Ok("[ALERT] " + "ERROR" + " level detected:" + field)
    ensures Level(s) == "INFO" ==> LogProcess(PyStr(s)) == Ok("[INFO] " + "INFO" + " level detected:" + field)
  {
    var log := Split(s, ':');
    assert LogValidate(PyStr(s));
    assert log[0] == Level(s);
  }

  /** "ERROR:<a>:<b>" with a colon-free `a` reports only `a`: the text after
      the second colon is lost, so "ERROR:a:b" gives "...detected:a". */
  lemma LogLineExtraColon(a: string, b: string)
    requires ':' !in a
    ensures LogProcess(PyStr("ERROR:" + a + ":" + b)) == Ok("[ALERT] ERROR level detected:" + a)
  {
    var message := a + ":" + b;
    assert message == a + [':'] + b;
    IndexOfAfterPrefix(a, ':', b);
    assert Level(message) == a;
    var line := "ERROR" + ":" + message;
    assert line == "ERROR:" + a + ":" + b by {
      assert "ERROR" + ":" == "ERROR:";
    }
    LogLine("ERROR", message);
    assert LogProcess(PyStr(line)) == Ok("[ALERT] ERROR level detected:" + a);
  }

  /** An input that does not validate makes process raise instead of
      returning the rejection line: `42` is not a string. */
  lemma LogRejectionCrashes()
    ensures LogProcess(PyInt(42)) == Err(UnboundLocalError("log"))
  {
  }

  /** LogProcessor.process with its level tests inside the validation
      branch, as the rejection line that ends it intends: input that does not
      validate gets that line, and valid input is handled as written. */
  function LogProcessIntended(data: Value): (r: PyResult<string>)
    ensures !LogValidate(data) ==> r == Ok(REJECTED)
    ensures LogValidate(data) ==> r == LogProcess(data)
    ensures r.Err? ==> r.error.IndexError?
  {
    if !LogValidate(data) then Ok(REJECTED) else LogProcess(data)
  }
}
