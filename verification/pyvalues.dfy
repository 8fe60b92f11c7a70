/** The closed set of Python values that flow through the stages and the
    stream handlers, with the built-in behaviour the core leans on:
    truthiness (`if not data`), dict membership, lookup and update, and
    `str()` / `repr()` rendering. Dicts keep their insertion order, as
    Python's do, so they are modelled as sequences of entries. */
module PyValues {
  import opened Results
  import opened Text

  datatype Value =
    | PyNone
    | PyInt(i: int)
    | PyStr(s: string)
    | PyList(items: seq<Value>)
    | PyDict(entries: seq<Entry>)

  datatype Entry = Entry(key: string, val: Value)

  /** The exceptions the modelled code can raise. `PipelineError` and
      `OutputTypeError` are the classes that ex2/nexus_pipeline.py declares
      itself (the latter is that file's own `TypeError`, which shadows the
      built-in one); the rest are Python built-ins. */
  datatype PyError =
    | ValueError(message: string)
    | KeyError(key: string)
    | TypeError(message: string)
    | AttributeError(message: string)
    | IndexError(message: string)
    | UnboundLocalError(name: string)
    | OutputTypeError(message: string)
    | PipelineError(message: string)

  type PyResult<T> = Result<T, PyError>

  /** Python truthiness: `None`, `0`, `""`, `[]` and `{}` are false. */
  function Truthy(v: Value): (t: bool)
    ensures !t <==> v in [PyNone, PyInt(0), PyStr(""), PyList([]), PyDict([])]
  {
    match v
    case PyNone => false
    case PyInt(i) => i != 0
    case PyStr(s) => |s| > 0
    case PyList(items) => |items| > 0
    case PyDict(entries) => |entries| > 0
  }

  /** The class name `type(v).__name__` reports. */
  function TypeName(v: Value): string {
    match v
    case PyNone => "NoneType"
    case PyInt(_) => "int"
    case PyStr(_) => "str"
    case PyList(_) => "list"
    case PyDict(_) => "dict"
  }

  // ---------------------------------------------------------------------
  // Dicts
  // ---------------------------------------------------------------------

  /** The keys of a dict, in insertion order. */
  function Keys(entries: seq<Entry>): (ks: seq<string>)
    ensures |ks| == |entries|
  {
    if |entries| == 0 then [] else [entries[0].key] + Keys(entries[1..])
  }

  /** `key in d` for a value `d`; false for anything but a dict. */
  predicate HasKey(v: Value, key: string) {
    v.PyDict? && key in Keys(v.entries)
  }

  /** `d.get(key)`: the value stored under `key`, or `None`. */
  function GetOrNone(entries: seq<Entry>, key: string): (r: Value)
    ensures key in Keys(entries) ==> Some(r) == Get(entries, key)
    ensures key !in Keys(entries) ==> r == PyNone
  {
    match Get(entries, key)
    case Some(v) => v
    case None => PyNone
  }

  /** The value stored under `key`, if any (`d[key]` when it does not raise). */
  function Get(entries: seq<Entry>, key: string): (r: Option<Value>)
    ensures r.Some? <==> key in Keys(entries)
  {
    if |entries| == 0 then None
    else if entries[0].key == key then Some(entries[0].val)
    else Get(entries[1..], key)
  }

  /** `d[key] = v`: overwrites the entry in place when the key is present,
      appends one otherwise; every other key keeps its value and position. */
  function Put(entries: seq<Entry>, key: string, v: Value): (r: seq<Entry>)
    ensures Get(r, key) == Some(v)
    ensures forall k :: k != key ==> Get(r, k) == Get(entries, k)
    ensures Keys(r) == if key in Keys(entries) then Keys(entries) else Keys(entries) + [key]
  {
    if |entries| == 0 then [Entry(key, v)]
    else if entries[0].key == key then [Entry(key, v)] + entries[1..]
    else
      var rest := Put(entries[1..], key, v);
      assert ([entries[0]] + rest)[1..] == rest;
      [entries[0]] + rest
  }

  // ---------------------------------------------------------------------
  // Lists of strings
  // ---------------------------------------------------------------------

  /** A Python list holding the given strings. */
  function StrList(parts: seq<string>): (vs: seq<Value>)
    ensures |vs| == |parts|
    ensures forall k :: 0 <= k < |parts| ==> vs[k] == PyStr(parts[k])
  {
    seq(|parts|, k requires 0 <= k < |parts| => PyStr(parts[k]))
  }

  /** The strings of a list all of whose items are strings. */
  function ListStrings(items: seq<Value>): (r: Option<seq<string>>)
    ensures r.Some? <==> forall k :: 0 <= k < |items| ==> items[k].PyStr?
    ensures r.Some? ==> StrList(r.value) == items
  {
    if |items| == 0 then Some([])
    else if !items[0].PyStr? then None
    else match ListStrings(items[1..])
      case None => None
      case Some(rest) =>
        StrListCons(items[0].s, rest);
        assert items == [items[0]] + items[1..];
        Some([items[0].s] + rest)
  }

  lemma StrListCons(head: string, rest: seq<string>)
    ensures StrList([head] + rest) == [PyStr(head)] + StrList(rest)
  {
    var l, r := StrList([head] + rest), [PyStr(head)] + StrList(rest);
    assert |l| == |r|;
    forall k | 0 <= k < |l| ensures l[k] == r[k] {
      if k > 0 { assert ([head] + rest)[k] == rest[k - 1]; }
    }
  }

  lemma {:induction false} ListStringsOfStrList(parts: seq<string>)
    ensures ListStrings(StrList(parts)) == Some(parts)
    decreases |parts|
  {
    if |parts| > 0 {
      assert StrList(parts)[1..] == StrList(parts[1..]);
      ListStringsOfStrList(parts[1..]);
      assert parts == [parts[0]] + parts[1..];
    }
  }

  // ---------------------------------------------------------------------
  // The csv record both TransformStage versions build
  // ---------------------------------------------------------------------

  /** The header strings of a dict whose "headers" entry is a list of
      strings. */
  function CsvHeaders(v: Value): Option<seq<string>> {
    if v.PyDict? then
      match Get(v.entries, "headers")
      case Some(PyList(items)) => ListStrings(items)
      case _ => None
    else None
  }

  /** `{"type": "csv", "headers": headers, "count": 1}`. */
  function CsvRecord(headers: seq<string>): (v: Value)
    ensures v.PyDict?
    ensures Keys(v.entries) == ["type", "headers", "count"]
    ensures Get(v.entries, "type") == Some(PyStr("csv"))
    ensures Get(v.entries, "count") == Some(PyInt(1))
    ensures CsvHeaders(v) == Some(headers)
  {
    var entries := [Entry("type", PyStr("csv")), Entry("headers", PyList(StrList(headers))), Entry("count", PyInt(1))];
    assert Keys(entries[2..]) == ["count"];
    assert Keys(entries[1..]) == ["headers", "count"];
    assert Get(entries[2..], "count") == Some(PyInt(1));
    assert Get(entries[1..], "count") == Some(PyInt(1));
    assert Get(entries, "headers") == Some(PyList(StrList(headers)));
    ListStringsOfStrList(headers);
    PyDict(entries)
  }

  // ---------------------------------------------------------------------
  // Rendering
  // ---------------------------------------------------------------------

  /** `repr(v)`. Strings are always quoted with `'` and never escaped. */
  function Repr(v: Value): string
    decreases v
  {
    match v
    case PyNone => "None"
    case PyInt(i) => IntToString(i)
    case PyStr(s) => "'" + s + "'"
    case PyList(items) =>
      "[" + Join(seq(|items|, k requires 0 <= k < |items| => Repr(items[k])), ", ") + "]"
    case PyDict(entries) =>
      "{" + Join(seq(|entries|, k requires 0 <= k < |entries| =>
                   assert entries[k] in entries;
                   "'" + entries[k].key + "': " + Repr(entries[k].val)), ", ") + "}"
  }

  /** `str(v)`, which is also what an f-string placeholder produces:
      a string renders as itself, anything else as its `repr`. */
  function Str(v: Value): (r: string)
    ensures v.PyStr? ==> r == v.s
    ensures v.PyInt? ==> r == IntToString(v.i)
    ensures v.PyInt? ==> ParseInt(r) == Some(v.i)
    ensures v.PyNone? ==> r == "None"
  {
    if v.PyInt? then ParseIntRoundTrip(v.i); Repr(v)
    else if v.PyStr? then v.s else Repr(v)
  }
}
