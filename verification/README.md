# Code Nexus data pipelines, modelled in Dafny

This project models the sequential core of the Code Nexus exercises. That core is four pieces of in-memory logic that route Python values through validators, stages and handlers:

- **`ex2/nexus_pipeline.py`** (module `NexusPipeline`):
  - an Input stage rejects falsy payloads;
  - a Transform stage tags sensor dicts, rejects the `"INVALID_DATA"` marker, and parses comma strings (first and last character dropped) into csv records;
  - an Output stage renders records, with temperature bands above 40 and below 5;
  - pipelines fold their stages in order;
  - `NexusManager` routes to the **first** adapter of the requested kind and raises `PipelineError` when none matches;
  - its chain executor turns any failure into `None`.
- **`ex2/main.py`** (module `NexusMain`): the same engine with different rules:
  - comma strings are split without trimming, and the comma test runs before the marker test;
  - the Output stage never raises: a sensor dict always gives the "Normal range" line, a csv dict its count, any other dict "", and a non-dict the stream summary;
  - routing keeps the **last** match; it raises nothing when no pipeline matches, and the chosen pipeline's exception escapes;
  - its chain executor lets exceptions escape.
- **`main.py`** (module `Streams`): the polymorphic stream handlers:
  - a substring filter;
  - a sensor "critical" filter;
  - a transaction net-flow fold with its sign rule and a `"high_value"` filter;
  - an event error count;
  - a stats snapshot;
  - a batch runner that catches every failure.
- **`ex0/stream_processor.py`** (module `Processors`): three processors:
  - NumericProcessor validates non-empty lists whose every item `int()` accepts, ints and numeric strings alike. It adds the list's `sum` to a running sum that its class shares across instances, so a validated list holding a numeric string raises (see Findings). The model passes that sum explicitly as a `Totals` record.
  - TextProcessor counts characters and whitespace-separated words.
  - LogProcessor dispatches on the log level.

Four support modules model the Python built-ins the core relies on:

- `Results`: `Option` and `Result`. A raised exception is an `Err`, and `:-` propagates it.
- `Text`: substring tests, `split(sep)` and `join`, whitespace `split()`, `int()` of a decimal literal, and `str()` of an int.
- `Seqs`: conditional list comprehensions and `list.count`.
- `PyValues`: a closed `Value` type (None, int, str, list and insertion-ordered dict), Python truthiness, dict lookup and update, `str()`/`repr()`, and the exception kinds the core raises.

The two pipeline versions are kept apart on purpose, because their rules really differ.

Three behaviours of the code are easy to misread:

- `NexusManager.execute_chain` in ex2/nexus_pipeline.py returns `None` when any pipeline raises, not the last good value.
- The temperature bands use strict comparisons (`> 40`, `< 5`), so readings of exactly 40 and 5 are Normal.
- NumericProcessor's running sum is one class-level value shared by all instances, not per instance.

## Model

| member | source | states |
|---|---|---|
| PyValues.Truthy | ex2/nexus_pipeline.py:29 | `not data` holds exactly for None, 0, "", [] and {} |
| PyValues.Put | ex2/nexus_pipeline.py:47 | `d["status"] = "valid"`: the key then maps to the new value, every other key keeps its value, and the key order is kept, with a new key appended at the end |
| PyValues.GetOrNone | ex2/main.py:95 | `d.get(key)` is the stored value when the key is present and `None` otherwise |
| PyValues.CsvRecord | ex2/nexus_pipeline.py:54 | the csv record is a dict with keys type, headers, count in that order, type "csv", count 1, and exactly the given header strings |
| PyValues.Str | main.py:21 | `str()` of a string is the string itself, of None is "None", and of an int is its decimal text, which `int()` reads back as that int |
| Text.Contains | main.py:21 | `needle in hay` holds exactly when the needle occurs at some position of the haystack |
| Text.Split | main.py:63 | `split(sep)` gives at least one piece, no piece holds the separator, and joining the pieces with it gives the input back |
| Text.SplitCount | main.py:63 | `split(sep)` gives one more piece than the input has separators |
| Text.SplitJoin | ex0/stream_processor.py:102 | splitting the join of separator-free pieces gives those pieces back |
| Text.Words | ex0/stream_processor.py:76 | every word of `split()` is non-empty and whitespace-free, the words hold exactly the non-whitespace characters in order, and there are at most half as many words as characters, rounded up |
| Text.WordsCount | ex0/stream_processor.py:76 | `split()` gives as many words as `s` has word starts, non-whitespace characters that come first or right after whitespace |
| Text.WordsAreRuns | ex0/stream_processor.py:76 | `split()` is cutting `s` at every whitespace character and dropping the empty pieces, so each word is a whole maximal run of non-whitespace, in order |
| Text.ParseInt | main.py:64 | `int(s)` succeeds exactly for an optional sign followed by one or more digits |
| Text.ParseIntRoundTrip | main.py:64 | `int(str(i)) == i` for every int |
| Text.IntTextChars | main.py:64 | `str(i)` holds only digits and a minus sign, so never a colon or a comma |
| Seqs.Filter | main.py:21 | a conditional comprehension keeps exactly the items satisfying the test, each as often as in the input, and drops the rest |
| Seqs.FilterAppend | main.py:21 | filtering keeps the input order: it distributes over concatenation |
| Seqs.Count | main.py:86 | `list.count(x)` is the multiplicity of `x` |
| NexusPipeline.InputProcess | ex2/nexus_pipeline.py:27-35 | raises ValueError("Impty data!") exactly on None, 0, "", [] and {}, and returns any other payload unchanged |
| NexusPipeline.DropEnds | ex2/nexus_pipeline.py:52 | `s[1:-1]` is two characters shorter than `s`, and putting back the first and the last character gives `s` again; strings shorter than two give "" |
| NexusPipeline.TransformProcess | ex2/nexus_pipeline.py:41-58 | a sensor dict gains status "valid" and keeps every other key; the marker raises ValueError; a comma string becomes a csv record whose headers joined by "," give `s[1:-1]`, one more header than that text has commas; anything else is returned unchanged |
| NexusPipeline.BandOf | ex2/nexus_pipeline.py:74-79 | High exactly above 40, Low exactly below 5, Normal otherwise |
| NexusPipeline.OutputProcess | ex2/nexus_pipeline.py:64-85 | a dict with "headers" gives the activity line or KeyError("count"); any other dict needs "value", then "unit" (KeyError otherwise), and renders the reading with its band, or raises TypeError for a non-int value; a string gives the stream summary; anything else raises the module's own TypeError |
| NexusPipeline.RunStagesAppend | ex2/nexus_pipeline.py:97-102 | running the stages `a + b` runs `a`, then `b` on its output, and a failure in `a` is the failure of the whole run |
| NexusPipeline.FirstFailureStops | ex2/nexus_pipeline.py:97-102 | the first stage that raises decides the result, whatever stages follow |
| NexusPipeline.EmptyPipelineIdentity | ex2/nexus_pipeline.py:92-102 | a pipeline without stages returns its input |
| NexusPipeline.AddStages | ex2/nexus_pipeline.py:119-125 | the variadic `add_stage` appends its stages in argument order |
| NexusPipeline.AddStagesProcess | ex2/nexus_pipeline.py:119-125 | a pipeline with stages added runs its old stages, then the new ones |
| NexusPipeline.ThreeStagePipeline | ex2/nexus_pipeline.py:228-229 | every adapter gets Input, Transform, Output in that order |
| NexusPipeline.SensorReadingThroughStages | ex2/nexus_pipeline.py:27-85 | a sensor dict with an int value and a unit comes out of the three stages as the temperature line with that value, unit and band |
| NexusPipeline.CsvThroughStages | ex2/nexus_pipeline.py:50-70 | any comma string comes out of the three stages as "User activity logged: 1 actions processed" |
| NexusPipeline.PlainTextThroughStages | ex2/nexus_pipeline.py:55-81 | a non-empty comma-free string other than the marker comes out as the stream summary |
| NexusPipeline.DemoReadingIsNormal | ex2/nexus_pipeline.py:233-234 | the demonstration reading (sensor temp, 23, unit C) renders as the Normal-range line |
| NexusPipeline.DemoChain | ex2/nexus_pipeline.py:244-251 | the demonstration chain JSON, CSV, stream on a reading with a comma-free unit ends with the activity line, because the stream summary itself holds a comma |
| NexusPipeline.AddPipelines | ex2/nexus_pipeline.py:172-175 | the variadic `add_pipeline` registers its pipelines in argument order |
| NexusPipeline.FirstMatch | ex2/nexus_pipeline.py:180-186 | finds the index of the first pipeline whose kind matches the format, no earlier one matching, or none when nothing matches |
| NexusPipeline.ProcessData | ex2/nexus_pipeline.py:177-187 | the first matching pipeline's result or exception; PipelineError(" No suitable pipeline found for <format>") when none matches, in particular for any format other than json, csv and stream |
| NexusPipeline.RunChainAppend | ex2/nexus_pipeline.py:194-201 | chaining `a + b` feeds the output of `a` into `b` |
| NexusPipeline.ChainOfThree | ex2/nexus_pipeline.py:189-201 | a chain of three pipelines that each succeed ends with the third one's output |
| NexusPipeline.ExecuteChain | ex2/nexus_pipeline.py:189-201 | an empty chain returns its input; otherwise `None` if the head pipeline raises, else the rest of the chain run on its output |
| NexusPipeline.ChainFailureIsNone | ex2/nexus_pipeline.py:194-201 | a failure anywhere in the chain gives `None`, even after earlier pipelines succeeded |
| NexusPipeline.ChainDropsLastGoodValue | ex2/nexus_pipeline.py:194-201 | a chain whose first pipeline accepts the marker and whose second rejects it gives `None`, not the first pipeline's value |
| NexusMain.InputProcess | ex2/main.py:25-40 | raises ValueError("Empty data received") exactly on falsy payloads, and returns any other payload unchanged |
| NexusMain.TransformProcess | ex2/main.py:46-76 | a sensor dict gains status "valid" and keeps every other key; a comma string becomes a csv record whose headers joined by "," give exactly the string; the marker raises ValueError; anything else is returned unchanged |
| NexusMain.OutputProcess | ex2/main.py:82-104 | never raises and always gives a string: a sensor dict gives the Normal-range line with its "value" (None if missing); a csv dict gives its count; any other dict gives ""; a non-dict gives the stream summary |
| NexusMain.SensorAlwaysNormal | ex2/main.py:94-96 | whatever value a sensor dict holds, its line ends in "°C (Normal range)" |
| NexusMain.RunStagesAppend | ex2/main.py:127-139 | running `a + b` is running `a`, then `b` on its output, and a failure in `a` escapes |
| NexusMain.FirstFailureStops | ex2/main.py:127-139 | the first stage that raises decides the result |
| NexusMain.EmptyPipelineIdentity | ex2/main.py:136-139 | no stages: the input comes back |
| NexusMain.AddStageProcess | ex2/main.py:119-139 | a pipeline with a stage added runs its old stages, then that stage |
| NexusMain.ThreeStagePipeline | ex2/main.py:272-275 | the three `add_stage` calls give Input, Transform, Output in order |
| NexusMain.SensorThroughStages | ex2/main.py:61-96 | a sensor dict comes out of the three stages as the Normal-range line with its "value" |
| NexusMain.PlainTextThroughStages | ex2/main.py:65-101 | a non-empty comma-free string other than the marker comes out as the stream summary |
| NexusMain.CsvThroughStages | ex2/main.py:65-99 | any comma string comes out as "User activity logged: 1 actions processed" |
| NexusMain.DemoChain | ex2/main.py:244-248 | a sensor dict whose value renders without a comma goes through the JSON, CSV and stream pipelines and ends with the activity line |
| NexusMain.DemoChainReading | ex2/main.py:292-294 | the demonstration dict, which has "val" but no "value", ends the chain with the activity line |
| NexusMain.Target | ex2/main.py:221-230 | the pipeline chosen is the last one whose kind matches the format: it matches and no later one does; there is none exactly when no pipeline matches |
| NexusMain.AddPipelineRoutes | ex2/main.py:206-234 | after `add_pipeline(p)`, a format that `p` matches runs `p`, because the last match wins, and any other format is routed as before |
| NexusMain.ProcessData | ex2/main.py:214-234 | its result is `Route`: the run of the last matching pipeline, whose value is dropped and whose exception escapes, or the no-suitable-pipeline report and no exception when nothing matches |
| NexusMain.ExecuteChainAppend | ex2/main.py:236-248 | chaining `a + b` feeds the output of `a` into `b`, and a failure in `a` escapes |
| NexusMain.ChainFailureEscapes | ex2/main.py:244-248 | a pipeline that raises inside the chain makes the whole chain raise the same exception |
| Streams.GetStats | main.py:23-28 | the stats dict has keys id, status, type in that order, holding the id, the status and the handler's class name |
| Streams.NewStreamStats | main.py:8-28 | a new handler reports status "active" under its id and class name |
| Streams.BaseFilter | main.py:16-21 | None or "" returns the batch itself; other criteria keep exactly the items whose `str()` contains it, with their multiplicity |
| Streams.BaseFilterAppend | main.py:21 | the base filter keeps batch order |
| Streams.SensorFilter | main.py:47-53 | "critical" keeps exactly the items mentioning "alert" or "crit"; other criteria use the base filter |
| Streams.Magnitude | main.py:78 | `int(x.split(":")[1])` raises AttributeError for a non-string, IndexError for a string without a colon, and otherwise gives a value or a ValueError |
| Streams.MagnitudeOfTrade | main.py:62-78 | a well-formed trade item has as its magnitude the trade's number |
| Streams.MagnitudeField | main.py:78 | for "<a>:<b>" with colon-free `a` and `b`, the magnitude is `int(b)` or the ValueError naming `b`, and anything after a further colon is ignored |
| Streams.HighValueFilter | main.py:78 | succeeds exactly when every item's magnitude reads, then keeps the items above 500 in order; otherwise raises the first unreadable item's error |
| Streams.TransactionFilter | main.py:73-79 | "high_value" keeps exactly the items with magnitude above 500, failing when any item is unreadable; every other criteria returns the batch unchanged |
| Streams.FilterWithoutCriteria | main.py:16-79 | filtering without criteria returns the batch for every handler |
| Streams.FilterData | main.py:16-79 | every handler's filter returns items of the batch, never more often than the batch holds them; only the transaction "high_value" filter can raise; no criteria returns the batch |
| Streams.TradeOf | main.py:62-64 | an item reads as a trade only if it is a string with exactly one colon |
| Streams.ItemFlow | main.py:61-68 | an item raises exactly when it is a string with a colon that is not a well-formed trade, always with ValueError, and with the unpacking error when it has two or more colons; a trade adds its magnitude for buy, subtracts it for sell, and adds 0 otherwise; anything else adds 0 |
| Streams.NetFlow | main.py:59-68 | the fold raises exactly when some item is malformed, only with ValueError, and otherwise gives bought minus sold units |
| Streams.TransactionBatch | main.py:59-71 | reports len(batch) operations and bought minus sold units, or raises a ValueError exactly when the batch holds a malformed item |
| Streams.FlowText | main.py:70-71 | the printed net flow starts with "+" exactly when it is non-negative, and reads back as the net flow |
| Streams.TradeText | main.py:62-64 | "<action>:<n>" with a colon-free action reads as that trade |
| Streams.TradeOfColonFree | main.py:62-64 | "<action>:<rest>" with colon-free parts is a trade exactly when `rest` is an int literal, and then carries that action and number |
| Streams.DemoTransactions | main.py:126-129 | the demonstration batch buy:100, sell:150, buy:75 gives 3 operations and a net flow of 25 |
| Streams.DemoTransactionsText | main.py:70-71 | that summary prints with net flow "+25" |
| Streams.EventBatch | main.py:85-87 | an event batch reports len(batch) events and as errors the number of items equal to "error", never more than the events |
| Streams.ProcessBatch | main.py:34-87 | a sensor batch reports len(batch) readings; an event batch len(batch) events and the number of "error" items; a transaction batch len(batch) operations and bought minus sold units, or a ValueError exactly when it holds a malformed item |
| Streams.SummaryText | main.py:45-87 | the printed summary shows each count where `int()` reads it back, and the transaction line's signed net flow likewise |
| Streams.ProcessStreamBatch | main.py:93-103 | never raises; it fails, with a ValueError, exactly for a transaction handler given a malformed item; a sensor handler prints len(batch) readings and an event handler its event and error counts; otherwise it prints the handler's summary |
| Processors.FormatOutput | ex0/stream_processor.py:19-20 | stripping the "Output: " prefix from the output gives back the result |
| Processors.FormatOutputRoundTrip | ex0/stream_processor.py:19-20 | a line is the formatting of a result exactly when stripping its prefix gives that result, so two results never format alike |
| Processors.NumericValidate | ex0/stream_processor.py:46-62 | true exactly for a non-empty list whose every item `int()` accepts |
| Processors.SumFrom | ex0/stream_processor.py:31 | `sum` succeeds exactly on all-int items and gives the start plus their total; otherwise TypeError |
| Processors.PySum | ex0/stream_processor.py:31 | `sum(data)` is the total of an all-int list, and raises otherwise |
| Processors.NumericProcess | ex0/stream_processor.py:28-44 | invalid data gets the rejection report and leaves the shared sum unchanged; a valid int list reports its length and sum and adds the sum to the shared total; a valid list holding a numeric string raises TypeError |
| Processors.NumericText | ex0/stream_processor.py:41-44 | the report line shows the count and the sum where `int()` reads them back, and is never the rejection line, which rejected data gets |
| Processors.GetData | ex0/stream_processor.py:64-66 | the snapshot holds the shared sum under "total sum" |
| Processors.SumAccumulates | ex0/stream_processor.py:25-31 | across a run of batches the shared sum grows by the sums of exactly the batches that validated |
| Processors.DemoNumeric | ex0/stream_processor.py:161-164 | the demonstration batch [2, 2, 2] reports 3 values with sum 6 and adds 6 to the shared sum |
| Processors.TextProcess | ex0/stream_processor.py:72-94 | rejects exactly what is not a non-empty string; valid text reports its length and its `split()` word count, which is the number of word starts and at most half the characters, rounded up |
| Processors.TextText | ex0/stream_processor.py:74-78 | the report line shows the character and word counts where `int()` reads them back, and is never the rejection line, which rejected text gets |
| Processors.WordCountExtremes | ex0/stream_processor.py:76 | all-whitespace text has no words, and non-empty text without whitespace has one |
| Processors.LogValidate | ex0/stream_processor.py:109-122 | true exactly for a non-empty string, so the split-length check never fires |
| Processors.Level | ex0/stream_processor.py:102-103 | `log[0]` is the text before the first colon, or the whole line |
| Processors.LogProcess | ex0/stream_processor.py:100-107 | invalid input raises UnboundLocalError; valid input raises (IndexError) exactly when it is "ERROR" or "INFO"; other levels get the rejection line |
| Processors.LogLine | ex0/stream_processor.py:100-106 | "ERROR:m" gives "[ALERT] ERROR level detected:" and "INFO:m" gives "[INFO] INFO level detected:", each followed by `m` up to its first colon, all of `m` when it has none |
| Processors.LogLineExtraColon | ex0/stream_processor.py:100-104 | "ERROR:a:b" reports only `a`: the text after the second colon is lost |
| Processors.NumericStringsCrash | ex0/stream_processor.py:31-57 | ["1", "2"] passes validation and then makes process raise |
| Processors.ConvertedSum | ex0/stream_processor.py:57 | the sum of `int(x)` over the items is the sum of the converted list, and on ints the sum of the items |
| Processors.NumericProcessIntended | ex0/stream_processor.py:28-44 | summing the converted values: validated data never raises, the report gives len(data), the shared sum grows by the reported total, and every validated batch is handled as process as written handles the list of its `int()` values |
| Processors.NumericStringsIntended | ex0/stream_processor.py:28-57 | ["1", "2"] reports 2 values with sum 3 and adds 3 to the shared sum |
| Processors.LogRejectionCrashes | ex0/stream_processor.py:100-107 | the input 42 raises UnboundLocalError instead of getting the rejection line |
| Processors.LogProcessIntended | ex0/stream_processor.py:100-107 | with the level tests under the validation branch, invalid input gets the rejection line, valid input is handled as written, and only IndexError remains |

## Left out

- Floating point is left out, together with everything computed from it:
  - the sensor average (main.py:35-45);
  - NumericProcessor's `avg_data` and the "vg=" part of its report (ex0/stream_processor.py:32-42);
  - the "total avg" key of `get_data`.
- Floats in the demonstrations become ints: the demo reading 23.5 is modelled as 23.
- Processors.NumericProcess: reports success for every validated int list, even where `sum(data) / len(data)` (ex0/stream_processor.py:33, 38, 42) overflows a float and raises OverflowError, e.g. for `[10**309]`; at that point line 31 has already added the sum to the shared total. Floats are outside the model.
- Processors.NumericProcessIntended: "never raises" holds only up to the same float overflow of the average, which the model does not represent.
- Processors.NumericText: renders the report only up to "sum=<n>,", because the average that follows is a float.
- Processors.GetData: returns only "total sum", because "total avg" is a float or None.
- Streams.ProcessBatch: states only the reading count of a sensor batch. The average does not change the count, and the handler never raises.
- Streams.SummaryText: the sensor line stops before ", avg temp", because the average is a float.
- Printing is left out: every `print`, the narration lines of the stages, the `main()` functions and the `__main__` blocks. Only the demonstrations' data are used, in the Demo lemmas.
- `process_stream_batch` prints the summary or the error. The model returns a `Report` holding the summary record or the exception instead.
- The non-DataStream branch of `process_stream_batch` (main.py:95-97) cannot arise, because every modelled stream is a `DataStream`.
- Python values outside None, int, str, list and dict with string keys are left out: bool, float, tuple, objects, and dicts with other keys.
- `int()` is modelled as an optional sign followed by ASCII digits. Surrounding whitespace, underscores and non-ASCII digits, all of which Python accepts, are left out.
- `repr()` of a string always uses single quotes and never escapes.
- Exception messages are approximated. The built-in messages follow CPython's wording. The module's own TypeError in ex2/nexus_pipeline.py:83 carries a tuple of arguments, which is modelled as one message string.
- TransformStage updates the caller's dict in place (ex2/nexus_pipeline.py:47, ex2/main.py:63). The model returns the updated dict, so the caller does not see the change.
- Abstract-base-class and Protocol machinery is left out: `ABC`, `@abstractmethod`, `ProcessingStage`. Only the concrete stages and adapters are modelled.
- ex1/data_stream.py is not part of this model. It holds only stubs.

## Findings

| source | as written | input that shows it | evidently intended | confidence | as-written member | corrected member |
|---|---|---|---|---|---|---|
| ex0/stream_processor.py:100-107 | the level tests run even when validation failed, so they read `log`, which was never assigned | `LogProcessor().process(42)` raises UnboundLocalError | input that does not validate gets the rejection line that ends the method | high, not executed | Processors.LogRejectionCrashes | Processors.LogProcessIntended |
| ex0/stream_processor.py:31-57 | validation accepts any item `int()` converts, including numeric strings, but `sum` is taken over the raw items | `NumericProcessor().process(["1", "2"])` raises TypeError | validated data is summed by its converted values, so whatever validates is processed | medium, not executed | Processors.NumericStringsCrash | Processors.NumericProcessIntended |
