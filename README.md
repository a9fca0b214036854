# PyMinerMonitor in Dafny

This project models the two parts of PyMinerMonitor that turn miner and pool
statistics into InfluxDB line protocol:

- **The `InfluxDB` output's static helpers**
  (`miner_monitor/miner_monitor/outputs/influxdb.py`). These cover:
  - the unit parser `_remove_unit`;
  - the timestamp scaling `_time_format`;
  - the value encoder `_any_format`;
  - the escapes `_name_escape` and `_measurement_escape`;
  - the pair joiner `_dict_format`;
  - the line layout `_line_protocol`.

  They are modelled as pure functions in module `InfluxDB`. Their
  specification is a line-protocol reader (`LineReader`), built on a
  single-pass escape and its inverse (`Escaping`). The main theorem,
  `LineReader.ReadLineProtocol`, states that a written line reads back as the
  measurement, the tags and the fields it was given, in order, with the
  timestamp in nanoseconds.
- **The polling script `monitor.py`.** This covers:
  - the `InfluxDBLineProtocol` point and its `__str__` (modules `Monitor` and
    `MonitorReader`);
  - the driver loop over `config["api"]`.

  The loop is specified twice:
  - in module `Pipeline`, as left folds over a `Trace`: the events printed so
    far, the number of requests made, and the exception that ended the run,
    if any;
  - in module `Driver`, as methods with `while` loops, each proved equal to
    its fold.

  The shared `tags` dict that the worker loop assigns into in place is the
  class `Driver.TagDict`.

Supporting modules:

- `Wrappers` holds `Option` and `Result`.
- `Text` models Python's `str.replace`, `str.join`, `str.split()`, `str(int)`,
  and the decimal subset of `float()`.
- `OrderedDict` models insertion-ordered dicts: `d[k]`, `d[k] = v`, and
  `{**a, **b}`.
- `PyJson` models parsed JSON with Python's subscripting, iteration and `str()`.

What the model does differently from the source, and why:

- **Two source defects are modelled as their evident intent.**
  - `_any_format` and `_line_protocol` test `isinstance(x, time)` against
    the module `time` (influxdb.py:49, :123). As written, that raises
    `TypeError` for every value. The model has no `time` kind of value, and
    its timestamp is an integer number of seconds.
  - The annotation `function` (influxdb.py:85) is undefined, and
    `_line_protocol` is a `staticmethod` that takes `self` (influxdb.py:101-102).
    The model uses plain functions.
- **The code is followed where it differs from the documented line protocol.**
  - The comma after the measurement is written even when there are no tags
    (`InfluxDBProps.LineWithoutTags`).
  - A string tag value is quoted by `_any_format` and then name-escaped.
  - The timestamp given to `_line_protocol` is treated as seconds and
    multiplied by 10^9.
- **`monitor.py` escapes nothing.** `MonitorReader.RenderAmbiguous` shows two
  different points that print the same line. The printed line reads back only
  when no key or value holds a separator (`MonitorReader.ReadRender`).
- **Backslashes are never escaped.** `_measurement_escape`, `_name_escape` and `_any_format` leave
  backslashes as they are, which has two consequences:
  - A measurement, a key or a string field value that ends in a backslash
    escapes the separator written after it, and the line no longer splits
    where it should. The round-trip theorems therefore require these not to
    end in a backslash.
  - InfluxDB's own reader unescapes `\\` and `\"` inside a string field and
    keeps any other backslash. So a string such as `a\b` reads back unchanged,
    but one holding two backslashes in a row, or a backslash before a quote,
    does not read back as written. The string `a\\b` is written `"a\\b"` and
    reads back as `a\b`; the string `\"` is written `"\\""`, where `\\` is
    read as one backslash, so the next quote closes the string and the last
    quote is left over. The reader in this model (`LineReader.ParseValue`)
    unescapes only `\"`, so its round trip does not show this.

External effects are modelled as data:

- **Network.** It is the parameter `net: (nat, string) -> Reply`, the reply to
  the n-th request given its URL.
- **Printing and sleeping.** They are `Event`s appended to the trace: `Out`
  (stdout), `Diag` (stderr), `Request` and `Sleep`.
- **The default timestamp.** `int(time.time() * 1000000000)` is evaluated once,
  when the class is defined, so it is the parameter `classDefault`, shared by
  every point built without a timestamp.
- **The configuration file.** Its parsed contents are the parameter `config`.

## Model

| member | source | states |
|---|---|---|
| InfluxDB.AnyFormat | miner_monitor/miner_monitor/outputs/influxdb.py:33-64 | `_any_format`: `T`/`F` for a bool, the float's `str()` text, the decimal text plus `i` for an int, a quoted and quote-escaped string otherwise; its properties are the `*FormatSpec` and `ParseAnyFormat` rows |
| InfluxDB.NameEscape | miner_monitor/miner_monitor/outputs/influxdb.py:66-73 | `_name_escape`: the three chained replacements, comma, equals sign, then space; its properties are the `NameEscape*` rows |
| InfluxDB.MeasurementEscape | miner_monitor/miner_monitor/outputs/influxdb.py:75-82 | `_measurement_escape`: the two chained replacements, comma then space; its properties are the `MeasurementEscape*` rows |
| InfluxDB.DictFormat | miner_monitor/miner_monitor/outputs/influxdb.py:84-99 | `_dict_format`: `key_converter(k)=value_converter(_any_format(v))` per entry, comma-joined, with a missing converter as the identity; see `DictFormatCons` |
| InfluxDB.LineProtocol | miner_monitor/miner_monitor/outputs/influxdb.py:101-123 | `_line_protocol`: the escaped measurement, a comma, the tag segment, a space, the field segment, a space and the timestamp in nanoseconds; see `ReadLineProtocol` |
| InfluxDB.RemoveUnit | miner_monitor/miner_monitor/outputs/influxdb.py:14-22 | succeeds exactly when the input splits into two whitespace tokens and the first parses as a number; anything else is a `ValueError` |
| InfluxDBProps.RemoveUnitReads | miner_monitor/miner_monitor/outputs/influxdb.py:15-22 | for `number unit`, the result is the number times 1000 for a unit starting with `k`/`K` (or the Kelvin sign, which lower-cases to `k`), times 1000000 for `m`/`M`, and unscaled otherwise |
| InfluxDBProps.RemoveUnitNeedsTwoTokens | miner_monitor/miner_monitor/outputs/influxdb.py:15 | input that does not split into exactly two tokens is a `ValueError` |
| InfluxDBProps.RemoveUnitKilo | miner_monitor/miner_monitor/outputs/influxdb.py:14-22 | `"12.5 kH/s"` gives 12500.0 |
| InfluxDBProps.RemoveUnitMega | miner_monitor/miner_monitor/outputs/influxdb.py:14-22 | `"2 M"` gives 2000000.0 |
| InfluxDBProps.RemoveUnitMissingUnit | miner_monitor/miner_monitor/outputs/influxdb.py:15 | a number without a unit is a `ValueError` |
| InfluxDB.TimeFormat | miner_monitor/miner_monitor/outputs/influxdb.py:25-31 | the result is a whole number of nanoseconds, and dividing by 10^9 gives the seconds back |
| InfluxDBProps.SecondInNanos | miner_monitor/miner_monitor/outputs/influxdb.py:31 | one second prints as `1000000000` |
| InfluxDBProps.BoolFormatSpec | miner_monitor/miner_monitor/outputs/influxdb.py:51-57 | a bool gives exactly `T` or `F`, never the token of an int (the bool test comes first) or of a string |
| InfluxDBProps.IntFormatSpec | miner_monitor/miner_monitor/outputs/influxdb.py:56-57 | an int gives its decimal text, which reads back as the int, followed by exactly one `i` |
| InfluxDBProps.StrFormatSpec | miner_monitor/miner_monitor/outputs/influxdb.py:59-60 | a string gives a token that starts and ends with `"`, whose inner quotes all carry a backslash, and which unescapes to the string |
| InfluxDBProps.BackslashQuoteFormat | miner_monitor/miner_monitor/outputs/influxdb.py:60 | backslashes are not escaped: the string `\"` is written as `"\\""` |
| InfluxDBProps.QuoteEscapeIsEscape | miner_monitor/miner_monitor/outputs/influxdb.py:60 | the quote replacement is the single-pass escape of `"` |
| LineReader.ParseAnyFormat | miner_monitor/miner_monitor/outputs/influxdb.py:47-64 | every token `_any_format` writes reads back as the value it encodes |
| InfluxDBProps.NameEscapeIsEscape | miner_monitor/miner_monitor/outputs/influxdb.py:73 | the three chained replacements equal one pass escaping `,` `=` and space: no replacement re-escapes another's backslash |
| InfluxDBProps.NameEscapeSpec | miner_monitor/miner_monitor/outputs/influxdb.py:67-73 | every `,` `=` and space of the result carries a backslash; unescaping gives the input back; input without those characters is unchanged |
| InfluxDBProps.MeasurementEscapeIsEscape | miner_monitor/miner_monitor/outputs/influxdb.py:82 | the two chained replacements equal one pass escaping `,` and space |
| InfluxDBProps.MeasurementEscapeSpec | miner_monitor/miner_monitor/outputs/influxdb.py:76-82 | commas and spaces are escaped and reversibly so; text without comma and space, `=` included, is unchanged |
| InfluxDBProps.DictFormatCons | miner_monitor/miner_monitor/outputs/influxdb.py:85-99 | the first entry gives `key_converter(k)=value_converter(_any_format(v))`, and the rest follow after one comma, in order |
| InfluxDBProps.OneIntField | miner_monitor/miner_monitor/outputs/influxdb.py:99 | `{"x": 1}` formats as `x=1i` |
| InfluxDBProps.LineWithoutTags | miner_monitor/miner_monitor/outputs/influxdb.py:101-123 | with no tags, the comma after the measurement is still written: `m, x=1i 1000000000` |
| LineReader.ReadTagsText | miner_monitor/miner_monitor/outputs/influxdb.py:113-117 | the tag segment reads back as the tags, in order, and holds no unescaped space |
| LineReader.ReadFieldsText | miner_monitor/miner_monitor/outputs/influxdb.py:118-121 | the field segment reads back as the fields, in order |
| LineReader.ReadLineProtocol | miner_monitor/miner_monitor/outputs/influxdb.py:101-123 | a written line reads back as the measurement, the tags and the fields it was given, and the timestamp times 10^9 |
| Text.IntToStringRoundTrip | miner_monitor/miner_monitor/outputs/influxdb.py:57 | `str(i)` is digits with an optional minus sign and reads back as `i` |
| Text.SplitJoin | miner_monitor/miner_monitor/outputs/influxdb.py:15 | `str.split()` of non-empty space-free tokens joined by single spaces gives the tokens back |
| Monitor.NewPoint | monitor.py:15-19 | missing tags or data become empty dicts, and a missing timestamp becomes the value fixed when the class was defined |
| Monitor.Render | monitor.py:21-22 | `__str__`: measurement, a comma, the comma-joined `k=str(v)` tags, a space, the fields likewise, a space and the timestamp, with no escaping; see `ReadRender` and `RenderAmbiguous` |
| MonitorReader.ReadRender | monitor.py:21-22 | the printed point reads back as its measurement, its `(key, str(value))` tag and field pairs in order, and its timestamp, when no part holds a separator |
| MonitorReader.RenderAmbiguous | monitor.py:22 | without escaping, a comma moved from the measurement into the first tag key prints the same line |
| OrderedDict.Get | monitor.py:39 | `k in d` holds exactly when `d[k]` has a value |
| OrderedDict.Set | monitor.py:84 | after `d[k] = v`, `d[k]` is `v`; an existing key keeps its place, and a new key is appended |
| OrderedDict.SetOther | monitor.py:84 | `d[k] = v` leaves every other key's value alone |
| OrderedDict.SetDistinct | monitor.py:84 | `d[k] = v` keeps the keys distinct |
| OrderedDict.SetSet | monitor.py:84 | assigning a key twice leaves the second value, in the same place |
| OrderedDict.Merge | monitor.py:40 | `{**a, **b}` (also at line 65): the entries of `a`, then each entry of `b` assigned in order; see `MergeGet`, `MergeKeys` and `MergeDistinct` |
| OrderedDict.MergeGet | monitor.py:40 | in `{**a, **b}`, a key of `b` takes `b`'s value and any other key keeps `a`'s |
| OrderedDict.MergeKeys | monitor.py:65 | the keys of `{**a, **b}` are `a`'s in order, followed by the keys of `b` that `a` lacks, in `b`'s order |
| OrderedDict.MergeDistinct | monitor.py:40 | a merge keeps the keys distinct |
| Pipeline.RequestFailure | monitor.py:52-55 | the `except` clauses: a timeout or a non-JSON body prints its message on stderr and the loop goes on; any other failure ends the run with `RequestError` |
| Pipeline.WithConfigTags | monitor.py:39-40 | `if "tags" in config: tags = {**tags, **config["tags"]}`, a `TypeError` when those tags are not a dict; see `ConfigTagsMerge` |
| Pipeline.MinerEntry | monitor.py:34-55 | one device: the request, its failure handling, the tags, the eight fields, one printed point; see the `MinerEntry*` and `*EndsDevices` rows |
| Pipeline.MinerEntries | monitor.py:33-55 | the device loop, stopping at the first uncaught exception; see `MinerEntriesStep`, `TimeoutIsolated` and `NotJsonIsolated` |
| Pipeline.ChartPoint | monitor.py:71-74 | one chart entry: `point[1]`, then `point[0] * 1000000000`, then one printed point; see `ChartPointEntry` |
| Pipeline.ChartLines | monitor.py:70-74 | the chart loop; see `ChartLinesAll` |
| Pipeline.WorkerStep | monitor.py:84-88 | one worker: `tags["rig_id"] = worker["rigId"]`, then one point with `worker["hashRate"]`; see `WorkerStepEntry` |
| Pipeline.WorkerLines | monitor.py:83-88 | the worker loop and the shared tags it leaves; see `WorkerLinesAll` and `WorkerLinesTags` |
| Pipeline.PoolFetch | monitor.py:68-69 | (also lines 81-82) the 5-second pause, then one request to `<url>/stats/<what>/<address>`; see `PoolFetchTimeout` and `PoolFetchNotJson` |
| Pipeline.PoolTotals | monitor.py:67-78 | the chart request of one address and its `except` clauses |
| Pipeline.PoolWorkers | monitor.py:80-92 | the worker request of one address and its `except` clauses |
| Pipeline.PoolAddress | monitor.py:59-92 | one address: its tags, the chart request, then the worker request; see `PoolAddressTimeouts` and `PoolRequestFailedEnds` |
| Pipeline.PoolAddresses | monitor.py:58-92 | the loop over `config["addresses"]`: every address of the pool in configuration order, stopping after an uncaught exception; see `PoolAddressesAppend` and `CrashedPoolAddresses` |
| Pipeline.PoolEntry | monitor.py:57-58 | one pool: every entry of its `addresses`; see `MissingAddressesEnds` |
| Pipeline.PoolEntries | monitor.py:57-92 | the loop over the `pool-api` entries: every pool in configuration order, stopping after an uncaught exception; see `PoolEntriesAppend` and `CrashedPoolEntries` |
| Pipeline.Family | monitor.py:32-94 | one entry of `config["api"]`, dispatched on its key; see `UnknownFamily` |
| Pipeline.Families | monitor.py:31 | the loop over `config["api"]`; see `FamiliesAppend` and `CrashedFamilies` |
| Pipeline.Run | monitor.py:27-94 | the whole run from the parsed configuration; see `RunFalsy` and `RunScript` |
| Pipeline.Extract | monitor.py:41-50 | the status fields are read exactly when every path succeeds, one entry per field, in order, each with the value at its path |
| PipelineProps.MinerStatusKeys | monitor.py:41-50 | a miner point has exactly the eight fields `total_hashrate` … `ping`, in that order |
| PipelineProps.MinerEntryPrints | monitor.py:34-51 | a device answering with a full status costs one request and prints one line, tagged with its name merged with its configured `tags`, holding its status and the default timestamp |
| PipelineProps.ConfigTagsMerge | monitor.py:39-40 | (also lines 64-65) with configured `tags`, a configured value overrides a base tag of the same key, and new keys follow the base keys in configuration order |
| PipelineProps.MinerLineReads | monitor.py:36-51 | for a device with no configured `tags`, its line reads back as measurement `miner-xmr-stak`, tag `name`, and the eight status texts (lines with configured tags are covered by `MonitorReader.ReadRender`) |
| PipelineProps.MinerEntryTimeout | monitor.py:52-53 | a device that times out costs one request and prints `Failed to read data from device <name>` on stderr |
| PipelineProps.TimeoutIsolated | monitor.py:33-55 | after a timed-out device, the remaining devices are handled exactly as if it had not been there, after its report |
| PipelineProps.MinerEntryNotJson | monitor.py:54-55 | a device whose reply is not JSON costs one request and prints `Unexcepted data from device <name>` on stderr |
| PipelineProps.NotJsonIsolated | monitor.py:33-55 | after such a device, the remaining devices are handled exactly as if it had not been there, after its report |
| PipelineProps.RequestFailedEndsDevices | monitor.py:34-55 | any other request failure is not caught: the run ends with `RequestError` right after the request, and no later device is contacted |
| PipelineProps.MissingUrlEndsDevices | monitor.py:35 | a device configuration without `url` ends the run with `KeyError` before any request |
| PipelineProps.BadStatusEndsDevices | monitor.py:41-50 | a status reply missing one of the eight paths ends the run with that path's exception, after the request and with nothing printed |
| PipelineProps.TagsNotDictEndsDevices | monitor.py:39-40 | configured `tags` that are not a dict end the run with `TypeError` after the request |
| PipelineProps.MinerEntriesStep | monitor.py:33 | the device loop handles its first device, then the rest |
| PipelineProps.ChartPointEntry | monitor.py:71-74 | one chart entry prints one point with `hashrate=entry[1]` at `entry[0] * 10^9` |
| PipelineProps.ChartLinesAll | monitor.py:70-74 | the chart loop prints exactly one such line per entry, in order, and nothing else |
| PipelineProps.WorkerStepEntry | monitor.py:84-88 | one worker sets `tags["rig_id"]` to its `rigId` and then prints one point with its `hashRate` |
| PipelineProps.WorkerOutAfter | monitor.py:84-88 | a worker's line does not depend on the `rig_id` an earlier worker left in the shared tags |
| PipelineProps.WorkerLinesCons | monitor.py:83-88 | the worker loop handles its first worker, then the rest with the updated tags |
| PipelineProps.WorkerLinesAll | monitor.py:83-88 | the worker loop prints exactly one line per worker, in order |
| PipelineProps.WorkerLineRigId | monitor.py:84 | each worker's line carries that worker's `rigId` as its `rig_id` tag |
| PipelineProps.WorkerLinesTags | monitor.py:84 | after the loop, the shared tags dict holds the last worker's `rigId` under `rig_id` |
| PipelineProps.PoolFetchTimeout | monitor.py:67-76 | a pool request that times out costs one request and prints a 5-second pause, the request and `Failed to read data from pool <pool> address <alias>` |
| PipelineProps.PoolAddressTimeouts | monitor.py:58-92 | when both pool requests time out, an address prints two `Failed to read data from pool <pool> address <alias>` messages, each after a 5-second pause and a request |
| PipelineProps.PoolFetchNotJson | monitor.py:67-78 | a pool reply that is not JSON costs one request and prints a 5-second pause, the request and `Unexcepted data from pool <pool> address <alias>` |
| PipelineProps.PoolTotalsNotJson | monitor.py:67-92 | after a chart reply that is not JSON has been reported, the address's worker statistics are still requested |
| PipelineProps.PoolRequestFailedEnds | monitor.py:67-78 | any other failure of the chart request ends the run with `RequestError` after that request; the worker statistics are never requested |
| PipelineProps.PoolMissingUrlEnds | monitor.py:68-69 | a pool configuration without `url` ends the run with `KeyError` after the first pause, before any request |
| PipelineProps.MissingAddressesEnds | monitor.py:58 | a pool configuration without `addresses` ends the run with `KeyError` |
| PipelineProps.PoolAddressesAppend | monitor.py:58 | the addresses of one pool are polled one after another, in configuration order |
| PipelineProps.CrashedPoolAddresses | monitor.py:58-92 | after an uncaught exception, no further address is polled |
| PipelineProps.PoolEntriesAppend | monitor.py:57 | the pools are polled one after another, in configuration order |
| PipelineProps.CrashedPoolEntries | monitor.py:57-92 | after an uncaught exception, no further pool is polled |
| PipelineProps.FamiliesAppend | monitor.py:31 | the families of `config["api"]` are handled one after another, in order |
| PipelineProps.CrashedFamilies | monitor.py:31-94 | after an uncaught exception, nothing more happens |
| PipelineProps.UnknownFamily | monitor.py:93-94 | an unknown API family prints `Unknown API type <k>` on stderr, and the loop goes on |
| PipelineProps.RunFalsy | monitor.py:27-29 | an empty or false configuration prints `Cannot read config` and exits |
| Driver.TagDict.constructor | monitor.py:59-65 | the dict starts with the given entries |
| Driver.TagDict.SetItem | monitor.py:84 | `tags[k] = v` in place: the entries become the assignment's result |
| Driver.PollDevices | monitor.py:33-55 | the device loop prints what the fold `MinerEntries` specifies |
| Driver.PollChart | monitor.py:70-74 | the chart loop prints what `ChartLines` specifies |
| Driver.PollWorkers | monitor.py:83-88 | the worker loop prints what `WorkerLines` specifies, and leaves the shared dict in the state it specifies |
| Driver.PollAddress | monitor.py:59-92 | one pool address goes through its tags, the chart request, then the worker request, as `PoolAddress` specifies |
| Driver.PollAddresses | monitor.py:58-92 | the address loop behaves as `PoolAddresses` specifies |
| Driver.PollPools | monitor.py:57-92 | the pool loop behaves as `PoolEntries` specifies |
| Driver.RunScript | monitor.py:27-94 | the whole run behaves as `Run` specifies |

## Left out

- HTTP requests: the network is a parameter, so `requests` itself, its timeout values and its exception hierarchy beyond the four reply kinds are not modelled (monitor.py:35, 69, 82).
- `time.sleep(5)` becomes a `Sleep` event; no time passes (monitor.py:68, 81).
- Reading `config.json` and `os.chdir` are not modelled (monitor.py:10, 24-25): the parsed configuration is a parameter. A file that is missing or not valid JSON is not modelled either.
- Floats: `str()` of a float is kept as an opaque token (`Float(text)`, `JFloat(text)`), because IEEE 754 text rendering is not modelled.
- Pipeline.ScaleSeconds: a float, string or list times 10^9 is an `Unmodelled` error instead of Python's float product, string repetition or list repetition.
- InfluxDB.RemoveUnit: only the decimal forms of `float()` are parsed: an optional sign, ASCII digits, and an optional fraction. Python's `float()` also accepts other Unicode decimal digits, which the model rejects. Exponents, `inf`, `nan` and underscores are not parsed either, and the result is an exact `real`, not a double.
- PyJson.Repr: `repr()` inside containers is simplified. Strings are always in single quotes, with no escaping and no choice of double quotes.
- Python integers are unbounded, as in the model; the 64-bit limit of line-protocol integers is not checked.
- The `time` branches of `_any_format` and `_line_protocol` (influxdb.py:49-50, 123) always fail as written, so they are not modelled.
- The `except` with `NotImplemented(...)` in `_any_format` (influxdb.py:61-62) cannot be reached for the modelled value kinds.
- `IOutput` (outputs/__init__.py) and `setup.py` are not part of this model: an interface without logic, and packaging metadata.
- LineReader.ReadLineProtocol: requires that the measurement, the keys and the string field values do not end in a backslash, and that float tokens have the shape `str()` gives them. Without those conditions, the line does not read back.
- LineReader.ParseValue: its string unescaping is more lenient than the line protocol's. It reads only `\"` as an escape, while InfluxDB also reads `\\` as one backslash. So `ParseAnyFormat` and `ReadLineProtocol` do not show that, under InfluxDB's reader, a string value holding two backslashes in a row or a backslash before a quote reads back changed (a lone backslash before any other character reads back unchanged).
