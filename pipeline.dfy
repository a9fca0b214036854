/**
 * What the polling script prints, as functions: each loop of the script is a
 * left fold over its items that stops at the first uncaught exception.
 */
module Pipeline {
  import opened Wrappers
  import opened Text
  import opened OrderedDict
  import opened PyJson
  import opened Monitor
  import InfluxDB

  /** What one `requests.get(...).json()` gives. */
  datatype Reply =
    | ReadTimeout
    | ConnectTimeout
    | RequestFailed   // any other `requests` exception
    | NotJson         // the body does not decode as JSON
    | Body(json: Json)

  /** The network: the reply to the n-th request of the run, given its URL. */
  type Network = (nat, string) -> Reply

  /** `Out` goes to standard output, `Diag` to standard error. */
  datatype Event = Request(url: string) | Sleep(seconds: nat) | Out(line: string) | Diag(message: string)

  /** Everything the run has done so far, and the exception that ended it, if any. */
  datatype Trace = Trace(log: seq<Event>, calls: nat, crash: Option<PyError>)

  const Measurement := "miner-xmr-stak"

  /** Seconds slept before every pool request. */
  const PoolPause: nat := 5

  function Emit(t: Trace, e: Event): Trace
  {
    t.(log := t.log + [e])
  }

  function Fail(t: Trace, e: PyError): Trace
  {
    t.(crash := Some(e))
  }

  /** One request: it is logged and counted, and the network answers it. */
  function Fetch(t: Trace, net: Network, url: string): (Trace, Reply)
  {
    (t.(log := t.log + [Request(url)], calls := t.calls + 1), net(t.calls, url))
  }

  /**
   * The `except` clauses around a request: a timeout or a body that is not
   * JSON is reported and the loop goes on; any other failure ends the run.
   */
  function RequestFailure(t: Trace, reply: Reply, timeoutMessage: string, notJsonMessage: string): Trace
    requires !reply.Body?
  {
    match reply
    case ReadTimeout => Emit(t, Diag(timeoutMessage))
    case ConnectTimeout => Emit(t, Diag(timeoutMessage))
    case NotJson => Emit(t, Diag(notJsonMessage))
    case RequestFailed => Fail(t, RequestError)
  }

  /** `if "tags" in config: tags = {**tags, **config["tags"]}`. */
  function WithConfigTags(base: Dict<Json>, cfg: Dict<Json>): Result<Dict<Json>, PyError>
  {
    match Get(cfg, "tags")
    case None => Ok(base)
    case Some(extra) => if extra.JObject? then Ok(Merge(base, extra.entries)) else Err(TypeError)
  }

  /** The fields of a miner point and where each is found in the status reply. */
  const MinerFields: seq<(string, seq<Selector>)> := [
    ("total_hashrate", [Key("hashrate"), Key("total"), Index(0)]),
    ("diff_current", [Key("results"), Key("diff_current")]),
    ("shares_good", [Key("results"), Key("shares_good")]),
    ("shares_total", [Key("results"), Key("shares_total")]),
    ("avg_time", [Key("results"), Key("avg_time")]),
    ("hashes_total", [Key("results"), Key("hashes_total")]),
    ("uptime", [Key("connection"), Key("uptime")]),
    ("ping", [Key("connection"), Key("ping")])
  ]

  /**
   * A dict display whose values are subscript chains into `ret`: it exists
   * exactly when every chain succeeds, and then holds each field's value in
   * the display's order.
   */
  function Extract(ret: Json, fields: seq<(string, seq<Selector>)>): (r: Result<Dict<Json>, PyError>)
    ensures r.Ok? <==> forall i :: 0 <= i < |fields| ==> Select(ret, fields[i].1).Ok?
    ensures r.Ok? ==> |r.value| == |fields|
    ensures r.Ok? ==> forall i :: 0 <= i < |fields| ==> r.value[i] == (fields[i].0, Select(ret, fields[i].1).value)
  {
    if fields == [] then Ok([])
    else
      match Select(ret, fields[0].1)
      case Err(e) => Err(e)
      case Ok(v) =>
        match Extract(ret, fields[1..])
        case Err(e) => Err(e)
        case Ok(rest) => Ok([(fields[0].0, v)] + rest)
  }

  function DeviceTimeoutMessage(name: string): string
  {
    "Failed to read data from device " + name
  }

  function DeviceNotJsonMessage(name: string): string
  {
    "Unexcepted data from device " + name
  }

  /** One device of the `xmr-stak` family: request its status, emit one point. */
  function MinerEntry(t: Trace, net: Network, classDefault: int, name: string, cfg: Json): Trace
  {
    match cfg
    case JObject(entries) =>
      (match Get(entries, "url")
       case None => Fail(t, KeyError)
       case Some(url) =>
         var (t1, reply) := Fetch(t, net, PyStr(url));
         if !reply.Body? then
           RequestFailure(t1, reply, DeviceTimeoutMessage(name), DeviceNotJsonMessage(name))
         else
           match WithConfigTags([("name", JStr(name))], entries)
           case Err(e) => Fail(t1, e)
           case Ok(tags) =>
             match Extract(reply.json, MinerFields)
             case Err(e) => Fail(t1, e)
             case Ok(data) =>
               Emit(t1, Out(Render(NewPoint(Measurement, Some(tags), Some(data), None, classDefault)))))
    case _ => Fail(t, TypeError)
  }

  function MinerEntries(t: Trace, net: Network, classDefault: int, devices: Dict<Json>): Trace
    decreases |devices|
  {
    if t.crash.Some? || devices == [] then t
    else MinerEntries(MinerEntry(t, net, classDefault, devices[0].0, devices[0].1), net, classDefault, devices[1..])
  }

  /** `point[0] * 1000000000`, where the product is an integer. */
  function ScaleSeconds(j: Json): Result<int, PyError>
  {
    match j
    case JInt(i) => Ok(i * InfluxDB.NanosPerSecond)
    case JBool(b) => Ok(if b then InfluxDB.NanosPerSecond else 0)
    case JNull => Err(TypeError)
    case JObject(_) => Err(TypeError)
    case _ => Err(Unmodelled)
  }

  /** One chart entry `[seconds, hashrate]`: one point at that time. */
  function ChartPoint(t: Trace, classDefault: int, tags: Dict<Json>, point: Json): Trace
  {
    match Subscript(point, Index(1))
    case Err(e) => Fail(t, e)
    case Ok(hashrate) =>
      match Subscript(point, Index(0))
      case Err(e) => Fail(t, e)
      case Ok(seconds) =>
        match ScaleSeconds(seconds)
        case Err(e) => Fail(t, e)
        case Ok(ts) =>
          Emit(t, Out(Render(NewPoint(Measurement, Some(tags), Some([("hashrate", hashrate)]), Some(ts), classDefault))))
  }

  function ChartLines(t: Trace, classDefault: int, tags: Dict<Json>, points: seq<Json>): Trace
    decreases |points|
  {
    if t.crash.Some? || points == [] then t
    else ChartLines(ChartPoint(t, classDefault, tags, points[0]), classDefault, tags, points[1..])
  }

  /** One worker: `tags["rig_id"]` is set in place, then one point is printed. */
  function WorkerStep(t: Trace, classDefault: int, tags: Dict<Json>, worker: Json): (Trace, Dict<Json>)
  {
    match Subscript(worker, Key("rigId"))
    case Err(e) => (Fail(t, e), tags)
    case Ok(rig) =>
      var tags1 := Set(tags, "rig_id", rig);
      match Subscript(worker, Key("hashRate"))
      case Err(e) => (Fail(t, e), tags1)
      case Ok(rate) =>
        (Emit(t, Out(Render(NewPoint(Measurement, Some(tags1), Some([("hashrate", rate)]), None, classDefault)))), tags1)
  }

  function WorkerLines(t: Trace, classDefault: int, tags: Dict<Json>, workers: seq<Json>): (Trace, Dict<Json>)
    decreases |workers|
  {
    if t.crash.Some? || workers == [] then (t, tags)
    else
      var (t1, tags1) := WorkerStep(t, classDefault, tags, workers[0]);
      WorkerLines(t1, classDefault, tags1, workers[1..])
  }

  function PoolTimeoutMessage(poolname: string, alias: string): string
  {
    "Failed to read data from pool " + poolname + " address " + alias
  }

  function PoolNotJsonMessage(poolname: string, alias: string): string
  {
    "Unexcepted data from pool " + poolname + " address " + alias
  }

  /** `"{}/stats/{what}/{}".format(url, address)`. */
  function PoolUrl(url: Json, what: string, address: Json): string
  {
    PyStr(url) + "/stats/" + what + "/" + PyStr(address)
  }

  /** `time.sleep(5)`, then the request to the pool's `what` statistics for `address`. */
  function PoolFetch(t: Trace, net: Network, cfg: Dict<Json>, what: string, address: Json): (Trace, Option<Reply>)
  {
    var t1 := Emit(t, Sleep(PoolPause));
    match Get(cfg, "url")
    case None => (Fail(t1, KeyError), None)
    case Some(url) =>
      var (t2, reply) := Fetch(t1, net, PoolUrl(url, what, address));
      (t2, Some(reply))
  }

  /** The first `try` of a pool address: one point per hashrate chart entry. */
  function PoolTotals(t: Trace, net: Network, classDefault: int, cfg: Dict<Json>, poolname: string,
                      alias: string, address: Json, tags: Dict<Json>): Trace
  {
    var (t1, reply) := PoolFetch(t, net, cfg, "address", address);
    match reply
    case None => t1
    case Some(r) =>
      if !r.Body? then
        RequestFailure(t1, r, PoolTimeoutMessage(poolname, alias), PoolNotJsonMessage(poolname, alias))
      else
        match Select(r.json, [Key("charts"), Key("hashrate")])
        case Err(e) => Fail(t1, e)
        case Ok(chart) =>
          match Iterate(chart)
          case Err(e) => Fail(t1, e)
          case Ok(points) => ChartLines(t1, classDefault, tags, points)
  }

  /** The second `try` of a pool address: one point per worker. */
  function PoolWorkers(t: Trace, net: Network, classDefault: int, cfg: Dict<Json>, poolname: string,
                       alias: string, address: Json, tags: Dict<Json>): Trace
  {
    var (t1, reply) := PoolFetch(t, net, cfg, "workerStats", address);
    match reply
    case None => t1
    case Some(r) =>
      if !r.Body? then
        RequestFailure(t1, r, PoolTimeoutMessage(poolname, alias), PoolNotJsonMessage(poolname, alias))
      else
        match Select(r.json, [Key("workers")])
        case Err(e) => Fail(t1, e)
        case Ok(list) =>
          match Iterate(list)
          case Err(e) => Fail(t1, e)
          case Ok(workers) => WorkerLines(t1, classDefault, tags, workers).0
  }

  function PoolTags(poolname: string, alias: string, address: Json): Dict<Json>
  {
    [("pool", JStr(poolname)), ("alias", JStr(alias)), ("address", address)]
  }

  /** One address of a pool: its tags, the chart request, the worker request. */
  function PoolAddress(t: Trace, net: Network, classDefault: int, poolname: string, cfg: Dict<Json>,
                       alias: string, address: Json): Trace
  {
    match WithConfigTags(PoolTags(poolname, alias, address), cfg)
    case Err(e) => Fail(t, e)
    case Ok(tags) =>
      var t1 := PoolTotals(t, net, classDefault, cfg, poolname, alias, address, tags);
      if t1.crash.Some? then t1
      else PoolWorkers(t1, net, classDefault, cfg, poolname, alias, address, tags)
  }

  function PoolAddresses(t: Trace, net: Network, classDefault: int, poolname: string, cfg: Dict<Json>,
                         addresses: Dict<Json>): Trace
    decreases |addresses|
  {
    if t.crash.Some? || addresses == [] then t
    else
      PoolAddresses(PoolAddress(t, net, classDefault, poolname, cfg, addresses[0].0, addresses[0].1),
                    net, classDefault, poolname, cfg, addresses[1..])
  }

  /** One pool of the `pool-api` family: every address in `config["addresses"]`. */
  function PoolEntry(t: Trace, net: Network, classDefault: int, poolname: string, cfg: Json): Trace
  {
    match cfg
    case JObject(entries) =>
      (match Get(entries, "addresses")
       case None => Fail(t, KeyError)
       case Some(addresses) =>
         match Items(addresses)
         case Err(e) => Fail(t, e)
         case Ok(pairs) => PoolAddresses(t, net, classDefault, poolname, entries, pairs))
    case _ => Fail(t, TypeError)
  }

  function PoolEntries(t: Trace, net: Network, classDefault: int, pools: Dict<Json>): Trace
    decreases |pools|
  {
    if t.crash.Some? || pools == [] then t
    else PoolEntries(PoolEntry(t, net, classDefault, pools[0].0, pools[0].1), net, classDefault, pools[1..])
  }

  /** One entry of `config["api"]`, dispatched on its key. */
  function Family(t: Trace, net: Network, classDefault: int, key: string, v: Json): Trace
  {
    if key == "xmr-stak" then
      match Items(v)
      case Err(e) => Fail(t, e)
      case Ok(devices) => MinerEntries(t, net, classDefault, devices)
    else if key == "pool-api" then
      match Items(v)
      case Err(e) => Fail(t, e)
      case Ok(pools) => PoolEntries(t, net, classDefault, pools)
    else Emit(t, Diag("Unknown API type " + key))
  }

  function Families(t: Trace, net: Network, classDefault: int, families: Dict<Json>): Trace
    decreases |families|
  {
    if t.crash.Some? || families == [] then t
    else Families(Family(t, net, classDefault, families[0].0, families[0].1), net, classDefault, families[1..])
  }

  /** Python truthiness of a parsed configuration. */
  predicate Falsy(j: Json)
  {
    match j
    case JNull => true
    case JBool(b) => !b
    case JInt(i) => i == 0
    case JFloat(text) => text == "0.0" || text == "-0.0"
    case JStr(s) => s == []
    case JArray(items) => items == []
    case JObject(entries) => entries == []
  }

  /** The whole run, from the parsed configuration file on. */
  function Run(config: Json, net: Network, classDefault: int): Trace
  {
    var t := Trace([], 0, None);
    if Falsy(config) then Fail(Emit(t, Diag("Cannot read config")), SystemExit)
    else
      match Select(config, [Key("api")])
      case Err(e) => Fail(t, e)
      case Ok(api) =>
        match Items(api)
        case Err(e) => Fail(t, e)
        case Ok(families) => Families(t, net, classDefault, families)
  }
}
