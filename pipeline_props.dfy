/** What the polling script promises about its output, proved of `Pipeline`. */
module PipelineProps {
  import opened Wrappers
  import opened Text
  import opened OrderedDict
  import opened PyJson
  import opened Monitor
  import opened MonitorReader
  import opened Pipeline
  import InfluxDB

  predicate Timeout(r: Reply)
  {
    r.ReadTimeout? || r.ConnectTimeout?
  }

  /** A miner's status point carries exactly the eight fields, in this order. */
  lemma {:induction false} MinerStatusKeys(ret: Json)
    requires Extract(ret, MinerFields).Ok?
    ensures Keys(Extract(ret, MinerFields).value)
            == ["total_hashrate", "diff_current", "shares_good", "shares_total",
                "avg_time", "hashes_total", "uptime", "ping"]
  {
    var data := Extract(ret, MinerFields).value;
    forall i | 0 <= i < |data| ensures Keys(data)[i] == MinerFields[i].0 {
      KeysAt(data, i);
    }
  }

  /** The point printed for a device whose configuration carries no extra tags. */
  function MinerPoint(name: string, data: Dict<Json>, classDefault: int): Point
  {
    Point(Measurement, [("name", JStr(name))], data, classDefault)
  }

  /**
   * A device that answers with a complete status prints one line tagged with
   * its name merged with the `tags` of its configuration, holding the status
   * fields and the default timestamp.
   */
  lemma {:induction false} MinerEntryPrints(t: Trace, net: Network, classDefault: int, name: string, entries: Dict<Json>,
                                            url: Json, tags: Dict<Json>, data: Dict<Json>)
    requires Get(entries, "url") == Some(url)
    requires WithConfigTags([("name", JStr(name))], entries) == Ok(tags)
    requires net(t.calls, PyStr(url)).Body?
    requires Extract(net(t.calls, PyStr(url)).json, MinerFields) == Ok(data)
    ensures MinerEntry(t, net, classDefault, name, JObject(entries))
            == t.(log := t.log + [Request(PyStr(url)), Out(Render(Point(Measurement, tags, data, classDefault)))],
                  calls := t.calls + 1)
  {
    var t1 := Fetch(t, net, PyStr(url)).0;
    var p := Point(Measurement, tags, data, classDefault);
    assert NewPoint(Measurement, Some(tags), Some(data), None, classDefault) == p;
    assert (t.log + [Request(PyStr(url))]) + [Out(Render(p))] == t.log + [Request(PyStr(url)), Out(Render(p))];
    assert MinerEntry(t, net, classDefault, name, JObject(entries)) == Emit(t1, Out(Render(p)));
  }

  /**
   * The tags of a point: the base tags with the configuration's `tags` merged
   * over them. A configured value overrides a base value of the same key, and
   * new keys follow the base keys in configuration order.
   */
  lemma ConfigTagsMerge(base: Dict<Json>, entries: Dict<Json>, extra: Dict<Json>, k: string)
    requires Get(entries, "tags") == Some(JObject(extra)) && DistinctKeys(extra)
    ensures WithConfigTags(base, entries).Ok?
    ensures var tags := WithConfigTags(base, entries).value;
      && Get(tags, k) == (if k in Keys(extra) then Get(extra, k) else Get(base, k))
      && Keys(tags) == Keys(base) + NewKeys(Keys(extra), Keys(base))
  {
    MergeGet(base, extra, k);
    MergeKeys(base, extra);
  }

  /** A device that times out is reported on standard error, and the run goes on. */
  lemma {:induction false} MinerEntryTimeout(t: Trace, net: Network, classDefault: int, name: string, entries: Dict<Json>, url: Json)
    requires Get(entries, "url") == Some(url) && Timeout(net(t.calls, PyStr(url)))
    ensures MinerEntry(t, net, classDefault, name, JObject(entries))
            == t.(log := t.log + [Request(PyStr(url)), Diag(DeviceTimeoutMessage(name))],
                  calls := t.calls + 1)
  {
  }

  /**
   * A device that times out is reported, and the devices after it are handled
   * exactly as if it had not been there, after that report.
   */
  lemma {:induction false} TimeoutIsolated(t: Trace, net: Network, classDefault: int, name: string,
                                           entries: Dict<Json>, url: Json, rest: Dict<Json>)
    requires t.crash.None?
    requires Get(entries, "url") == Some(url) && Timeout(net(t.calls, PyStr(url)))
    ensures MinerEntries(t, net, classDefault, [(name, JObject(entries))] + rest)
            == MinerEntries(t.(log := t.log + [Request(PyStr(url)), Diag(DeviceTimeoutMessage(name))],
                               calls := t.calls + 1), net, classDefault, rest)
  {
    MinerEntryTimeout(t, net, classDefault, name, entries, url);
    MinerEntriesStep(t, net, classDefault, name, JObject(entries), rest);
  }

  /** A device whose reply is not JSON is reported on standard error, and the run goes on. */
  lemma {:induction false} MinerEntryNotJson(t: Trace, net: Network, classDefault: int, name: string, entries: Dict<Json>, url: Json)
    requires Get(entries, "url") == Some(url) && net(t.calls, PyStr(url)).NotJson?
    ensures MinerEntry(t, net, classDefault, name, JObject(entries))
            == t.(log := t.log + [Request(PyStr(url)), Diag(DeviceNotJsonMessage(name))],
                  calls := t.calls + 1)
  {
  }

  /**
   * A device whose reply is not JSON is reported, and the devices after it are
   * handled exactly as if it had not been there, after that report.
   */
  lemma {:induction false} NotJsonIsolated(t: Trace, net: Network, classDefault: int, name: string,
                                           entries: Dict<Json>, url: Json, rest: Dict<Json>)
    requires t.crash.None?
    requires Get(entries, "url") == Some(url) && net(t.calls, PyStr(url)).NotJson?
    ensures MinerEntries(t, net, classDefault, [(name, JObject(entries))] + rest)
            == MinerEntries(t.(log := t.log + [Request(PyStr(url)), Diag(DeviceNotJsonMessage(name))],
                               calls := t.calls + 1), net, classDefault, rest)
  {
    MinerEntryNotJson(t, net, classDefault, name, entries, url);
    MinerEntriesStep(t, net, classDefault, name, JObject(entries), rest);
  }

  /**
   * Any other request failure is not caught: the run ends after the request,
   * and none of the remaining devices is contacted.
   */
  lemma {:induction false} RequestFailedEndsDevices(t: Trace, net: Network, classDefault: int, name: string,
                                                    entries: Dict<Json>, url: Json, rest: Dict<Json>)
    requires t.crash.None?
    requires Get(entries, "url") == Some(url) && net(t.calls, PyStr(url)).RequestFailed?
    ensures MinerEntries(t, net, classDefault, [(name, JObject(entries))] + rest)
            == t.(log := t.log + [Request(PyStr(url))], calls := t.calls + 1, crash := Some(RequestError))
  {
    MinerEntriesStep(t, net, classDefault, name, JObject(entries), rest);
  }

  /** A device configuration without `url` is a `KeyError` that ends the run before any request. */
  lemma {:induction false} MissingUrlEndsDevices(t: Trace, net: Network, classDefault: int, name: string,
                                                 entries: Dict<Json>, rest: Dict<Json>)
    requires t.crash.None? && "url" !in Keys(entries)
    ensures MinerEntries(t, net, classDefault, [(name, JObject(entries))] + rest) == t.(crash := Some(KeyError))
  {
    MinerEntriesStep(t, net, classDefault, name, JObject(entries), rest);
  }

  /**
   * A status reply without one of the eight paths (a missing key, a short
   * list, a value of the wrong kind) raises an exception the script does not
   * catch: the run ends after the request, with nothing printed for the device.
   */
  lemma {:induction false} BadStatusEndsDevices(t: Trace, net: Network, classDefault: int, name: string,
                                                entries: Dict<Json>, url: Json, rest: Dict<Json>, e: PyError)
    requires t.crash.None? && Get(entries, "url") == Some(url)
    requires WithConfigTags([("name", JStr(name))], entries).Ok?
    requires net(t.calls, PyStr(url)).Body?
    requires Extract(net(t.calls, PyStr(url)).json, MinerFields) == Err(e)
    ensures MinerEntries(t, net, classDefault, [(name, JObject(entries))] + rest)
            == t.(log := t.log + [Request(PyStr(url))], calls := t.calls + 1, crash := Some(e))
  {
    MinerEntriesStep(t, net, classDefault, name, JObject(entries), rest);
  }

  /** Configured `tags` that are not a dict cannot be merged: a `TypeError` ends the run. */
  lemma {:induction false} TagsNotDictEndsDevices(t: Trace, net: Network, classDefault: int, name: string,
                                                  entries: Dict<Json>, url: Json, extra: Json, rest: Dict<Json>)
    requires t.crash.None? && Get(entries, "url") == Some(url) && net(t.calls, PyStr(url)).Body?
    requires Get(entries, "tags") == Some(extra) && !extra.JObject?
    ensures MinerEntries(t, net, classDefault, [(name, JObject(entries))] + rest)
            == t.(log := t.log + [Request(PyStr(url))], calls := t.calls + 1, crash := Some(TypeError))
  {
    MinerEntriesStep(t, net, classDefault, name, JObject(entries), rest);
  }

  /** The device loop handles its first device, then the rest. */
  lemma {:induction false} MinerEntriesStep(t: Trace, net: Network, classDefault: int, name: string, cfg: Json,
                                            rest: Dict<Json>)
    requires t.crash.None?
    ensures MinerEntries(t, net, classDefault, [(name, cfg)] + rest)
            == MinerEntries(MinerEntry(t, net, classDefault, name, cfg), net, classDefault, rest)
  {
    assert ([(name, cfg)] + rest)[1..] == rest;
  }

  /**
   * The miner line reads back as the device name tag, the `str()` of the
   * status fields in order, and the default timestamp, when the name and the
   * fields hold no separators.
   */
  lemma {:induction false} MinerLineReads(name: string, data: Dict<Json>, classDefault: int)
    requires Plain(name) && PlainDict(data)
    ensures ReadPrinted(Render(MinerPoint(name, data, classDefault)))
            == Some(Printed(Measurement, [("name", name)], Texts(data), classDefault))
  {
    var p := MinerPoint(name, data, classDefault);
    MeasurementHasNoComma();
    NameTagPlain(name);
    ReadRender(p);
  }

  lemma MeasurementHasNoComma()
    ensures ',' !in Measurement
  {
  }

  /** The single `name` tag of a miner point prints as the name itself. */
  lemma NameTagPlain(name: string)
    requires Plain(name)
    ensures PlainDict([("name", JStr(name))]) && Texts([("name", JStr(name))]) == [("name", name)]
  {
    var d := [("name", JStr(name))];
    assert PyStr(JStr(name)) == name;
    assert d[1..] == [];
  }

  /** A chart entry the loop can turn into a point: `[seconds, hashrate, ...]`. */
  predicate ChartEntry(point: Json)
  {
    point.JArray? && |point.items| >= 2 && point.items[0].JInt?
  }

  function ChartOut(tags: Dict<Json>, point: Json): Event
    requires ChartEntry(point)
  {
    Out(Render(Point(Measurement, tags, [("hashrate", point.items[1])],
                     point.items[0].i * InfluxDB.NanosPerSecond)))
  }

  predicate ChartEntries(points: seq<Json>)
  {
    points == [] || (ChartEntry(points[0]) && ChartEntries(points[1..]))
  }

  function ChartOuts(tags: Dict<Json>, points: seq<Json>): seq<Event>
    requires ChartEntries(points)
  {
    if points == [] then [] else [ChartOut(tags, points[0])] + ChartOuts(tags, points[1..])
  }

  lemma ChartPointEntry(t: Trace, classDefault: int, tags: Dict<Json>, point: Json)
    requires ChartEntry(point)
    ensures ChartPoint(t, classDefault, tags, point) == Emit(t, ChartOut(tags, point))
  {
  }

  /**
   * The chart loop prints one point per entry, in order, each stamped with
   * the entry's seconds in nanoseconds.
   */
  lemma {:induction false} ChartLinesAll(t: Trace, classDefault: int, tags: Dict<Json>, points: seq<Json>)
    requires t.crash.None? && ChartEntries(points)
    ensures ChartLines(t, classDefault, tags, points) == t.(log := t.log + ChartOuts(tags, points))
    decreases |points|
  {
    if points == [] {
      assert t.log + [] == t.log;
    } else {
      var t1 := ChartPoint(t, classDefault, tags, points[0]);
      ChartPointEntry(t, classDefault, tags, points[0]);
      ChartLinesAll(t1, classDefault, tags, points[1..]);
      EmitThen(t, ChartOut(tags, points[0]), ChartOuts(tags, points[1..]));
    }
  }

  /** A worker the loop can turn into a point. */
  predicate WorkerEntry(w: Json)
  {
    w.JObject? && Get(w.entries, "rigId").Some? && Get(w.entries, "hashRate").Some?
  }

  predicate WorkerEntries(workers: seq<Json>)
  {
    workers == [] || (WorkerEntry(workers[0]) && WorkerEntries(workers[1..]))
  }

  /** `w["rigId"]` of a worker entry. */
  function Rig(w: Json): Json
  {
    if WorkerEntry(w) then Get(w.entries, "rigId").value else JNull
  }

  /** `w["hashRate"]` of a worker entry. */
  function Rate(w: Json): Json
  {
    if WorkerEntry(w) then Get(w.entries, "hashRate").value else JNull
  }

  function WorkerOut(classDefault: int, tags: Dict<Json>, w: Json): Event
  {
    Out(Render(Point(Measurement, Set(tags, "rig_id", Rig(w)), [("hashrate", Rate(w))], classDefault)))
  }

  lemma {:induction false} WorkerStepEntry(t: Trace, classDefault: int, tags: Dict<Json>, w: Json)
    requires WorkerEntry(w)
    ensures WorkerStep(t, classDefault, tags, w) == (Emit(t, WorkerOut(classDefault, tags, w)), Set(tags, "rig_id", Rig(w)))
  {
  }

  /** A worker's line does not depend on the `rig_id` an earlier worker left behind. */
  lemma {:induction false} WorkerOutAfter(classDefault: int, tags: Dict<Json>, rig: Json, w: Json)
    ensures WorkerOut(classDefault, Set(tags, "rig_id", rig), w) == WorkerOut(classDefault, tags, w)
  {
    SetSet(tags, "rig_id", rig, Rig(w));
  }

  function WorkerOuts(classDefault: int, tags: Dict<Json>, workers: seq<Json>): seq<Event>
  {
    seq(|workers|, i requires 0 <= i < |workers| => WorkerOut(classDefault, tags, workers[i]))
  }

  lemma {:induction false} WorkerOutsCons(classDefault: int, tags: Dict<Json>, workers: seq<Json>)
    requires workers != []
    ensures WorkerOuts(classDefault, tags, workers)
            == [WorkerOut(classDefault, tags, workers[0])]
               + WorkerOuts(classDefault, Set(tags, "rig_id", Rig(workers[0])), workers[1..])
  {
    var rest := WorkerOuts(classDefault, Set(tags, "rig_id", Rig(workers[0])), workers[1..]);
    forall i | 0 <= i < |rest| ensures rest[i] == WorkerOut(classDefault, tags, workers[i + 1]) {
      WorkerOutAfter(classDefault, tags, Rig(workers[0]), workers[i + 1]);
    }
  }

  /** Printing one event and then several is printing them all. */
  lemma EmitThen(t: Trace, e: Event, later: seq<Event>)
    ensures Emit(t, e).(log := Emit(t, e).log + later) == t.(log := t.log + ([e] + later))
  {
    assert (t.log + [e]) + later == t.log + ([e] + later);
  }

  /** The worker loop handles its first worker, then the rest with the updated tags. */
  lemma {:induction false} WorkerLinesCons(t: Trace, classDefault: int, tags: Dict<Json>, workers: seq<Json>)
    requires t.crash.None? && workers != [] && WorkerEntry(workers[0])
    ensures WorkerLines(t, classDefault, tags, workers)
            == WorkerLines(Emit(t, WorkerOut(classDefault, tags, workers[0])), classDefault,
                           Set(tags, "rig_id", Rig(workers[0])), workers[1..])
  {
    WorkerStepEntry(t, classDefault, tags, workers[0]);
  }

  /** The worker loop prints one point per worker, in order, tagged with that worker's `rigId`. */
  lemma {:induction false} WorkerLinesAll(t: Trace, classDefault: int, tags: Dict<Json>, workers: seq<Json>)
    requires t.crash.None? && WorkerEntries(workers)
    ensures WorkerLines(t, classDefault, tags, workers).0
            == t.(log := t.log + WorkerOuts(classDefault, tags, workers))
    decreases |workers|
  {
    if workers == [] {
      assert t.log + WorkerOuts(classDefault, tags, workers) == t.log;
    } else {
      var tags1 := Set(tags, "rig_id", Rig(workers[0]));
      var t1 := Emit(t, WorkerOut(classDefault, tags, workers[0]));
      WorkerLinesCons(t, classDefault, tags, workers);
      WorkerLinesAll(t1, classDefault, tags1, workers[1..]);
      WorkerOutsCons(classDefault, tags, workers);
      EmitThen(t, WorkerOut(classDefault, tags, workers[0]), WorkerOuts(classDefault, tags1, workers[1..]));
    }
  }

  /**
   * Because the loop updates the dict in place, `rig_id` is left holding the
   * last worker's id.
   */
  lemma {:induction false} WorkerLinesTags(t: Trace, classDefault: int, tags: Dict<Json>, workers: seq<Json>)
    requires t.crash.None? && WorkerEntries(workers)
    ensures WorkerLines(t, classDefault, tags, workers).1
            == if workers == [] then tags else Set(tags, "rig_id", Rig(workers[|workers| - 1]))
    decreases |workers|
  {
    if workers != [] {
      var tags1 := Set(tags, "rig_id", Rig(workers[0]));
      var t1 := Emit(t, WorkerOut(classDefault, tags, workers[0]));
      WorkerLinesCons(t, classDefault, tags, workers);
      WorkerLinesTags(t1, classDefault, tags1, workers[1..]);
      if |workers| > 1 {
        var rest := workers[1..];
        assert rest[|rest| - 1] == workers[|workers| - 1];
        SetSet(tags, "rig_id", Rig(workers[0]), Rig(workers[|workers| - 1]));
      }
    }
  }

  /** Each worker's line carries that worker's id as its `rig_id` tag. */
  lemma {:induction false} WorkerLineRigId(tags: Dict<Json>, w: Json)
    requires WorkerEntry(w)
    ensures Get(Set(tags, "rig_id", Rig(w)), "rig_id") == Get(w.entries, "rigId")
  {
  }

  /** A timed-out pool request is reported after its pause, and the run goes on. */
  lemma {:induction false} PoolFetchTimeout(t: Trace, net: Network, cfg: Dict<Json>, what: string,
                                            address: Json, url: Json, poolname: string, alias: string)
    requires Get(cfg, "url") == Some(url)
    requires Timeout(net(t.calls, PoolUrl(url, what, address)))
    ensures var (t1, reply) := PoolFetch(t, net, cfg, what, address);
            reply.Some? && !reply.value.Body?
            && RequestFailure(t1, reply.value, PoolTimeoutMessage(poolname, alias), PoolNotJsonMessage(poolname, alias))
               == t.(log := t.log + [Sleep(PoolPause), Request(PoolUrl(url, what, address)),
                                     Diag(PoolTimeoutMessage(poolname, alias))],
                     calls := t.calls + 1)
  {
  }

  /**
   * When both requests of a pool address time out, each is reported and the
   * second is still made, each after a five-second pause.
   */
  lemma {:induction false} PoolAddressTimeouts(t: Trace, net: Network, classDefault: int, poolname: string,
                                               cfg: Dict<Json>, alias: string, address: Json, url: Json)
    requires t.crash.None? && Get(cfg, "url") == Some(url)
    requires WithConfigTags(PoolTags(poolname, alias, address), cfg).Ok?
    requires Timeout(net(t.calls, PoolUrl(url, "address", address)))
    requires Timeout(net(t.calls + 1, PoolUrl(url, "workerStats", address)))
    ensures PoolAddress(t, net, classDefault, poolname, cfg, alias, address)
            == t.(log := t.log + [Sleep(PoolPause), Request(PoolUrl(url, "address", address)),
                                  Diag(PoolTimeoutMessage(poolname, alias)),
                                  Sleep(PoolPause), Request(PoolUrl(url, "workerStats", address)),
                                  Diag(PoolTimeoutMessage(poolname, alias))],
                  calls := t.calls + 2)
  {
    var tags := WithConfigTags(PoolTags(poolname, alias, address), cfg).value;
    PoolFetchTimeout(t, net, cfg, "address", address, url, poolname, alias);
    var t1 := PoolTotals(t, net, classDefault, cfg, poolname, alias, address, tags);
    PoolFetchTimeout(t1, net, cfg, "workerStats", address, url, poolname, alias);
  }

  /** A pool reply that is not JSON is reported after its pause, and the run goes on. */
  lemma {:induction false} PoolFetchNotJson(t: Trace, net: Network, cfg: Dict<Json>, what: string,
                                            address: Json, url: Json, poolname: string, alias: string)
    requires Get(cfg, "url") == Some(url)
    requires net(t.calls, PoolUrl(url, what, address)).NotJson?
    ensures var (t1, reply) := PoolFetch(t, net, cfg, what, address);
            reply.Some? && !reply.value.Body?
            && RequestFailure(t1, reply.value, PoolTimeoutMessage(poolname, alias), PoolNotJsonMessage(poolname, alias))
               == t.(log := t.log + [Sleep(PoolPause), Request(PoolUrl(url, what, address)),
                                     Diag(PoolNotJsonMessage(poolname, alias))],
                     calls := t.calls + 1)
  {
  }

  /**
   * When the chart reply is not JSON, the address is reported once and its
   * worker statistics are still requested.
   */
  lemma {:induction false} PoolTotalsNotJson(t: Trace, net: Network, classDefault: int, poolname: string,
                                             cfg: Dict<Json>, alias: string, address: Json, url: Json)
    requires t.crash.None? && Get(cfg, "url") == Some(url)
    requires WithConfigTags(PoolTags(poolname, alias, address), cfg).Ok?
    requires net(t.calls, PoolUrl(url, "address", address)).NotJson?
    ensures var tags := WithConfigTags(PoolTags(poolname, alias, address), cfg).value;
            var t1 := t.(log := t.log + [Sleep(PoolPause), Request(PoolUrl(url, "address", address)),
                                         Diag(PoolNotJsonMessage(poolname, alias))],
                         calls := t.calls + 1);
            PoolAddress(t, net, classDefault, poolname, cfg, alias, address)
            == PoolWorkers(t1, net, classDefault, cfg, poolname, alias, address, tags)
  {
    PoolFetchNotJson(t, net, cfg, "address", address, url, poolname, alias);
  }

  /**
   * Any other failure of the chart request is not caught: the run ends after
   * that request, and the worker statistics are never requested.
   */
  lemma {:induction false} PoolRequestFailedEnds(t: Trace, net: Network, classDefault: int, poolname: string,
                                                 cfg: Dict<Json>, alias: string, address: Json, url: Json)
    requires t.crash.None? && Get(cfg, "url") == Some(url)
    requires WithConfigTags(PoolTags(poolname, alias, address), cfg).Ok?
    requires net(t.calls, PoolUrl(url, "address", address)).RequestFailed?
    ensures PoolAddress(t, net, classDefault, poolname, cfg, alias, address)
            == t.(log := t.log + [Sleep(PoolPause), Request(PoolUrl(url, "address", address))],
                  calls := t.calls + 1, crash := Some(RequestError))
  {
    var tags := WithConfigTags(PoolTags(poolname, alias, address), cfg).value;
    var fetched := PoolFetch(t, net, cfg, "address", address);
    assert fetched.0 == t.(log := t.log + [Sleep(PoolPause), Request(PoolUrl(url, "address", address))],
                           calls := t.calls + 1);
    assert PoolTotals(t, net, classDefault, cfg, poolname, alias, address, tags) == fetched.0.(crash := Some(RequestError));
  }

  /** A pool configuration without `url` is a `KeyError` after the first pause, before any request. */
  lemma {:induction false} PoolMissingUrlEnds(t: Trace, net: Network, classDefault: int, poolname: string,
                                              cfg: Dict<Json>, alias: string, address: Json)
    requires t.crash.None? && "url" !in Keys(cfg)
    requires WithConfigTags(PoolTags(poolname, alias, address), cfg).Ok?
    ensures PoolAddress(t, net, classDefault, poolname, cfg, alias, address)
            == t.(log := t.log + [Sleep(PoolPause)], crash := Some(KeyError))
  {
    var tags := WithConfigTags(PoolTags(poolname, alias, address), cfg).value;
    assert PoolTotals(t, net, classDefault, cfg, poolname, alias, address, tags)
           == t.(log := t.log + [Sleep(PoolPause)], crash := Some(KeyError));
  }

  /** A pool configuration without `addresses` is a `KeyError` that ends the run. */
  lemma {:induction false} MissingAddressesEnds(t: Trace, net: Network, classDefault: int, poolname: string,
                                                entries: Dict<Json>, rest: Dict<Json>)
    requires t.crash.None? && "addresses" !in Keys(entries)
    ensures PoolEntries(t, net, classDefault, [(poolname, JObject(entries))] + rest) == t.(crash := Some(KeyError))
  {
    assert ([(poolname, JObject(entries))] + rest)[1..] == rest;
  }

  /** The families of `config["api"]` are handled one after another, in order. */
  /** The addresses of one pool are polled one after another, in configuration order. */
  lemma {:induction false} PoolAddressesAppend(t: Trace, net: Network, classDefault: int, poolname: string,
                                                cfg: Dict<Json>, a: Dict<Json>, b: Dict<Json>)
    ensures PoolAddresses(t, net, classDefault, poolname, cfg, a + b)
            == PoolAddresses(PoolAddresses(t, net, classDefault, poolname, cfg, a), net, classDefault, poolname, cfg, b)
    decreases |a|
  {
    if a == [] {
      assert a + b == b;
    } else if t.crash.None? {
      assert (a + b)[1..] == a[1..] + b;
      PoolAddressesAppend(PoolAddress(t, net, classDefault, poolname, cfg, a[0].0, a[0].1),
                          net, classDefault, poolname, cfg, a[1..], b);
    } else {
      assert PoolAddresses(t, net, classDefault, poolname, cfg, a) == t;
      CrashedPoolAddresses(t, net, classDefault, poolname, cfg, b);
    }
  }

  /** After an exception, no further address of the pool is polled. */
  lemma {:induction false} CrashedPoolAddresses(t: Trace, net: Network, classDefault: int, poolname: string,
                                                 cfg: Dict<Json>, addresses: Dict<Json>)
    requires t.crash.Some?
    ensures PoolAddresses(t, net, classDefault, poolname, cfg, addresses) == t
  {
  }

  /** The pools are polled one after another, in configuration order. */
  lemma {:induction false} PoolEntriesAppend(t: Trace, net: Network, classDefault: int, a: Dict<Json>, b: Dict<Json>)
    ensures PoolEntries(t, net, classDefault, a + b) == PoolEntries(PoolEntries(t, net, classDefault, a), net, classDefault, b)
    decreases |a|
  {
    if a == [] {
      assert a + b == b;
    } else if t.crash.None? {
      assert (a + b)[1..] == a[1..] + b;
      PoolEntriesAppend(PoolEntry(t, net, classDefault, a[0].0, a[0].1), net, classDefault, a[1..], b);
    } else {
      assert PoolEntries(t, net, classDefault, a) == t;
      CrashedPoolEntries(t, net, classDefault, b);
    }
  }

  /** After an exception, no further pool is polled. */
  lemma {:induction false} CrashedPoolEntries(t: Trace, net: Network, classDefault: int, pools: Dict<Json>)
    requires t.crash.Some?
    ensures PoolEntries(t, net, classDefault, pools) == t
  {
  }

  lemma {:induction false} FamiliesAppend(t: Trace, net: Network, classDefault: int, a: Dict<Json>, b: Dict<Json>)
    ensures Families(t, net, classDefault, a + b) == Families(Families(t, net, classDefault, a), net, classDefault, b)
    decreases |a|
  {
    if a == [] {
      assert a + b == b;
    } else if t.crash.None? {
      assert (a + b)[1..] == a[1..] + b;
      FamiliesAppend(Family(t, net, classDefault, a[0].0, a[0].1), net, classDefault, a[1..], b);
    } else {
      assert Families(t, net, classDefault, a) == t;
      CrashedFamilies(t, net, classDefault, b);
    }
  }

  /** Once an exception escapes, nothing more is printed. */
  lemma {:induction false} CrashedFamilies(t: Trace, net: Network, classDefault: int, fs: Dict<Json>)
    requires t.crash.Some?
    ensures Families(t, net, classDefault, fs) == t
  {
  }

  /** An API family the script does not know is reported and skipped. */
  lemma {:induction false} UnknownFamily(t: Trace, net: Network, classDefault: int, k: string, v: Json, rest: Dict<Json>)
    requires t.crash.None? && k != "xmr-stak" && k != "pool-api"
    ensures Families(t, net, classDefault, [(k, v)] + rest)
            == Families(Emit(t, Diag("Unknown API type " + k)), net, classDefault, rest)
  {
    assert ([(k, v)] + rest)[1..] == rest;
  }

  /** A configuration that is empty or false ends the run with only the message. */
  lemma {:induction false} RunFalsy(config: Json, net: Network, classDefault: int)
    requires Falsy(config)
    ensures Run(config, net, classDefault) == Trace([Diag("Cannot read config")], 0, Some(SystemExit))
  {
  }
}
