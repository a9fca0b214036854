/**
 * The polling script as it runs: one method per loop, each proved to print
 * exactly what its fold in `Pipeline` describes.
 */
module Driver {
  import opened Wrappers
  import opened OrderedDict
  import opened PyJson
  import opened Monitor
  import opened Pipeline

  /** The `tags` dict of a pool address, which the worker loop updates in place. */
  class TagDict {
    var entries: Dict<Json>

    constructor (initial: Dict<Json>)
      ensures entries == initial
    {
      entries := initial;
    }

    /** `tags[k] = v`. */
    method SetItem(k: string, v: Json)
      modifies this
      ensures entries == Set(old(entries), k, v)
    {
      entries := Set(entries, k, v);
    }
  }

  /** `for name, config in v.items()` of the `xmr-stak` family. */
  method PollDevices(t0: Trace, net: Network, classDefault: int, devices: Dict<Json>) returns (t: Trace)
    ensures t == MinerEntries(t0, net, classDefault, devices)
  {
    t := t0;
    var i := 0;
    while i < |devices| && t.crash.None?
      invariant 0 <= i <= |devices|
      invariant MinerEntries(t, net, classDefault, devices[i..]) == MinerEntries(t0, net, classDefault, devices)
    {
      assert devices[i..][1..] == devices[i + 1..];
      t := MinerEntry(t, net, classDefault, devices[i].0, devices[i].1);
      i := i + 1;
    }
  }

  /** `for point in ret_total["charts"]["hashrate"]`. */
  method PollChart(t0: Trace, classDefault: int, tags: Dict<Json>, points: seq<Json>) returns (t: Trace)
    ensures t == ChartLines(t0, classDefault, tags, points)
  {
    t := t0;
    var i := 0;
    while i < |points| && t.crash.None?
      invariant 0 <= i <= |points|
      invariant ChartLines(t, classDefault, tags, points[i..]) == ChartLines(t0, classDefault, tags, points)
    {
      assert points[i..][1..] == points[i + 1..];
      t := ChartPoint(t, classDefault, tags, points[i]);
      i := i + 1;
    }
  }

  /** `for worker in ret_workers["workers"]`, assigning `tags["rig_id"]` in place. */
  method PollWorkers(t0: Trace, classDefault: int, tags: TagDict, workers: seq<Json>) returns (t: Trace)
    modifies tags
    ensures (t, tags.entries) == WorkerLines(t0, classDefault, old(tags.entries), workers)
  {
    t := t0;
    var i := 0;
    while i < |workers| && t.crash.None?
      invariant 0 <= i <= |workers|
      invariant WorkerLines(t, classDefault, tags.entries, workers[i..])
                == WorkerLines(t0, classDefault, old(tags.entries), workers)
    {
      assert workers[i..][1..] == workers[i + 1..];
      var rig := Subscript(workers[i], Key("rigId"));
      if rig.Err? {
        t := Fail(t, rig.error);
      } else {
        tags.SetItem("rig_id", rig.value);
        var rate := Subscript(workers[i], Key("hashRate"));
        if rate.Err? {
          t := Fail(t, rate.error);
        } else {
          var p := NewPoint(Measurement, Some(tags.entries), Some([("hashrate", rate.value)]), None, classDefault);
          t := Emit(t, Out(Render(p)));
        }
      }
      i := i + 1;
    }
  }

  /** One address of a pool: the chart request, then the worker request. */
  method PollAddress(t0: Trace, net: Network, classDefault: int, poolname: string, cfg: Dict<Json>,
                     alias: string, address: Json) returns (t: Trace)
    ensures t == PoolAddress(t0, net, classDefault, poolname, cfg, alias, address)
  {
    var merged := WithConfigTags(PoolTags(poolname, alias, address), cfg);
    if merged.Err? {
      return Fail(t0, merged.error);
    }
    var tags := new TagDict(merged.value);
    // total stats
    var fetched := PoolFetch(t0, net, cfg, "address", address);
    var reply := fetched.1;
    t := fetched.0;
    if reply.Some? {
      var r := reply.value;
      if !r.Body? {
        t := RequestFailure(t, r, PoolTimeoutMessage(poolname, alias), PoolNotJsonMessage(poolname, alias));
      } else {
        var chart := Select(r.json, [Key("charts"), Key("hashrate")]);
        var points := if chart.Ok? then Iterate(chart.value) else Err(chart.error);
        if points.Err? {
          t := Fail(t, points.error);
        } else {
          t := PollChart(t, classDefault, tags.entries, points.value);
        }
      }
    }
    assert t == PoolTotals(t0, net, classDefault, cfg, poolname, alias, address, merged.value);
    if t.crash.Some? {
      return;
    }
    // worker stats
    fetched := PoolFetch(t, net, cfg, "workerStats", address);
    reply := fetched.1;
    t := fetched.0;
    if reply.Some? {
      var r := reply.value;
      if !r.Body? {
        t := RequestFailure(t, r, PoolTimeoutMessage(poolname, alias), PoolNotJsonMessage(poolname, alias));
      } else {
        var list := Select(r.json, [Key("workers")]);
        var workers := if list.Ok? then Iterate(list.value) else Err(list.error);
        if workers.Err? {
          t := Fail(t, workers.error);
        } else {
          t := PollWorkers(t, classDefault, tags, workers.value);
        }
      }
    }
  }

  /** `for addr_alias, address in config["addresses"].items()`. */
  method PollAddresses(t0: Trace, net: Network, classDefault: int, poolname: string, cfg: Dict<Json>,
                       addresses: Dict<Json>) returns (t: Trace)
    ensures t == PoolAddresses(t0, net, classDefault, poolname, cfg, addresses)
  {
    t := t0;
    var i := 0;
    while i < |addresses| && t.crash.None?
      invariant 0 <= i <= |addresses|
      invariant PoolAddresses(t, net, classDefault, poolname, cfg, addresses[i..])
                == PoolAddresses(t0, net, classDefault, poolname, cfg, addresses)
    {
      assert addresses[i..][1..] == addresses[i + 1..];
      t := PollAddress(t, net, classDefault, poolname, cfg, addresses[i].0, addresses[i].1);
      i := i + 1;
    }
  }

  /** `for poolname, config in v.items()` of the `pool-api` family. */
  method PollPools(t0: Trace, net: Network, classDefault: int, pools: Dict<Json>) returns (t: Trace)
    ensures t == PoolEntries(t0, net, classDefault, pools)
  {
    t := t0;
    var i := 0;
    while i < |pools| && t.crash.None?
      invariant 0 <= i <= |pools|
      invariant PoolEntries(t, net, classDefault, pools[i..]) == PoolEntries(t0, net, classDefault, pools)
    {
      assert pools[i..][1..] == pools[i + 1..];
      var cfg := pools[i].1;
      var addresses := if !cfg.JObject? then Err(TypeError)
                       else if Get(cfg.entries, "addresses").None? then Err(KeyError)
                       else Items(Get(cfg.entries, "addresses").value);
      if addresses.Err? {
        t := Fail(t, addresses.error);
      } else {
        t := PollAddresses(t, net, classDefault, pools[i].0, cfg.entries, addresses.value);
      }
      i := i + 1;
    }
  }

  /** `for k, v in config["api"].items()`, after the configuration check. */
  method RunScript(config: Json, net: Network, classDefault: int) returns (t: Trace)
    ensures t == Run(config, net, classDefault)
  {
    t := Trace([], 0, None);
    if Falsy(config) {
      return Fail(Emit(t, Diag("Cannot read config")), SystemExit);
    }
    var api := Select(config, [Key("api")]);
    var families := if api.Ok? then Items(api.value) else Err(api.error);
    if families.Err? {
      return Fail(t, families.error);
    }
    var fs := families.value;
    var i := 0;
    while i < |fs| && t.crash.None?
      invariant 0 <= i <= |fs|
      invariant Families(t, net, classDefault, fs[i..]) == Families(Trace([], 0, None), net, classDefault, fs)
    {
      assert fs[i..][1..] == fs[i + 1..];
      var (k, v) := fs[i];
      if k == "xmr-stak" || k == "pool-api" {
        var entries := Items(v);
        if entries.Err? {
          t := Fail(t, entries.error);
        } else if k == "xmr-stak" {
          t := PollDevices(t, net, classDefault, entries.value);
        } else {
          t := PollPools(t, net, classDefault, entries.value);
        }
      } else {
        t := Emit(t, Diag("Unknown API type " + k));
      }
      i := i + 1;
    }
  }
}
