/** The `InfluxDBLineProtocol` point of the polling script and its `__str__`. */
module Monitor {
  import opened Wrappers
  import opened Text
  import opened OrderedDict
  import opened PyJson

  datatype Point = Point(measurement: string, tags: Dict<Json>, data: Dict<Json>, timestamp: int)

  /**
   * `InfluxDBLineProtocol(measurement, tags, data[, timestamp])`: missing tags
   * or data become empty dicts; a missing timestamp is the default computed
   * once, when the class was defined.
   */
  function NewPoint(measurement: string, tags: Option<Dict<Json>>, data: Option<Dict<Json>>,
                    timestamp: Option<int>, classDefault: int): (p: Point)
    ensures p.measurement == measurement
    ensures p.tags == (if tags.Some? then tags.value else [])
    ensures p.data == (if data.Some? then data.value else [])
    ensures p.timestamp == (if timestamp.Some? then timestamp.value else classDefault)
  {
    Point(measurement,
          match tags case Some(t) => t case None => [],
          match data case Some(d) => d case None => [],
          match timestamp case Some(t) => t case None => classDefault)
  }

  /** The `k=v` texts of a dict, `str()` of each value, no escaping. */
  function PairStrs(d: Dict<Json>): (r: seq<string>)
    ensures |r| == |d|
  {
    if d == [] then [] else [d[0].0 + "=" + PyStr(d[0].1)] + PairStrs(d[1..])
  }

  /** `__str__`: measurement, comma, tags, space, fields, space, timestamp. */
  function Render(p: Point): string
  {
    p.measurement + "," + Join(",", PairStrs(p.tags)) + " " + Join(",", PairStrs(p.data))
    + " " + IntToString(p.timestamp)
  }
}
