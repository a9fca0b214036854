/**
 * The static helpers of the `InfluxDB` output class: the line-protocol encoder
 * (value typing, key escaping, pair joining, the line layout) and the parser of
 * unit-suffixed numbers.
 */
module InfluxDB {
  import opened Wrappers
  import opened Text
  import opened Escaping

  /**
   * A field or tag value. `Float` keeps the text Python's `str()` gives the
   * double, which the model does not compute.
   */
  datatype Value = Int(i: int) | Bool(b: bool) | Float(text: string) | Str(s: string)

  /** The characters escaped in tag keys, tag values and field keys. */
  const NameSpecials: set<char> := {',', '=', ' '}

  /** The characters escaped in measurement names. */
  const MeasurementSpecials: set<char> := {',', ' '}

  const NanosPerSecond: int := 1000000000

  // ---------------------------------------------------------------- _remove_unit

  datatype UnitError = ValueError

  /** The factor a unit stands for: its lower-cased first letter decides. */
  function UnitScale(unit: string): real
  {
    if |unit| > 0 && unit[0] in {'k', 'K', '\U{212A}'} then 1000.0
    else if |unit| > 0 && unit[0] in {'m', 'M'} then 1000000.0
    else 1.0
  }

  /**
   * `_remove_unit`: splits `s` on whitespace into exactly a number and a unit,
   * and scales the number by the unit; any other shape is a `ValueError`.
   */
  function RemoveUnit(s: string): (r: Result<real, UnitError>)
    ensures r.Ok? <==> |Split(s)| == 2 && ParseDecimal(Split(s)[0]).Some?
  {
    var tokens := Split(s);
    if |tokens| != 2 then Err(ValueError)
    else
      match ParseDecimal(tokens[0])
      case None => Err(ValueError)
      case Some(num) => Ok(num * UnitScale(tokens[1]))
  }

  // ---------------------------------------------------------------- _time_format

  /** `_time_format`: whole seconds to nanoseconds. */
  function TimeFormat(t: int): (r: int)
    ensures r % NanosPerSecond == 0 && r / NanosPerSecond == t
  {
    t * NanosPerSecond
  }

  // ----------------------------------------------------------------- _any_format

  /** The body of a string value: every double quote gets a backslash. */
  function QuoteEscape(s: string): string
  {
    ReplaceChar(s, '"', "\\\"")
  }

  /** `_any_format`: the line-protocol token of a value. */
  function AnyFormat(a: Value): string
  {
    match a
    case Bool(b) => if b then "T" else "F"
    case Float(text) => text
    case Int(i) => IntToString(i) + "i"
    case Str(s) => "\"" + QuoteEscape(s) + "\""
  }

  // ------------------------------------------------- _name_escape, _measurement_escape

  /** `_name_escape`: three chained replacements, comma first, then equals, then space. */
  function NameEscape(s: string): string
  {
    ReplaceChar(ReplaceChar(ReplaceChar(s, ',', "\\,"), '=', "\\="), ' ', "\\ ")
  }

  /** `_measurement_escape`: comma, then space. */
  function MeasurementEscape(s: string): string
  {
    ReplaceChar(ReplaceChar(s, ',', "\\,"), ' ', "\\ ")
  }

  // ------------------------------------------------ _dict_format, _line_protocol

  /** An optional converter; `None` is `_null_converter`, the identity. */
  function Convert(converter: Option<string -> string>, s: string): string
  {
    match converter
    case None => s
    case Some(f) => f(s)
  }

  /** The `key=value` texts of `_dict_format`, one per entry in order. */
  function PairTexts(d: seq<(string, Value)>, keyConverter: Option<string -> string>,
                     valueConverter: Option<string -> string>): (r: seq<string>)
    ensures |r| == |d|
  {
    if d == [] then []
    else [Convert(keyConverter, d[0].0) + "=" + Convert(valueConverter, AnyFormat(d[0].1))]
         + PairTexts(d[1..], keyConverter, valueConverter)
  }

  /** `_dict_format`: the entries as `key=value`, comma-joined in iteration order. */
  function DictFormat(d: seq<(string, Value)>, keyConverter: Option<string -> string>,
                      valueConverter: Option<string -> string>): string
  {
    Join(",", PairTexts(d, keyConverter, valueConverter))
  }

  /** The tag segment: keys and formatted values both name-escaped. */
  function TagsText(tags: seq<(string, Value)>): string
  {
    DictFormat(tags, Some(NameEscape), Some(NameEscape))
  }

  /** The field segment: keys name-escaped, values as `_any_format` gives them. */
  function FieldsText(data: seq<(string, Value)>): string
  {
    DictFormat(data, Some(NameEscape), None)
  }

  /**
   * `_line_protocol`: measurement, a comma, tags, a space, fields, a space and
   * the timestamp converted from seconds to nanoseconds.
   */
  function LineProtocol(measurement: string, tags: seq<(string, Value)>,
                        data: seq<(string, Value)>, timestamp: int): string
  {
    MeasurementEscape(measurement) + "," + TagsText(tags) + " " + FieldsText(data)
    + " " + IntToString(TimeFormat(timestamp))
  }
}
