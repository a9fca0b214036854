/**
 * Reading back what the polling script's point prints. It writes `str()` of
 * every key and value with no escaping, so the text reads back only when no
 * key or value contains a separator.
 */
module MonitorReader {
  import opened Wrappers
  import opened Text
  import opened Escaping
  import opened OrderedDict
  import opened PyJson
  import opened Monitor
  import opened LineReader

  /** A printed point: measurement, tag and field texts, timestamp. */
  datatype Printed = Printed(measurement: string, tags: seq<(string, string)>,
                             fields: seq<(string, string)>, timestamp: int)

  /** The `(key, str(value))` pairs a dict prints. */
  function Texts(d: Dict<Json>): (r: seq<(string, string)>)
    ensures |r| == |d|
  {
    if d == [] then [] else [(d[0].0, PyStr(d[0].1))] + Texts(d[1..])
  }

  /** Text holding none of the separators a printed line uses between pairs. */
  predicate Plain(s: string)
  {
    ',' !in s && ' ' !in s
  }

  /** Every key is plain and has no `=`; every value prints as plain text. */
  predicate PlainDict(d: Dict<Json>)
  {
    forall i :: 0 <= i < |d| ==> Plain(d[i].0) && '=' !in d[i].0 && Plain(PyStr(d[i].1))
  }

  /** Splits a printed line at its first comma, the next two spaces, and reads the rest as an integer. */
  function ReadPrinted(line: string): Option<Printed>
  {
    var (m, r1) := SplitAt({}, ',', line);
    match r1
    case None => None
    case Some(afterMeasurement) =>
      var (tagText, r2) := SplitAt({}, ' ', afterMeasurement);
      match r2
      case None => None
      case Some(afterTags) =>
        var (fieldText, r3) := SplitAt({}, ' ', afterTags);
        match r3
        case None => None
        case Some(tsText) =>
          match (ReadPairs({}, tagText), ReadPairs({}, fieldText), ParseInt(tsText))
          case (Some(tags), Some(fields), Some(ts)) => Some(Printed(m, tags, fields, ts))
          case _ => None
  }

  /** The pairs of a plain dict read back in order; the text holds no space. */
  lemma {:induction false} ReadPairTexts(d: Dict<Json>)
    requires PlainDict(d)
    ensures ReadPairs({}, Join(",", PairStrs(d))) == Some(Texts(d))
    ensures Free({}, ' ', Join(",", PairStrs(d)))
    decreases |d|
  {
    if d != [] {
      var k, v, rest := d[0].0, d[0].1, d[1..];
      var p := k + "=" + PyStr(v);
      assert PairStrs(d) == [p] + PairStrs(rest);
      assert PlainDict(rest) by {
        forall i | 0 <= i < |rest| ensures Plain(rest[i].0) && '=' !in rest[i].0 && Plain(PyStr(rest[i].1)) {
          assert rest[i] == d[i + 1];
        }
      }
      assert p == k + ['='] + PyStr(v);
      FreePlain('=', k);
      SplitAfterFree({}, '=', k, PyStr(v));
      UnescapePlain(k);
      UnescapePlain(PyStr(v));
      assert ReadPair({}, p) == Some((k, PyStr(v)));
      assert ',' !in p && ' ' !in p;
      FreePlain(',', p);
      ReadPairTexts(rest);
      if rest == [] {
        assert Join(",", PairStrs(d)) == p;
        SplitFreeWhole({}, ',', p);
        assert p != [];
        assert ReadPairs({}, p) == Some([(k, PyStr(v))]);
        assert Texts(d) == [(k, PyStr(v))] + Texts(rest);
        assert Texts(rest) == [];
        assert Texts(d) == [(k, PyStr(v))];
        FreePlain(' ', p);
      } else {
        var j := Join(",", PairStrs(rest));
        JoinCons(",", p, PairStrs(rest));
        assert Join(",", PairStrs(d)) == p + [','] + j;
        SplitAfterFree({}, ',', p, j);
        PlainFreeNoSpace(j);
        PlainFreeNoSpace(p + [','] + j);
      }
    }
  }

  lemma {:induction false} PlainFreeNoSpace(s: string)
    ensures Free({}, ' ', s) <==> ' ' !in s
  {
    if s != [] {
      PlainFreeNoSpace(s[1..]);
    }
  }

  /**
   * A point whose measurement has no comma and whose tags and fields are plain
   * prints as a line that reads back as its measurement, the `str()` of its
   * tags and fields in order, and its timestamp.
   */
  lemma ReadRender(p: Point)
    requires ',' !in p.measurement && PlainDict(p.tags) && PlainDict(p.data)
    ensures ReadPrinted(Render(p)) == Some(Printed(p.measurement, Texts(p.tags), Texts(p.data), p.timestamp))
  {
    var tt, ft, tsText := Join(",", PairStrs(p.tags)), Join(",", PairStrs(p.data)), IntToString(p.timestamp);
    var afterTags := ft + [' '] + tsText;
    var afterMeasurement := tt + [' '] + afterTags;
    assert Render(p) == p.measurement + [','] + afterMeasurement;
    FreePlain(',', p.measurement);
    SplitAfterFree({}, ',', p.measurement, afterMeasurement);
    ReadPairTexts(p.tags);
    ReadPairTexts(p.data);
    SplitAfterFree({}, ' ', tt, afterTags);
    SplitAfterFree({}, ' ', ft, tsText);
    IntToStringRoundTrip(p.timestamp);
  }

  /**
   * Without escaping, a comma moved from the measurement into the first tag
   * key prints the same line: the printed text cannot tell the two apart.
   */
  lemma RenderAmbiguous(x: string, y: string, z: string, v: Json, data: Dict<Json>, ts: int)
    ensures Render(Point(x + "," + y, [(z, v)], data, ts)) == Render(Point(x, [(y + "," + z, v)], data, ts))
  {
    assert PairStrs([(z, v)]) == [z + "=" + PyStr(v)];
    assert PairStrs([(y + "," + z, v)]) == [y + "," + z + "=" + PyStr(v)];
  }
}
