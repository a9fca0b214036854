/**
 * A reader for the lines the encoder writes, used as the encoder's
 * specification: reading a line back gives the measurement, the tags, the
 * fields and the timestamp that were encoded.
 */
module LineReader {
  import opened Wrappers
  import opened Text
  import opened Escaping
  import opened InfluxDB
  import opened InfluxDBProps

  /** The shape of Python's `str()` of a double: `1.5`, `-0.0`, `1e+20`, `inf`, `nan`. */
  predicate FloatText(t: string)
  {
    && |t| > 0
    && (forall i :: 0 <= i < |t| ==> IsDigit(t[i]) || t[i] in {'.', '-', '+', 'e', 'i', 'n', 'f', 'a'})
    && (IsDigit(t[0]) || t[0] in {'-', 'i', 'n'})
    && (IsDigit(t[|t| - 1]) || t[|t| - 1] in {'f', 'n'})
  }

  /** A value whose float text, if any, has the shape `str()` gives. */
  predicate ValueReadable(v: Value)
  {
    v.Float? ==> FloatText(v.text)
  }

  /** A key (or string) that does not end in a backslash. */
  predicate NoTrailingBackslash(s: string)
  {
    s == [] || s[|s| - 1] != '\\'
  }

  /** Reads one value token: `T`/`F`, a quoted string, an integer with `i`, or a float. */
  function ParseValue(tok: string): Option<Value>
  {
    if tok == "T" then Some(Bool(true))
    else if tok == "F" then Some(Bool(false))
    else if |tok| >= 2 && tok[0] == '"' && tok[|tok| - 1] == '"' then
      Some(Str(Unescape({'"'}, tok[1..|tok| - 1])))
    else if |tok| > 0 && tok[|tok| - 1] == 'i' && ParseInt(tok[..|tok| - 1]).Some? then
      Some(Int(ParseInt(tok[..|tok| - 1]).value))
    else if FloatText(tok) then Some(Float(tok))
    else None
  }

  /** `_any_format` tokens read back as the value they encode. */
  lemma ParseAnyFormat(v: Value)
    requires ValueReadable(v)
    ensures ParseValue(AnyFormat(v)) == Some(v)
  {
    var tok := AnyFormat(v);
    match v
    case Bool(b) =>
    case Int(i) =>
      IntFormatSpec(i);
      IntToStringRoundTrip(i);
      assert tok[0] == IntToString(i)[0];
    case Str(s) =>
      StrFormatSpec(s);
    case Float(t) =>
  }

  /** A token of a readable value ends in neither a backslash nor, outside strings, a comma or space. */
  lemma AnyFormatShape(v: Value)
    requires ValueReadable(v)
    ensures NoTrailingBackslash(AnyFormat(v)) && |AnyFormat(v)| > 0
    ensures !v.Str? ==> ',' !in AnyFormat(v) && AnyFormat(v)[0] != '"'
  {
    match v
    case Bool(b) =>
    case Float(t) =>
    case Str(s) =>
    case Int(i) =>
      IntToStringRoundTrip(i);
      var t := IntToString(i) + "i";
      assert forall k :: 0 <= k < |t| - 1 ==> t[k] == IntToString(i)[k];
  }

  // ------------------------------------------------------------------- tags

  /** Reads `key=value` (escapes `E`) into its unescaped key and value. */
  function ReadPair(E: set<char>, p: string): Option<(string, string)>
  {
    var (k, v) := SplitAt(E, '=', p);
    match v
    case None => None
    case Some(x) => Some((Unescape(E, k), Unescape(E, x)))
  }

  /** Reads comma-separated `key=value` pairs in order. */
  function ReadPairs(E: set<char>, s: string): Option<seq<(string, string)>>
    decreases |s|
  {
    if s == [] then Some([])
    else
      var (p, rest) := SplitAt(E, ',', s);
      match ReadPair(E, p)
      case None => None
      case Some(pair) =>
        match rest
        case None => Some([pair])
        case Some(r) =>
          match ReadPairs(E, r)
          case None => None
          case Some(ps) => Some([pair] + ps)
  }

  /** Reads the values of read pairs. */
  function ParseValues(ps: seq<(string, string)>): Option<seq<(string, Value)>>
  {
    if ps == [] then Some([])
    else
      match (ParseValue(ps[0].1), ParseValues(ps[1..]))
      case (Some(v), Some(vs)) => Some([(ps[0].0, v)] + vs)
      case _ => None
  }

  /** Reads a tag segment. */
  function ReadTags(s: string): Option<seq<(string, Value)>>
  {
    match ReadPairs(NameSpecials, s)
    case None => None
    case Some(ps) => ParseValues(ps)
  }

  predicate TagsReadable(tags: seq<(string, Value)>)
  {
    forall i :: 0 <= i < |tags| ==> NoTrailingBackslash(tags[i].0) && ValueReadable(tags[i].1)
  }

  /** One encoded tag is free of unescaped commas and spaces. */
  lemma TagTextFree(c: char, k: string, v: Value)
    requires c in {',', ' '}
    requires NoTrailingBackslash(k) && ValueReadable(v)
    ensures Free(NameSpecials, c, NameEscape(k) + "=" + NameEscape(AnyFormat(v)))
  {
    NameEscapeIsEscape(k);
    NameEscapeIsEscape(AnyFormat(v));
    AnyFormatShape(v);
    EscapeFree(NameSpecials, c, k);
    EscapeFree(NameSpecials, c, AnyFormat(v));
    FreeChar(NameSpecials, c, '=');
    FreeAppend(NameSpecials, c, NameEscape(k), "=");
    FreeAppend(NameSpecials, c, NameEscape(k) + "=", NameEscape(AnyFormat(v)));
  }

  /** One encoded tag reads back as its key and the `_any_format` token of its value. */
  lemma ReadTagText(k: string, v: Value)
    requires NoTrailingBackslash(k) && ValueReadable(v)
    ensures ReadPair(NameSpecials, NameEscape(k) + "=" + NameEscape(AnyFormat(v))) == Some((k, AnyFormat(v)))
  {
    NameEscapeIsEscape(k);
    EscapeFree(NameSpecials, '=', k);
    SplitAfterFree(NameSpecials, '=', NameEscape(k), NameEscape(AnyFormat(v)));
    NameEscapeSpec(k);
    NameEscapeSpec(AnyFormat(v));
  }

  /** The tag segment of `_line_protocol` reads back as the tags. */
  lemma {:induction false} ReadTagsText(tags: seq<(string, Value)>)
    requires TagsReadable(tags)
    ensures ReadTags(TagsText(tags)) == Some(tags)
    ensures Free(NameSpecials, ' ', TagsText(tags))
    decreases |tags|
  {
    if tags != [] {
      var k, v, rest := tags[0].0, tags[0].1, tags[1..];
      assert tags == [(k, v)] + rest;
      var p := NameEscape(k) + "=" + NameEscape(AnyFormat(v));
      DictFormatCons(k, v, rest, Some(NameEscape), Some(NameEscape));
      TagTextFree(',', k, v);
      TagTextFree(' ', k, v);
      ReadTagText(k, v);
      ParseAnyFormat(v);
      if rest == [] {
        assert TagsText(tags) == p;
        SplitFreeWhole(NameSpecials, ',', p);
        assert p != [];
        assert ReadPairs(NameSpecials, p) == Some([(k, AnyFormat(v))]);
        var ps := [(k, AnyFormat(v))];
        assert ps[1..] == [] && ps[0].1 == AnyFormat(v);
        assert ParseValues(ps[1..]) == Some([]);
        assert [(k, v)] + [] == [(k, v)];
        assert ParseValues(ps) == Some([(k, v)]);
      } else {
        ReadTagsText(rest);
        assert TagsText(tags) == p + [','] + TagsText(rest);
        SplitAfterFree(NameSpecials, ',', p, TagsText(rest));
        FreeChar(NameSpecials, ' ', ',');
        FreeAppend(NameSpecials, ' ', p, [',']);
        FreeAppend(NameSpecials, ' ', p + [','], TagsText(rest));
        ReadTagsRest(p, TagsText(rest));
      }
    }
  }

  /** Reading `p,rest` reads `p`'s pair, then the pairs of `rest`. */
  lemma ReadTagsRest(p: string, rest: string)
    requires SplitAt(NameSpecials, ',', p + [','] + rest) == (p, Some(rest))
    requires ReadPairs(NameSpecials, rest).Some?
    requires ReadPair(NameSpecials, p).Some?
    ensures ReadPairs(NameSpecials, p + [','] + rest)
            == Some([ReadPair(NameSpecials, p).value] + ReadPairs(NameSpecials, rest).value)
  {
  }

  // ----------------------------------------------------------------- fields

  /**
   * Reads the value token at the start of `s` (a quoted string up to its
   * unescaped closing quote, otherwise up to the next comma) and what follows
   * the comma after it.
   */
  function ReadFieldValue(s: string): (r: Option<(string, Option<string>)>)
    ensures r.Some? && r.value.1.Some? ==> |r.value.1.value| < |s|
  {
    if |s| > 0 && s[0] == '"' then
      var (inner, after) := SplitAt({'"'}, '"', s[1..]);
      match after
      case None => None
      case Some(a) =>
        if a == [] then Some(("\"" + inner + "\"", None))
        else if a[0] == ',' then Some(("\"" + inner + "\"", Some(a[1..])))
        else None
    else
      var (tok, after) := SplitAt({}, ',', s);
      Some((tok, after))
  }

  /** Reads a field segment: escaped keys, `=`, value tokens, comma-separated. */
  function ReadFields(s: string): Option<seq<(string, Value)>>
    decreases |s|
  {
    if s == [] then Some([])
    else
      var (ek, rest) := SplitAt(NameSpecials, '=', s);
      match rest
      case None => None
      case Some(r) =>
        match ReadFieldValue(r)
        case None => None
        case Some((tok, after)) =>
          match ParseValue(tok)
          case None => None
          case Some(v) =>
            var field := (Unescape(NameSpecials, ek), v);
            match after
            case None => Some([field])
            case Some(a) =>
              match ReadFields(a)
              case None => None
              case Some(fs) => Some([field] + fs)
  }

  /**
   * Fields a reader can take back: keys and string values do not end in a
   * backslash (the source escapes only the double quote inside strings, so a
   * final backslash would escape the closing quote).
   */
  predicate FieldsReadable(data: seq<(string, Value)>)
  {
    forall i :: 0 <= i < |data| ==>
      && NoTrailingBackslash(data[i].0)
      && ValueReadable(data[i].1)
      && (data[i].1.Str? ==> NoTrailingBackslash(data[i].1.s))
  }

  function Tail(after: Option<string>): string
  {
    match after
    case None => ""
    case Some(t) => "," + t
  }

  /** A quoted token whose inside is free of unescaped quotes reads back whole. */
  lemma ReadQuotedToken(q: string, after: Option<string>)
    requires Free({'"'}, '"', q)
    ensures ReadFieldValue(['"'] + q + ['"'] + Tail(after)) == Some((['"'] + q + ['"'], after))
  {
    var tail := Tail(after);
    var s := ['"'] + q + ['"'] + tail;
    assert s[1..] == q + ['"'] + tail;
    SplitAfterFree({'"'}, '"', q, tail);
    if after.Some? {
      assert tail[0] == ',' && tail[1..] == after.value;
    } else {
      assert tail == [];
    }
  }

  /** An unquoted token without commas reads back whole. */
  lemma ReadPlainToken(tok: string, after: Option<string>)
    requires tok != [] && tok[0] != '"' && ',' !in tok
    ensures ReadFieldValue(tok + Tail(after)) == Some((tok, after))
  {
    var s := tok + Tail(after);
    FreePlain(',', tok);
    assert s[0] == tok[0];
    if after.None? {
      assert s == tok;
      SplitFreeWhole({}, ',', tok);
    } else {
      assert s == tok + [','] + after.value;
      SplitAfterFree({}, ',', tok, after.value);
    }
  }

  /** A value token followed by the end or by a comma reads back as that token. */
  lemma ReadFieldValueOf(v: Value, after: Option<string>)
    requires ValueReadable(v) && (v.Str? ==> NoTrailingBackslash(v.s))
    ensures ReadFieldValue(AnyFormat(v) + Tail(after)) == Some((AnyFormat(v), after))
  {
    AnyFormatShape(v);
    if v.Str? {
      QuoteEscapeIsEscape(v.s);
      EscapeFree({'"'}, '"', v.s);
      assert AnyFormat(v) == ['"'] + QuoteEscape(v.s) + ['"'];
      ReadQuotedToken(QuoteEscape(v.s), after);
    } else {
      ReadPlainToken(AnyFormat(v), after);
    }
  }

  /** The field segment of `_line_protocol` reads back as the fields. */
  lemma {:induction false} ReadFieldsText(data: seq<(string, Value)>)
    requires FieldsReadable(data)
    ensures ReadFields(FieldsText(data)) == Some(data)
    decreases |data|
  {
    if data != [] {
      var k, v, rest := data[0].0, data[0].1, data[1..];
      assert data == [(k, v)] + rest;
      var after := if rest == [] then None else Some(FieldsText(rest));
      FieldsTextCons(k, v, rest);
      ReadFieldText(k, v, after);
      if rest != [] {
        ReadFieldsText(rest);
        assert ReadFields(FieldsText(data)) == Some([(k, v)] + rest);
      } else {
        assert data == [(k, v)];
      }
    }
  }

  /** The first `key=value` of a field segment, and the comma-led remainder. */
  lemma FieldsTextCons(k: string, v: Value, rest: seq<(string, Value)>)
    ensures FieldsText([(k, v)] + rest)
      == NameEscape(k) + "=" + (AnyFormat(v) + Tail(if rest == [] then None else Some(FieldsText(rest))))
  {
    DictFormatCons(k, v, rest, Some(NameEscape), None);
  }

  /** One escaped key, `=` and value token read back as that field, then the remainder is read. */
  lemma ReadFieldText(k: string, v: Value, after: Option<string>)
    requires NoTrailingBackslash(k) && ValueReadable(v) && (v.Str? ==> NoTrailingBackslash(v.s))
    ensures var text := NameEscape(k) + "=" + (AnyFormat(v) + Tail(after));
      && (after.None? ==> ReadFields(text) == Some([(k, v)]))
      && (after.Some? && ReadFields(after.value).Some? ==>
            ReadFields(text) == Some([(k, v)] + ReadFields(after.value).value))
  {
    var text := NameEscape(k) + "=" + (AnyFormat(v) + Tail(after));
    NameEscapeIsEscape(k);
    EscapeFree(NameSpecials, '=', k);
    SplitAfterFree(NameSpecials, '=', NameEscape(k), AnyFormat(v) + Tail(after));
    ReadFieldValueOf(v, after);
    ParseAnyFormat(v);
    NameEscapeSpec(k);
    assert text != [];
  }

  // ------------------------------------------------------------------- lines

  /** A line read back: measurement, tags, fields, timestamp in nanoseconds. */
  datatype Line = Line(measurement: string, tags: seq<(string, Value)>,
                       fields: seq<(string, Value)>, timestamp: int)

  /**
   * Reads a line: the measurement up to the first unescaped comma, the tags up
   * to the first unescaped space after it, the timestamp after the last space,
   * and the fields between them.
   */
  function ReadLine(s: string): Option<Line>
  {
    var (em, r1) := SplitAt(MeasurementSpecials, ',', s);
    match r1
    case None => None
    case Some(afterMeasurement) =>
      var (tagText, r2) := SplitAt(NameSpecials, ' ', afterMeasurement);
      match r2
      case None => None
      case Some(afterTags) =>
        match SplitLast(' ', afterTags)
        case None => None
        case Some((fieldText, tsText)) =>
          match (ReadTags(tagText), ReadFields(fieldText), ParseInt(tsText))
          case (Some(tags), Some(fields), Some(ts)) =>
            Some(Line(Unescape(MeasurementSpecials, em), tags, fields, ts))
          case _ => None
  }

  lemma IntTextChars(s: string)
    requires IntText(s)
    ensures ' ' !in s
  {
    if !AllDigits(s) {
      assert forall k :: 1 <= k < |s| ==> s[k] == s[1..][k - 1];
    }
  }

  /** A line assembled from free parts reads back part by part. */
  lemma ReadLineOf(em: string, tt: string, ft: string, tsText: string,
                   tags: seq<(string, Value)>, fields: seq<(string, Value)>, ts: int)
    requires Free(MeasurementSpecials, ',', em) && Free(NameSpecials, ' ', tt) && ' ' !in tsText
    requires ReadTags(tt) == Some(tags) && ReadFields(ft) == Some(fields) && ParseInt(tsText) == Some(ts)
    ensures ReadLine(em + [','] + (tt + [' '] + (ft + [' '] + tsText)))
            == Some(Line(Unescape(MeasurementSpecials, em), tags, fields, ts))
  {
    var afterTags := ft + [' '] + tsText;
    var afterMeasurement := tt + [' '] + afterTags;
    SplitAfterFree(MeasurementSpecials, ',', em, afterMeasurement);
    SplitAfterFree(NameSpecials, ' ', tt, afterTags);
    SplitLastAfter(' ', ft, tsText);
  }

  /** The four parts of a written line and the separators between them. */
  lemma LineProtocolParts(m: string, tags: seq<(string, Value)>, data: seq<(string, Value)>, ts: int)
    ensures LineProtocol(m, tags, data, ts)
            == MeasurementEscape(m) + [','] + (TagsText(tags) + [' ']
               + (FieldsText(data) + [' '] + IntToString(TimeFormat(ts))))
  {
    var a, b, c, d := MeasurementEscape(m), TagsText(tags), FieldsText(data), IntToString(TimeFormat(ts));
    assert LineProtocol(m, tags, data, ts) == a + [','] + b + [' '] + c + [' '] + d;
    ConcatAssoc(a + [','] + b + [' '], c + [' '], d);
    ConcatAssoc(a + [','] + b, [' '], c + [' '] + d);
    ConcatAssoc(a + [','], b, [' '] + (c + [' '] + d));
    ConcatAssoc(b, [' '], c + [' '] + d);
  }

  /**
   * `_line_protocol` writes a line that reads back as the measurement, the
   * tags and the fields it was given, in order, with the timestamp scaled
   * from seconds to nanoseconds.
   */
  lemma ReadLineProtocol(m: string, tags: seq<(string, Value)>, data: seq<(string, Value)>, ts: int)
    requires NoTrailingBackslash(m) && TagsReadable(tags) && FieldsReadable(data)
    ensures ReadLine(LineProtocol(m, tags, data, ts)) == Some(Line(m, tags, data, TimeFormat(ts)))
  {
    var tsText := IntToString(TimeFormat(ts));
    LineProtocolParts(m, tags, data, ts);
    MeasurementEscapeIsEscape(m);
    EscapeFree(MeasurementSpecials, ',', m);
    ReadTagsText(tags);
    IntToStringRoundTrip(TimeFormat(ts));
    IntTextChars(tsText);
    ReadFieldsText(data);
    MeasurementEscapeSpec(m);
    ReadLineOf(MeasurementEscape(m), TagsText(tags), FieldsText(data), tsText,
               tags, data, TimeFormat(ts));
  }
}
