/**
 * What the encoder promises: the chained replacements are single-pass
 * escapes, escaping is reversible and marks every special character, the
 * unit parser scales by its unit, and the layout of a line.
 */
module InfluxDBProps {
  import opened Wrappers
  import opened Text
  import opened Escaping
  import opened InfluxDB

  lemma ReplaceAppend(a: string, b: string, c: char, rep: string)
    ensures ReplaceChar(a + b, c, rep) == ReplaceChar(a, c, rep) + ReplaceChar(b, c, rep)
  {
    if a == [] {
      assert a + b == b;
    } else {
      assert (a + b)[1..] == a[1..] + b;
      ReplaceAppend(a[1..], b, c, rep);
    }
  }

  /**
   * Replacing `c` by a backslash and `c` in text already escaped for `E`
   * escapes it for `E + {c}`: the backslashes inserted earlier are not `c`.
   */
  lemma {:induction false} ReplaceAfterEscape(E: set<char>, c: char, s: string)
    requires c != '\\' && c !in E
    ensures ReplaceChar(Escape(E, s), c, ['\\', c]) == Escape(E + {c}, s)
    decreases |s|
  {
    if s != [] {
      var head := if s[0] in E then ['\\', s[0]] else [s[0]];
      assert Escape(E, s) == head + Escape(E, s[1..]);
      ReplaceAppend(head, Escape(E, s[1..]), c, ['\\', c]);
      ReplaceAfterEscape(E, c, s[1..]);
      if s[0] in E {
        assert ReplaceChar(head, c, ['\\', c]) == head;
      }
    }
  }

  /** `_name_escape`'s three replacements are one pass escaping `,` `=` and space. */
  lemma NameEscapeIsEscape(s: string)
    ensures NameEscape(s) == Escape(NameSpecials, s)
  {
    EscapeIdentity({}, s);
    ReplaceAfterEscape({}, ',', s);
    ReplaceAfterEscape({','}, '=', s);
    ReplaceAfterEscape({',', '='}, ' ', s);
    assert {} + {','} == {','};
    assert {','} + {'='} == {',', '='};
    assert {',', '='} + {' '} == NameSpecials;
  }

  /** `_measurement_escape`'s two replacements are one pass escaping `,` and space. */
  lemma MeasurementEscapeIsEscape(s: string)
    ensures MeasurementEscape(s) == Escape(MeasurementSpecials, s)
  {
    EscapeIdentity({}, s);
    ReplaceAfterEscape({}, ',', s);
    ReplaceAfterEscape({','}, ' ', s);
    assert {} + {','} == {','};
    assert {','} + {' '} == MeasurementSpecials;
  }

  /** The quoted body of a string value escapes exactly the double quote. */
  lemma QuoteEscapeIsEscape(s: string)
    ensures QuoteEscape(s) == Escape({'"'}, s)
  {
    EscapeIdentity({}, s);
    ReplaceAfterEscape({}, '"', s);
    assert {} + {'"'} == {'"'};
  }

  /**
   * `_name_escape`: every `,` `=` and space of the result carries a backslash,
   * removing those backslashes gives the input back, and input without those
   * characters is returned unchanged.
   */
  lemma NameEscapeSpec(s: string)
    ensures AllMarked(NameSpecials, NameEscape(s))
    ensures Unescape(NameSpecials, NameEscape(s)) == s
    ensures (forall i :: 0 <= i < |s| ==> s[i] !in NameSpecials) ==> NameEscape(s) == s
  {
    NameEscapeIsEscape(s);
    EscapeMarks(NameSpecials, s);
    UnescapeEscape(NameSpecials, s);
    if forall i :: 0 <= i < |s| ==> s[i] !in NameSpecials {
      EscapeIdentity(NameSpecials, s);
    }
  }

  /**
   * `_measurement_escape`: commas and spaces are escaped and reversible, and
   * an equals sign passes through: text free of comma and space, `=` or not,
   * is returned unchanged.
   */
  lemma MeasurementEscapeSpec(s: string)
    ensures AllMarked(MeasurementSpecials, MeasurementEscape(s))
    ensures Unescape(MeasurementSpecials, MeasurementEscape(s)) == s
    ensures (forall i :: 0 <= i < |s| ==> s[i] != ',' && s[i] != ' ') ==> MeasurementEscape(s) == s
  {
    MeasurementEscapeIsEscape(s);
    EscapeMarks(MeasurementSpecials, s);
    UnescapeEscape(MeasurementSpecials, s);
    if forall i :: 0 <= i < |s| ==> s[i] != ',' && s[i] != ' ' {
      EscapeIdentity(MeasurementSpecials, s);
    }
  }

  /**
   * `_any_format` on a string: the token starts and ends with a double quote,
   * and every double quote between them carries a backslash that unescaping
   * removes to give the string back.
   */
  lemma StrFormatSpec(s: string)
    ensures var r := AnyFormat(Str(s));
      && |r| >= 2 && r[0] == '"' && r[|r| - 1] == '"'
      && AllMarked({'"'}, r[1..|r| - 1])
      && Unescape({'"'}, r[1..|r| - 1]) == s
  {
    var r := AnyFormat(Str(s));
    assert r[1..|r| - 1] == QuoteEscape(s);
    QuoteEscapeIsEscape(s);
    EscapeMarks({'"'}, s);
    UnescapeEscape({'"'}, s);
  }

  /**
   * `_any_format` on an int: its decimal text, read back as the same int,
   * followed by exactly one `i`.
   */
  lemma IntFormatSpec(i: int)
    ensures var r := AnyFormat(Int(i));
      && |r| >= 2 && r[|r| - 1] == 'i' && r[|r| - 2] != 'i'
      && ParseInt(r[..|r| - 1]) == Some(i)
  {
    var r := AnyFormat(Int(i));
    IntToStringRoundTrip(i);
    assert r[..|r| - 1] == IntToString(i);
    assert IsDigit(r[|r| - 2]);
  }

  /** `_any_format` never gives a bool the token of an int or of a string. */
  lemma BoolFormatSpec(b: bool, i: int, s: string)
    ensures AnyFormat(Bool(b)) in {"T", "F"}
    ensures AnyFormat(Bool(b)) != AnyFormat(Int(i))
    ensures AnyFormat(Bool(b)) != AnyFormat(Str(s))
  {
  }

  /**
   * Backslashes are not escaped: the string `\"` is written as `"\\""`, in
   * which a reader that takes `\\` as one backslash sees an unescaped quote.
   */
  lemma BackslashQuoteFormat()
    ensures AnyFormat(Str(['\\', '"'])) == ['"', '\\', '\\', '"', '"']
  {
    assert QuoteEscape(['\\', '"']) == ['\\', '\\', '"'];
  }

  // ----------------------------------------------------------------- _remove_unit

  /**
   * A number and a unit separated by whitespace: the number comes back scaled
   * by 1000 for a unit starting with `k`, 1000000 for one starting with `m`
   * (either case), and unscaled otherwise.
   */
  lemma {:induction false} RemoveUnitReads(num: string, unit: string)
    requires |num| > 0 && NoSpace(num) && ParseDecimal(num).Some?
    requires |unit| > 0 && NoSpace(unit)
    ensures var x := ParseDecimal(num).value;
      RemoveUnit(num + " " + unit) ==
        Ok(if unit[0] in {'k', 'K'} then x * 1000.0
           else if unit[0] in {'m', 'M'} then x * 1000000.0
           else if unit[0] == '\U{212A}' then x * 1000.0
           else x)
  {
    SplitJoin([num, unit]);
    assert Join(" ", [num, unit]) == num + " " + unit;
  }

  /** Input that does not split into exactly two tokens is refused. */
  lemma RemoveUnitNeedsTwoTokens(s: string)
    requires |Split(s)| != 2
    ensures RemoveUnit(s) == Err(ValueError)
  {
  }

  lemma ParseTwelveAndAHalf()
    ensures ParseDecimal("12.5") == Some(12.5)
  {
    assert IndexOf("12.5", '.') == 2;
    assert "12.5"[..2] == "12" && "12.5"[3..] == "5";
    assert "12"[..1] == "1";
    assert DigitsValue("12") == 12;
  }

  lemma RemoveUnitKilo()
    ensures RemoveUnit("12.5 kH/s") == Ok(12500.0)
  {
    ParseTwelveAndAHalf();
    KiloTokens();
    assert UnitScale("kH/s") == 1000.0;
  }

  lemma KiloTokens()
    ensures Split("12.5 kH/s") == ["12.5", "kH/s"]
  {
    SplitJoin(["12.5", "kH/s"]);
    assert Join(" ", ["12.5", "kH/s"]) == "12.5 kH/s";
  }

  lemma RemoveUnitMega()
    ensures RemoveUnit("2 M") == Ok(2000000.0)
  {
    assert ParseDecimal("2") == Some(2.0);
    assert NoSpace("2") && NoSpace("M");
    RemoveUnitReads("2", "M");
    assert "2" + " " + "M" == "2 M";
  }

  lemma RemoveUnitMissingUnit()
    ensures RemoveUnit("7") == Err(ValueError)
  {
    SplitJoin(["7"]);
  }

  // ----------------------------------------------------- _dict_format, _line_protocol

  /** One entry gives one `key=value`; a further entry is comma-appended in order. */
  lemma {:induction false} DictFormatCons(k: string, v: Value, rest: seq<(string, Value)>,
                                          kc: Option<string -> string>, vc: Option<string -> string>)
    ensures DictFormat([(k, v)] + rest, kc, vc) ==
      Convert(kc, k) + "=" + Convert(vc, AnyFormat(v))
      + (if rest == [] then "" else "," + DictFormat(rest, kc, vc))
  {
    var head := Convert(kc, k) + "=" + Convert(vc, AnyFormat(v));
    PairTextsCons(k, v, rest, kc, vc);
    JoinHead(head, PairTexts(rest, kc, vc));
  }

  lemma {:induction false} PairTextsCons(k: string, v: Value, rest: seq<(string, Value)>,
                                         kc: Option<string -> string>, vc: Option<string -> string>)
    ensures PairTexts([(k, v)] + rest, kc, vc)
            == [Convert(kc, k) + "=" + Convert(vc, AnyFormat(v))] + PairTexts(rest, kc, vc)
  {
    var d := [(k, v)] + rest;
    assert d[0] == (k, v) && d[1..] == rest;
  }

  lemma JoinHead(head: string, parts: seq<string>)
    ensures Join(",", [head] + parts) == head + (if parts == [] then "" else "," + Join(",", parts))
  {
    if parts == [] {
      assert [head] + parts == [head];
      assert head + "" == head;
    } else {
      JoinCons(",", head, parts);
    }
  }

  /** Appending a zero digit multiplies by ten. */
  lemma NatToStringTimesTen(n: nat)
    requires n > 0
    ensures NatToString(n * 10) == NatToString(n) + "0"
  {
    assert (n * 10) / 10 == n && (n * 10) % 10 == 0;
  }

  lemma SecondInNanos()
    ensures IntToString(TimeFormat(1)) == "1000000000"
  {
    NatToStringTimesTen(1);
    NatToStringTimesTen(10);
    NatToStringTimesTen(100);
    NatToStringTimesTen(1000);
    NatToStringTimesTen(10000);
    NatToStringTimesTen(100000);
    NatToStringTimesTen(1000000);
    NatToStringTimesTen(10000000);
    NatToStringTimesTen(100000000);
  }

  lemma OneIntField()
    ensures FieldsText([("x", Int(1))]) == "x=1i"
  {
    DictFormatCons("x", Int(1), [], Some(NameEscape), None);
    assert IntToString(1) == "1";
  }

  lemma BareMeasurement()
    ensures MeasurementEscape("m") == "m"
  {
  }

  /**
   * `_line_protocol` writes the comma after the measurement even with no tags,
   * gives an int field its `i`, and multiplies the timestamp (seconds) by 10^9.
   */
  lemma LineWithoutTags()
    ensures LineProtocol("m", [], [("x", Int(1))], 1) == "m, x=1i 1000000000"
  {
    var body := MeasurementEscape("m") + "," + TagsText([]) + " " + FieldsText([("x", Int(1))]) + " ";
    var stamp := IntToString(TimeFormat(1));
    assert LineProtocol("m", [], [("x", Int(1))], 1) == body + stamp;
    LineWithoutTagsBody();
    SecondInNanos();
  }

  lemma LineWithoutTagsBody()
    ensures MeasurementEscape("m") + "," + TagsText([]) + " " + FieldsText([("x", Int(1))]) + " " == "m, x=1i "
  {
    OneIntField();
    BareMeasurement();
    assert TagsText([]) == "";
    assert MeasurementEscape("m") + "," + TagsText([]) + " " == "m, ";
  }
}
