/**
 * Backslash escaping as line protocol uses it, and the reading side of it:
 * a backslash followed by a character of the escape set `E` stands for that
 * character; any other backslash is an ordinary character.
 */
module Escaping {
  import opened Wrappers

  /** Every character of `E` gets a backslash in front of it; nothing else changes. */
  function Escape(E: set<char>, s: string): (r: string)
    ensures |r| >= |s|
    ensures s == [] <==> r == []
    ensures s != [] ==> r[|r| - 1] == s[|s| - 1]
  {
    if s == [] then []
    else (if s[0] in E then ['\\', s[0]] else [s[0]]) + Escape(E, s[1..])
  }

  /** Reverses `Escape`: a backslash followed by a character of `E` reads as that character. */
  function Unescape(E: set<char>, s: string): string
  {
    if s == [] then []
    else if s[0] == '\\' && |s| >= 2 && s[1] in E then [s[1]] + Unescape(E, s[2..])
    else [s[0]] + Unescape(E, s[1..])
  }

  /** Every character of `E` in `s` is directly preceded by a backslash. */
  predicate AllMarked(E: set<char>, s: string)
  {
    forall i :: 0 <= i < |s| && s[i] in E ==> i > 0 && s[i - 1] == '\\'
  }

  lemma EscapeFirst(E: set<char>, s: string)
    requires '\\' !in E && s != []
    ensures Escape(E, s)[0] !in E
  {
  }

  lemma {:induction false} EscapeAppend(E: set<char>, a: string, b: string)
    ensures Escape(E, a + b) == Escape(E, a) + Escape(E, b)
    decreases |a|
  {
    if a == [] {
      assert a + b == b;
    } else {
      var head := if a[0] in E then ['\\', a[0]] else [a[0]];
      assert (a + b)[0] == a[0] && (a + b)[1..] == a[1..] + b;
      EscapeAppend(E, a[1..], b);
      assert Escape(E, a + b) == head + Escape(E, a[1..] + b);
      assert Escape(E, a) == head + Escape(E, a[1..]);
      ConcatAssoc(head, Escape(E, a[1..]), Escape(E, b));
    }
  }

  lemma ConcatAssoc(x: string, y: string, z: string)
    ensures x + (y + z) == (x + y) + z
  {
  }

  /** Escaping is undone by unescaping, for every input. */
  lemma {:induction false} UnescapeEscape(E: set<char>, s: string)
    requires '\\' !in E
    ensures Unescape(E, Escape(E, s)) == s
  {
    if s != [] {
      var rest := Escape(E, s[1..]);
      UnescapeEscape(E, s[1..]);
      if s[0] in E {
        assert Escape(E, s) == ['\\', s[0]] + rest;
        assert (['\\', s[0]] + rest)[2..] == rest;
      } else {
        assert Escape(E, s) == [s[0]] + rest;
        if rest != [] { EscapeFirst(E, s[1..]); }
        assert ([s[0]] + rest)[1..] == rest;
      }
    }
  }

  /** In escaped text every character of `E` carries its backslash. */
  lemma {:induction false} EscapeMarks(E: set<char>, s: string)
    requires '\\' !in E
    ensures AllMarked(E, Escape(E, s))
  {
    if s != [] {
      EscapeMarks(E, s[1..]);
      var head := if s[0] in E then ['\\', s[0]] else [s[0]];
      var rest := Escape(E, s[1..]);
      assert Escape(E, s) == head + rest;
      forall i | 0 <= i < |head + rest| && (head + rest)[i] in E
        ensures i > 0 && (head + rest)[i - 1] == '\\'
      {
        if i >= |head| {
          assert (head + rest)[i] == rest[i - |head|];
          assert (head + rest)[i - 1] == rest[i - |head| - 1];
        }
      }
    }
  }

  /** Text without characters of `E` is left unchanged. */
  lemma {:induction false} EscapeIdentity(E: set<char>, s: string)
    requires forall i :: 0 <= i < |s| ==> s[i] !in E
    ensures Escape(E, s) == s
  {
    if s != [] {
      EscapeIdentity(E, s[1..]);
    }
  }

  // ------------------------------------------------------------------ reading

  /**
   * Reads `s` up to its first unescaped `c`: the text before it, and what
   * follows it (None when `s` holds no unescaped `c`).
   */
  function SplitAt(E: set<char>, c: char, s: string): (r: (string, Option<string>))
    ensures r.1.None? ==> r.0 == s
    ensures r.1.Some? ==> s == r.0 + [c] + r.1.value
    decreases |s|
  {
    if s == [] then ([], None)
    else if s[0] == '\\' && |s| >= 2 && s[1] in E then
      var (a, b) := SplitAt(E, c, s[2..]);
      (s[..2] + a, b)
    else if s[0] == c then ([], Some(s[1..]))
    else
      var (a, b) := SplitAt(E, c, s[1..]);
      ([s[0]] + a, b)
  }

  /**
   * `s` holds no unescaped `c`, and does not end in a lone backslash that would
   * escape a `c` written after it.
   */
  predicate Free(E: set<char>, c: char, s: string)
    decreases |s|
  {
    if s == [] then true
    else if s[0] == '\\' && |s| >= 2 && s[1] in E then Free(E, c, s[2..])
    else if s[0] == '\\' && |s| == 1 then c !in E
    else s[0] != c && Free(E, c, s[1..])
  }

  /** A reader finds the separator written right after free text. */
  lemma {:induction false} SplitAfterFree(E: set<char>, c: char, s: string, rest: string)
    requires c != '\\' && Free(E, c, s)
    ensures SplitAt(E, c, s + [c] + rest) == (s, Some(rest))
    decreases |s|
  {
    var t := s + [c] + rest;
    if s == [] {
      assert t == [c] + rest;
    } else if s[0] == '\\' && |s| >= 2 && s[1] in E {
      assert t[0] == s[0] && t[1] == s[1];
      assert t[..2] == s[..2] && t[2..] == s[2..] + [c] + rest;
      SplitAfterFree(E, c, s[2..], rest);
      assert SplitAt(E, c, t) == (s[..2] + s[2..], Some(rest));
      assert s[..2] + s[2..] == s;
    } else if s[0] == '\\' && |s| == 1 {
      assert s == ['\\'];
      assert t[0] == '\\' && t[1] == c && c !in E;
      assert t[1..] == [c] + rest;
      assert SplitAt(E, c, t[1..]) == ([], Some(rest));
      assert !(t[0] == '\\' && |t| >= 2 && t[1] in E) && t[0] != c;
      assert SplitAt(E, c, t) == ([t[0]] + [], Some(rest));
      assert [t[0]] + [] == s;
    } else {
      assert t[0] == s[0] && (|s| >= 2 ==> t[1] == s[1]);
      assert t[1..] == s[1..] + [c] + rest;
      SplitAfterFree(E, c, s[1..], rest);
      assert [s[0]] + s[1..] == s;
    }
  }

  /** A reader finds no separator in free text. */
  lemma {:induction false} SplitFreeWhole(E: set<char>, c: char, s: string)
    requires c != '\\' && Free(E, c, s)
    ensures SplitAt(E, c, s) == (s, None)
    decreases |s|
  {
    if s == [] {
    } else if s[0] == '\\' && |s| >= 2 && s[1] in E {
      SplitFreeWhole(E, c, s[2..]);
      assert s[..2] + s[2..] == s;
    } else {
      SplitFreeWhole(E, c, s[1..]);
    }
  }

  lemma {:induction false} FreeAppend(E: set<char>, c: char, a: string, b: string)
    requires c in E && Free(E, c, a) && Free(E, c, b)
    ensures Free(E, c, a + b)
    decreases |a|
  {
    if a == [] {
      assert a + b == b;
    } else if a[0] == '\\' && |a| >= 2 && a[1] in E {
      assert (a + b)[2..] == a[2..] + b;
      FreeAppend(E, c, a[2..], b);
    } else {
      assert (a + b)[0] == a[0] && (|a| >= 2 ==> (a + b)[1] == a[1]);
      assert (a + b)[1..] == a[1..] + b;
      FreeAppend(E, c, a[1..], b);
    }
  }

  lemma FreeChar(E: set<char>, c: char, x: char)
    requires x != c && x != '\\'
    ensures Free(E, c, [x])
  {
  }

  /** Escaped text that does not end in a backslash is free of every escaped character. */
  lemma {:induction false} EscapeFree(E: set<char>, c: char, s: string)
    requires '\\' !in E && c in E
    requires s == [] || s[|s| - 1] != '\\'
    ensures Free(E, c, Escape(E, s))
    decreases |s|
  {
    if s != [] {
      var rest := Escape(E, s[1..]);
      EscapeFree(E, c, s[1..]);
      if s[0] in E {
        assert Escape(E, s) == ['\\', s[0]] + rest;
        assert (['\\', s[0]] + rest)[2..] == rest;
      } else {
        assert Escape(E, s) == [s[0]] + rest;
        if rest != [] { EscapeFirst(E, s[1..]); }
        assert ([s[0]] + rest)[1..] == rest;
      }
    }
  }

  /** With nothing escaped, unescaping changes nothing. */
  lemma {:induction false} UnescapePlain(s: string)
    ensures Unescape({}, s) == s
  {
    if s != [] {
      UnescapePlain(s[1..]);
    }
  }

  /** Without escape characters, free means the separator does not occur. */
  lemma {:induction false} FreePlain(c: char, s: string)
    requires c !in s
    ensures Free({}, c, s)
  {
    if s != [] {
      FreePlain(c, s[1..]);
    }
  }

  /**
   * Reads `s` up to its LAST `c` (no escapes): the part before it and the
   * part after it.
   */
  function SplitLast(c: char, s: string): (r: Option<(string, string)>)
    ensures r.Some? ==> s == r.value.0 + [c] + r.value.1 && c !in r.value.1
    decreases |s|
  {
    if s == [] then None
    else if s[|s| - 1] == c then Some((s[..|s| - 1], []))
    else
      match SplitLast(c, s[..|s| - 1])
      case None => None
      case Some((a, b)) => Some((a, b + [s[|s| - 1]]))
  }

  lemma {:induction false} SplitLastAfter(c: char, a: string, t: string)
    requires c !in t
    ensures SplitLast(c, a + [c] + t) == Some((a, t))
    decreases |t|
  {
    var s := a + [c] + t;
    if t == [] {
      assert s[..|s| - 1] == a;
    } else {
      var u := t[..|t| - 1];
      assert s[..|s| - 1] == a + [c] + u;
      SplitLastAfter(c, a, u);
      assert u + [t[|t| - 1]] == t;
    }
  }
}
