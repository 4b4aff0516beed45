/** Character and string helpers shared by the desktop controller (Python
    `str` methods) and the two firmwares (Arduino `String` methods).
    Only ASCII is given special treatment: upper-casing and whitespace are
    defined over the ASCII range and leave every other character alone. */
module Text {

  /** Python's `str.upper()` restricted to ASCII letters. */
  function UpperChar(c: char): char {
    if 'a' <= c <= 'z' then (c as int - 32) as char else c
  }

  function Upper(s: string): (r: string)
    ensures |r| == |s|
  {
    seq(|s|, i requires 0 <= i < |s| => UpperChar(s[i]))
  }

  /** `s.startswith(p)` */
  predicate StartsWith(s: string, p: string) {
    |p| <= |s| && s[..|p|] == p
  }

  /** `s.endswith(p)` */
  predicate EndsWith(s: string, p: string) {
    |p| <= |s| && s[|s| - |p|..] == p
  }

  /** `t` occurs in `s` starting at position `i`. */
  predicate OccursAt(s: string, t: string, i: int) {
    0 <= i && i + |t| <= |s| && s[i..i + |t|] == t
  }

  /** Python's `t in s`, computed by a left-to-right scan. */
  function Contains(s: string, t: string): (r: bool)
    ensures r <==> exists i :: OccursAt(s, t, i)
    decreases |s|
  {
    if |t| > |s| then false
    else if s[..|t|] == t then
      assert OccursAt(s, t, 0);
      true
    else
      var rest := Contains(s[1..], t);
      if rest then
        var i :| OccursAt(s[1..], t, i);
        assert OccursAt(s, t, i + 1) by {
          assert s[i + 1..i + 1 + |t|] == s[1..][i..i + |t|];
        }
        true
      else
        assert !OccursAt(s, t, 0);
        forall i | 0 < i && OccursAt(s, t, i) ensures OccursAt(s[1..], t, i - 1) {
          assert s[1..][i - 1..i - 1 + |t|] == s[i..i + |t|];
        }
        false
  }

  /** Whitespace removed by Python's argument-less `str.strip()`, ASCII part. */
  const PY_WHITESPACE: set<char> :=
    {' ', '\t', '\n', '\r', '\U{0B}', '\U{0C}', '\U{1C}', '\U{1D}', '\U{1E}', '\U{1F}'}

  /** Whitespace removed by Arduino's `String::trim()` (C `isspace`). */
  const C_WHITESPACE: set<char> := {' ', '\t', '\n', '\r', '\U{0B}', '\U{0C}'}

  function TrimLeft(s: string, ws: set<char>): (r: string)
    ensures |r| <= |s| && r == s[|s| - |r|..]
    ensures forall i :: 0 <= i < |s| - |r| ==> s[i] in ws
    ensures r != [] ==> r[0] !in ws
  {
    if s != [] && s[0] in ws then TrimLeft(s[1..], ws) else s
  }

  function TrimRight(s: string, ws: set<char>): (r: string)
    ensures |r| <= |s| && r == s[..|r|]
    ensures forall i :: |r| <= i < |s| ==> s[i] in ws
    ensures r != [] ==> r[|r| - 1] !in ws
  {
    if s != [] && s[|s| - 1] in ws then TrimRight(s[..|s| - 1], ws) else s
  }

  /** `r` is `s[i..i + |r|]` and everything around it belongs to `ws`. */
  ghost predicate TrimmedAt(s: string, r: string, i: int, ws: set<char>) {
    && 0 <= i && i + |r| <= |s| && r == s[i..i + |r|]
    && (forall k :: 0 <= k < i ==> s[k] in ws)
    && (forall k :: i + |r| <= k < |s| ==> s[k] in ws)
  }

  /** Both ends stripped of the characters in `ws`: the result neither
      starts nor ends with one of them (`TrimIsTrimmedAt` places it in `s`). */
  function Trim(s: string, ws: set<char>): (r: string)
    ensures r != [] ==> r[0] !in ws && r[|r| - 1] !in ws
  {
    TrimRight(TrimLeft(s, ws), ws)
  }

  /** The trimmed text is an infix of `s`, and everything cut off on either
      side belongs to `ws`. */
  lemma TrimIsTrimmedAt(s: string, ws: set<char>)
    ensures exists i :: TrimmedAt(s, Trim(s, ws), i, ws)
  {
    var left := TrimLeft(s, ws);
    assert TrimmedAt(s, Trim(s, ws), |s| - |left|, ws);
  }

  /** Text that neither starts nor ends with a character of `ws` is its
      own trim. */
  lemma TrimUntouched(s: string, ws: set<char>)
    requires s != [] && s[0] !in ws && s[|s| - 1] !in ws
    ensures Trim(s, ws) == s
  {
  }

  /** Text that does not start with a character of `ws` is its own left
      trim. */
  lemma TrimLeftStops(s: string, ws: set<char>)
    requires s != [] && s[0] !in ws
    ensures TrimLeft(s, ws) == s
  {
  }

  /** A leading character of `ws` is cut off. */
  lemma TrimLeftSkips(s: string, ws: set<char>)
    requires s != [] && s[0] in ws
    ensures TrimLeft(s, ws) == TrimLeft(s[1..], ws)
  {
  }

  /** Python `s.strip()`. */
  function PyStrip(s: string): string {
    Trim(s, PY_WHITESPACE)
  }

  /** Arduino `String::trim()`. */
  function ArduinoTrim(s: string): string {
    Trim(s, C_WHITESPACE)
  }

  /** Arduino `String::equalsIgnoreCase`, over ASCII letters. */
  predicate EqualsIgnoreCase(a: string, b: string) {
    Upper(a) == Upper(b)
  }

  /** `sep.join(parts)` */
  function Join(parts: seq<string>, sep: string): string {
    if parts == [] then ""
    else if |parts| == 1 then parts[0]
    else parts[0] + sep + Join(parts[1..], sep)
  }

  /** Appending a part extends the joined text by one separator and the part. */
  lemma {:induction false} JoinSnoc(parts: seq<string>, part: string, sep: string)
    ensures Join(parts + [part], sep) == if parts == [] then part else Join(parts, sep) + sep + part
  {
    if |parts| == 1 {
      assert parts + [part] == [parts[0], part];
    } else if |parts| > 1 {
      assert (parts + [part])[1..] == parts[1..] + [part];
      JoinSnoc(parts[1..], part, sep);
    }
  }

  /** Python `s.split(sep, 1)[0]`: the part of `s` before the first
      occurrence of `sep`, or all of `s` when there is none. */
  function BeforeFirst(s: string, sep: string): (r: string)
    requires sep != []
    ensures |r| <= |s| && r == s[..|r|]
    ensures |r| < |s| ==> OccursAt(s, sep, |r|)
    ensures forall i :: 0 <= i < |r| ==> !OccursAt(s, sep, i)
    decreases |s|
  {
    if StartsWith(s, sep) then ""
    else if s == [] then s
    else
      var rest := BeforeFirst(s[1..], sep);
      var r := [s[0]] + rest;
      assert forall i :: 0 <= i < |r| ==> !OccursAt(s, sep, i) by {
        forall i | 0 < i <= |rest| ensures !OccursAt(s, sep, i) {
          assert !OccursAt(s[1..], sep, i - 1);
          if i + |sep| <= |s| {
            assert s[i..i + |sep|] == s[1..][i - 1..i - 1 + |sep|];
          }
        }
      }
      assert |r| < |s| ==> OccursAt(s, sep, |r|) by {
        if |r| < |s| {
          assert OccursAt(s[1..], sep, |rest|);
          assert s[|r|..|r| + |sep|] == s[1..][|rest|..|rest| + |sep|];
        }
      }
      r
  }

  /** The text before a separator placed after a separator-free prefix is
      that prefix. */
  lemma {:induction false} BeforeFirstOfJoin(a: string, sep: string, b: string)
    requires sep != []
    requires forall i :: 0 <= i < |a| ==> !OccursAt(a + sep + b, sep, i)
    ensures BeforeFirst(a + sep + b, sep) == a
  {
    var s := a + sep + b;
    var r := BeforeFirst(s, sep);
    assert OccursAt(s, sep, |a|) by { assert s[|a|..|a| + |sep|] == sep; }
    assert |r| == |a|;
    assert s[..|a|] == a;
  }
}
