/**
 * String helpers shared by the model: decimal rendering of numbers (the
 * `${id}` of a template literal and `Number(...)` of a route parameter),
 * splitting on a separator, and substring search (`String.prototype.includes`).
 */
module Text {
  import opened Wrappers

  predicate IsDigit(c: char) {
    '0' <= c <= '9'
  }

  predicate AllDigits(s: string) {
    forall i :: 0 <= i < |s| ==> IsDigit(s[i])
  }

  function DigitChar(d: nat): (c: char)
    requires d < 10
    ensures IsDigit(c)
  {
    ('0' as int + d) as char
  }

  function DigitValue(c: char): (d: nat)
    requires IsDigit(c)
    ensures d < 10
  {
    c as int - '0' as int
  }

  /** Decimal rendering of a natural number, as JavaScript prints an integer. */
  function NatToString(n: nat): (s: string)
    ensures |s| >= 1
    ensures AllDigits(s)
  {
    if n < 10 then [DigitChar(n)] else NatToString(n / 10) + [DigitChar(n % 10)]
  }

  /** The value of a non-empty string of decimal digits (leading zeros allowed). */
  function DigitsValue(s: string): nat
    requires AllDigits(s)
  {
    if |s| == 0 then 0 else DigitsValue(s[..|s| - 1]) * 10 + DigitValue(s[|s| - 1])
  }

  /**
   * `Number(s)` restricted to plain decimal strings: `Some(n)` for a non-empty
   * string of digits, `None` for anything else.
   */
  function ParseDecimal(s: string): (r: Option<nat>)
    ensures r.Some? <==> |s| > 0 && AllDigits(s)
  {
    if |s| > 0 && AllDigits(s) then Some(DigitsValue(s)) else None
  }

  /** Reading back a rendered number gives the number. */
  lemma {:induction false} ParseRendered(n: nat)
    ensures ParseDecimal(NatToString(n)) == Some(n)
  {
    var s := NatToString(n);
    if n < 10 {
      assert s[..0] == [];
      assert DigitsValue(s) == DigitsValue(s[..0]) * 10 + DigitValue(s[0]);
    } else {
      ParseRendered(n / 10);
      assert s[..|s| - 1] == NatToString(n / 10);
      assert DigitValue(s[|s| - 1]) == n % 10;
    }
  }

  /** Distinct numbers render to distinct strings. */
  lemma RenderInjective(m: nat, n: nat)
    requires NatToString(m) == NatToString(n)
    ensures m == n
  {
    ParseRendered(m);
    ParseRendered(n);
  }

  /** `s.split(sep)`: the pieces between separators, always at least one. */
  function Split(s: string, sep: char): (parts: seq<string>)
    ensures |parts| >= 1
  {
    if |s| == 0 then [""]
    else if s[0] == sep then [""] + Split(s[1..], sep)
    else
      var rest := Split(s[1..], sep);
      [[s[0]] + rest[0]] + rest[1..]
  }

  lemma {:induction false} SplitWithoutSeparator(a: string, sep: char)
    requires sep !in a
    ensures Split(a, sep) == [a]
  {
    if |a| > 0 {
      SplitWithoutSeparator(a[1..], sep);
      assert [a[0]] + a[1..] == a;
    }
  }

  /** Splitting `a + sep + b` where `a` has no separator yields `a` and then the pieces of `b`. */
  lemma {:induction false} SplitAfterPiece(a: string, sep: char, b: string)
    requires sep !in a
    ensures Split(a + [sep] + b, sep) == [a] + Split(b, sep)
  {
    if |a| == 0 {
      assert a + [sep] + b == [sep] + b;
      assert ([sep] + b)[1..] == b;
    } else {
      SplitAfterPiece(a[1..], sep, b);
      assert (a + [sep] + b)[1..] == a[1..] + [sep] + b;
      assert [a[0]] + a[1..] == a;
    }
  }

  predicate OccursAt(s: string, sub: string, i: int) {
    0 <= i && i + |sub| <= |s| && s[i..i + |sub|] == sub
  }

  /** An absolute path: each segment preceded by '/', as a template literal `/${a}/${b}` builds it. */
  function Path(segments: seq<string>): string {
    if |segments| == 0 then "" else "/" + segments[0] + Path(segments[1..])
  }

  /** A four-segment path is its segments, each after a '/'. */
  lemma PathOfFour(a: string, b: string, c: string, d: string)
    ensures Path([a, b, c, d]) == "/" + a + "/" + b + "/" + c + "/" + d
  {
    var slash := "/";
    assert [a, b, c, d][1..] == [b, c, d];
    assert [b, c, d][1..] == [c, d];
    assert [c, d][1..] == [d];
    assert Path([d]) == slash + d;
    assert Path([c, d]) == slash + c + (slash + d);
    assert slash + c + (slash + d) == slash + c + slash + d;
    assert Path([b, c, d]) == slash + b + (slash + c + slash + d);
    assert slash + b + (slash + c + slash + d) == slash + b + slash + c + slash + d;
    assert Path([a, b, c, d]) == slash + a + (slash + b + slash + c + slash + d);
    assert slash + a + (slash + b + slash + c + slash + d) == slash + a + slash + b + slash + c + slash + d;
  }

  predicate NoSlash(segments: seq<string>) {
    forall i | 0 <= i < |segments| :: '/' !in segments[i]
  }

  lemma {:induction false} SplitPieceThenPath(a: string, segments: seq<string>)
    requires '/' !in a && NoSlash(segments)
    ensures Split(a + Path(segments), '/') == [a] + segments
    decreases |segments|
  {
    if |segments| == 0 {
      assert a + Path(segments) == a;
      SplitWithoutSeparator(a, '/');
    } else {
      assert a + Path(segments) == a + ['/'] + (segments[0] + Path(segments[1..]));
      SplitAfterPiece(a, '/', segments[0] + Path(segments[1..]));
      SplitPieceThenPath(segments[0], segments[1..]);
      assert [segments[0]] + segments[1..] == segments;
    }
  }

  /** Splitting a path at '/' gives back its segments after a leading empty piece. */
  lemma SplitPath(segments: seq<string>)
    requires NoSlash(segments)
    ensures Split(Path(segments), '/') == [""] + segments
  {
    assert Path(segments) == "" + Path(segments);
    SplitPieceThenPath("", segments);
  }

  lemma RenderedHasNoSlash(n: nat)
    ensures '/' !in NatToString(n)
  {
    var s := NatToString(n);
    assert forall i :: 0 <= i < |s| ==> s[i] != '/';
  }

  /** `s.includes(sub)`. */
  predicate Includes(s: string, sub: string) {
    exists i | 0 <= i <= |s| :: OccursAt(s, sub, i)
  }

  /** Every character of a contained substring occurs in the string. */
  lemma IncludesCharacter(s: string, sub: string, k: nat)
    requires Includes(s, sub) && k < |sub|
    ensures sub[k] in s
  {
    var i :| 0 <= i <= |s| && OccursAt(s, sub, i);
    assert s[i..i + |sub|][k] == s[i + k];
  }
}
