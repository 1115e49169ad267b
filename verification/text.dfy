/**
 * The string operations the adapter relies on: `Array.prototype.join`,
 * `String.prototype.split`, `lastIndexOf`/`substr`, decimal rendering of
 * integers (string concatenation of a number) and the numeric-string test
 * behind `!isNaN(s)` / `Number(s)`.
 */
module Text {
  import opened Optional

  predicate StartsWith(s: string, t: string)
  {
    |t| <= |s| && s[..|t|] == t
  }

  predicate EndsWith(s: string, t: string)
  {
    |t| <= |s| && s[|s| - |t|..] == t
  }

  lemma StartsWithConcat(a: string, b: string)
    ensures StartsWith(a + b, a)
  {
    assert (a + b)[..|a|] == a;
  }

  lemma EndsWithConcat(a: string, b: string)
    ensures EndsWith(a + b, b)
  {
    assert (a + b)[|a|..] == b;
  }

  /** What follows a prefix is the rest of the concatenation. */
  lemma AfterPrefix(a: string, b: string)
    ensures StartsWith(a + b, a) && (a + b)[|a|..] == b
  {
    assert (a + b)[..|a|] == a;
  }

  /** A nested concatenation starts with its first pieces. */
  lemma StartsWithPieces(a: string, b: string, c: string, d: string)
    ensures StartsWith((a + b) + (c + d), a)
    ensures StartsWith((a + b) + (c + d), a + b + c)
  {
    assert ((a + b) + (c + d))[..|a|] == a;
    assert ((a + b) + (c + d))[..|a + b + c|] == a + b + c;
  }

  lemma StartsWithTrans(s: string, t: string, u: string)
    requires StartsWith(s, t) && StartsWith(t, u)
    ensures StartsWith(s, u)
  {
    assert s[..|u|] == s[..|t|][..|u|];
  }

  /** A concatenation of six pieces starts with the first one. */
  lemma StartsWithFirst(a: string, b: string, c: string, d: string, e: string, f: string)
    ensures StartsWith(a + b + c + d + e + f, a)
  {
    assert (a + b + c + d + e + f)[..|a|] == a;
  }

  /** A right-nested concatenation ends with its last piece. */
  lemma EndsWithLast(a: string, b: string, c: string, d: string)
    ensures EndsWith(a + (b + (c + d)), d)
  {
    assert a + (b + (c + d)) == (a + b + c) + d;
    EndsWithConcat(a + b + c, d);
  }

  lemma NotStartsWith(s: string, t: string)
    requires |s| > 0 && |t| > 0 && s[0] != t[0]
    ensures !StartsWith(s, t)
  {
    assert |t| <= |s| ==> s[..|t|][0] == s[0];
  }

  /** Two texts whose `k`-th characters from the end differ do not end alike. */
  lemma NotEndsWith(x: string, y: string, t: string, k: nat)
    requires k < |y| && k < |t| && y[|y| - 1 - k] != t[|t| - 1 - k]
    ensures !EndsWith(x + y, t)
  {
    assert (x + y)[|x + y| - 1 - k] == y[|y| - 1 - k];
  }

  /** A right-nested concatenation ends with its last three pieces. */
  lemma EndsWithPieces(a: string, b: string, c: string, d: string, e: string)
    ensures EndsWith(a + (b + (c + (d + e))), c + d + e)
  {
    assert a + (b + (c + (d + e))) == (a + b) + (c + d + e);
    EndsWithConcat(a + b, c + d + e);
  }

  /** `parts.join(sep)` for a one-character separator. */
  function Join(parts: seq<string>, sep: char): string
  {
    if |parts| == 0 then ""
    else if |parts| == 1 then parts[0]
    else parts[0] + [sep] + Join(parts[1..], sep)
  }

  /** `s.split(sep)` for a one-character separator; as in JavaScript, "" splits to [""]. */
  function Split(s: string, sep: char): (parts: seq<string>)
    ensures |parts| >= 1
  {
    if |s| == 0 then [""]
    else
      var rest := Split(s[1..], sep);
      if s[0] == sep then [""] + rest
      else [[s[0]] + rest[0]] + rest[1..]
  }

  /** A piece without the separator does not split. */
  lemma {:induction false} SplitWithoutSeparator(s: string, sep: char)
    requires sep !in s
    ensures Split(s, sep) == [s]
  {
    if |s| > 0 {
      assert sep !in s[1..];
      SplitWithoutSeparator(s[1..], sep);
      assert [s[0]] + s[1..] == s;
    }
  }

  /** Splitting stops at the first separator. */
  lemma {:induction false} SplitAtFirst(x: string, sep: char, y: string)
    requires sep !in x
    ensures Split(x + [sep] + y, sep) == [x] + Split(y, sep)
  {
    if |x| == 0 {
      assert x + [sep] + y == [sep] + y;
      assert ([sep] + y)[1..] == y;
    } else {
      assert (x + [sep] + y)[1..] == x[1..] + [sep] + y;
      assert sep !in x[1..];
      SplitAtFirst(x[1..], sep, y);
      assert [x[0]] + x[1..] == x;
    }
  }

  /** Split undoes Join when no part contains the separator. */
  lemma {:induction false} SplitJoin(parts: seq<string>, sep: char)
    requires |parts| >= 1
    requires forall i :: 0 <= i < |parts| ==> sep !in parts[i]
    ensures Split(Join(parts, sep), sep) == parts
  {
    if |parts| == 1 {
      SplitWithoutSeparator(parts[0], sep);
    } else {
      SplitJoin(parts[1..], sep);
      SplitAtFirst(parts[0], sep, Join(parts[1..], sep));
      assert [parts[0]] + parts[1..] == parts;
    }
  }

  /** Every character of a joined string comes from a part or is the separator. */
  lemma {:induction false} JoinChars(parts: seq<string>, sep: char, c: char)
    requires c != sep
    requires forall i :: 0 <= i < |parts| ==> c !in parts[i]
    ensures c !in Join(parts, sep)
  {
    if |parts| > 1 {
      JoinChars(parts[1..], sep, c);
    }
  }

  /** `s.indexOf(c)`: the first position of `c`, or -1. */
  function IndexOf(s: string, c: char): (i: int)
    ensures -1 <= i < |s|
    ensures i >= 0 ==> s[i] == c
    ensures forall j :: 0 <= j < |s| && (i < 0 || j < i) ==> s[j] != c
  {
    if |s| == 0 then -1
    else if s[0] == c then 0
    else
      var k := IndexOf(s[1..], c);
      if k < 0 then -1 else k + 1
  }

  /** `s.lastIndexOf(c)`: the last position of `c`, or -1. */
  function LastIndexOf(s: string, c: char): (i: int)
    ensures -1 <= i < |s|
    ensures i >= 0 ==> s[i] == c
    ensures forall j :: i < j < |s| ==> s[j] != c
  {
    if |s| == 0 then -1
    else if s[|s| - 1] == c then |s| - 1
    else LastIndexOf(s[..|s| - 1], c)
  }

  /**
   * `s.substr(s.lastIndexOf('/') + 1)`: the text after the last slash, or
   * the whole string when it has none.
   */
  function LastSegment(s: string): (seg: string)
    ensures '/' !in seg
    ensures |seg| <= |s| && s[|s| - |seg|..] == seg
    ensures '/' !in s ==> seg == s
    ensures '/' in s ==> s[..|s| - |seg|] + seg == s && s[|s| - |seg| - 1] == '/'
  {
    var i := LastIndexOf(s, '/');
    LastSegmentFacts(s, i);
    s[i + 1..]
  }

  lemma LastSegmentFacts(s: string, i: int)
    requires -1 <= i < |s|
    requires i >= 0 ==> s[i] == '/'
    requires forall j :: i < j < |s| ==> s[j] != '/'
    ensures '/' !in s[i + 1..]
    ensures '/' !in s ==> i == -1
    ensures '/' in s ==> i >= 0
  {
    NoSlashAfter(s, i);
    if i >= 0 {
      assert s[i] == '/';
    } else {
      NoSlashAfter(s, -1);
      assert s[0..] == s;
    }
  }

  /** Past the last slash there is none. */
  lemma NoSlashAfter(s: string, i: int)
    requires -1 <= i < |s|
    requires forall j :: i < j < |s| ==> s[j] != '/'
    ensures '/' !in s[i + 1..]
  {
    var tail := s[i + 1..];
    forall j | 0 <= j < |tail|
      ensures tail[j] != '/'
    {
      assert tail[j] == s[i + 1 + j];
    }
  }

  // ---------------------------------------------------------------------
  // Decimal numbers

  predicate IsDigit(c: char)
  {
    '0' <= c <= '9'
  }

  predicate AllDigits(s: string)
  {
    forall i :: 0 <= i < |s| ==> IsDigit(s[i])
  }

  function DigitChar(d: nat): (c: char)
    requires d < 10
    ensures IsDigit(c)
  {
    ('0' as int + d) as char
  }

  /** Decimal rendering of a natural number, most significant digit first. */
  function NatText(n: nat): (s: string)
    ensures |s| >= 1 && AllDigits(s)
  {
    if n < 10 then [DigitChar(n)]
    else NatText(n / 10) + [DigitChar(n % 10)]
  }

  /** `'' + n` for an integer `n`. */
  function IntText(n: int): (s: string)
    ensures |s| >= 1
    ensures forall i :: 0 <= i < |s| ==> IsDigit(s[i]) || (i == 0 && s[i] == '-')
  {
    if n < 0 then "-" + NatText(-n) else NatText(n)
  }

  /** The value of a string of decimal digits ("" reads as 0). */
  function DigitsValue(s: string): nat
    requires AllDigits(s)
  {
    if |s| == 0 then 0
    else DigitsValue(s[..|s| - 1]) * 10 + (s[|s| - 1] as int - '0' as int)
  }

  /**
   * `Number(s)` for the strings for which `!isNaN(s)` holds: the empty
   * string (which JavaScript reads as 0), or an optional sign followed by
   * decimal digits. `None` is JavaScript's NaN.
   */
  function ParseNumber(s: string): (r: Option<int>)
    ensures r.Some? ==> AllDigits(s) || (|s| > 1 && AllDigits(s[1..]))
    ensures r.Some? ==> forall i :: 0 <= i < |s| ==> IsDigit(s[i]) || (i == 0 && (s[i] == '-' || s[i] == '+'))
    ensures AllDigits(s) ==> r == Some(DigitsValue(s))
    ensures |s| > 1 && (s[0] == '-' || s[0] == '+') && AllDigits(s[1..]) ==> r.Some? && (r.value < 0 ==> s[0] == '-')
    ensures |s| > 1 && (s[0] == '-' || s[0] == '+') && AllDigits(s[1..]) ==>
      r == Some(if s[0] == '-' then -(DigitsValue(s[1..]) as int) else DigitsValue(s[1..]) as int)
  {
    if |s| == 0 then Some(0)
    else if (s[0] == '-' || s[0] == '+') && |s| > 1 && AllDigits(s[1..]) then
      var magnitude: int := DigitsValue(s[1..]);
      Some(if s[0] == '-' then -magnitude else magnitude)
    else if AllDigits(s) then Some(DigitsValue(s))
    else None
  }

  lemma {:induction false} DigitsValueNatText(n: nat)
    ensures DigitsValue(NatText(n)) == n
  {
    var s := NatText(n);
    if n >= 10 {
      DigitsValueNatText(n / 10);
      assert s[..|s| - 1] == NatText(n / 10);
    }
  }

  /** Reading back a rendered integer gives the integer: the rendering is a numeric string. */
  lemma ParseIntText(n: int)
    ensures ParseNumber(IntText(n)) == Some(n)
  {
    DigitsValueNatText(if n < 0 then -n else n);
    if n < 0 {
      assert IntText(n)[1..] == NatText(-n);
    }
  }

  /** Distinct integers render to distinct strings. */
  lemma NatTextInjective(m: nat, n: nat)
    requires NatText(m) == NatText(n)
    ensures m == n
  {
    DigitsValueNatText(m);
    DigitsValueNatText(n);
  }

  lemma IntTextInjective(m: int, n: int)
    requires IntText(m) == IntText(n)
    ensures m == n
  {
    ParseIntText(m);
    ParseIntText(n);
  }
}
