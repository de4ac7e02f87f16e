/** The string operations the training script relies on: Python's `sub in s`,
    `s.split(c)[-1]`, `s.split(c)[0]`, `int(s)` and the decimal text of an
    integer in an f-string. */
module Strings {
  import opened Common

  // ---------------------------------------------------------------------------
  // Substring test (`sub in s`)

  /** `sub` occurs in `s` starting at index `i`. */
  predicate OccursAt(sub: string, s: string, i: int) {
    0 <= i && i + |sub| <= |s| && s[i..i + |sub|] == sub
  }

  /** Python's `sub in s`: `sub` occurs somewhere in `s`. The empty string
      occurs in every string. */
  predicate Contains(s: string, sub: string) {
    exists i :: 0 <= i <= |s| - |sub| && OccursAt(sub, s, i)
  }

  /** An occurrence at a known index makes `sub in s` true. */
  lemma OccurrenceFound(s: string, sub: string, i: int)
    requires OccursAt(sub, s, i)
    ensures Contains(s, sub)
  {
  }

  /** If the `k`-th character of `sub` appears nowhere in `s` from index `k`
      on, `sub` cannot occur in `s`: any occurrence at `i` would put that
      character at `i + k`. */
  lemma MissingCharacter(s: string, sub: string, k: nat)
    requires k < |sub| && k <= |s| && sub[k] !in s[k..]
    ensures !Contains(s, sub)
  {
  }

  // ---------------------------------------------------------------------------
  // `s.split(c)[-1]` and `s.split(c)[0]`

  /** The text after the last `c` in `s`, or all of `s` when `c` does not
      occur: Python's `s.split(c)[-1]`. */
  function AfterLast(s: string, c: char): (r: string)
    ensures c !in r
    ensures |r| <= |s| && r == s[|s| - |r|..]
    ensures |r| < |s| ==> s[|s| - |r| - 1] == c
    decreases |s|
  {
    if |s| == 0 then []
    else if s[|s| - 1] == c then []
    else AfterLast(s[..|s| - 1], c) + [s[|s| - 1]]
  }

  /** The text before the first `c` in `s`, or all of `s` when `c` does not
      occur: Python's `s.split(c)[0]`. */
  function BeforeFirst(s: string, c: char): (r: string)
    ensures c !in r
    ensures |r| <= |s| && r == s[..|r|]
    ensures |r| < |s| ==> s[|r|] == c
    decreases |s|
  {
    if |s| == 0 then []
    else if s[0] == c then []
    else [s[0]] + BeforeFirst(s[1..], c)
  }

  lemma {:induction false} AfterLastOfSeparated(x: string, c: char, y: string)
    requires c !in y
    ensures AfterLast(x + [c] + y, c) == y
    decreases |y|
  {
    var s := x + [c] + y;
    if |y| == 0 {
      assert s[|s| - 1] == c;
    } else {
      assert s[..|s| - 1] == x + [c] + y[..|y| - 1];
      AfterLastOfSeparated(x, c, y[..|y| - 1]);
      assert y == y[..|y| - 1] + [y[|y| - 1]];
    }
  }

  lemma {:induction false} BeforeFirstOfSeparated(y: string, c: char, z: string)
    requires c !in y
    ensures BeforeFirst(y + [c] + z, c) == y
    decreases |y|
  {
    var s := y + [c] + z;
    if |y| == 0 {
      assert s[0] == c;
    } else {
      assert s[1..] == y[1..] + [c] + z;
      BeforeFirstOfSeparated(y[1..], c, z);
      assert y == [y[0]] + y[1..];
    }
  }

  // ---------------------------------------------------------------------------
  // Decimal integers: `int(s)` and `f"{n}"`

  predicate IsDigit(c: char) {
    '0' <= c <= '9'
  }

  predicate AllDigits(d: string) {
    forall i :: 0 <= i < |d| ==> IsDigit(d[i])
  }

  function DigitChar(n: nat): (c: char)
    requires n < 10
    ensures IsDigit(c) && (c as int) - ('0' as int) == n
  {
    ('0' as int + n) as char
  }

  /** The value of a string of decimal digits, most significant first. */
  function DigitsValue(d: string): nat
    requires AllDigits(d)
    decreases |d|
  {
    if |d| == 0 then 0
    else 10 * DigitsValue(d[..|d| - 1]) + ((d[|d| - 1] as int) - ('0' as int))
  }

  /** Python's `int(s)` on a string: an optional sign followed by at least one
      decimal digit; anything else raises `ValueError`, modelled as `None`. */
  function ParseInt(s: string): (r: Option<int>)
    ensures r.Some? ==> |s| > 0
    ensures |s| > 0 && AllDigits(s) ==> r == Some(DigitsValue(s))
    ensures (|s| == 0 || (!AllDigits(s) && s[0] != '-' && s[0] != '+')) ==> r.None?
  {
    if |s| > 0 && (s[0] == '-' || s[0] == '+') then
      if |s| > 1 && AllDigits(s[1..]) then
        var v: int := DigitsValue(s[1..]);
        Some(if s[0] == '-' then -v else v)
      else None
    else if |s| > 0 && AllDigits(s) then Some(DigitsValue(s))
    else None
  }

  /** The shortest decimal text of `n`, as `str(n)` writes it. */
  function NatToDecimal(n: nat): (d: string)
    ensures |d| > 0 && AllDigits(d)
    decreases n
  {
    if n < 10 then [DigitChar(n)] else NatToDecimal(n / 10) + [DigitChar(n % 10)]
  }

  /** `str(i)` for an integer: a minus sign before the digits when negative. */
  function IntToDecimal(i: int): string {
    if i < 0 then "-" + NatToDecimal(-i) else NatToDecimal(i)
  }

  lemma {:induction false} DigitsValueOfNatToDecimal(n: nat)
    ensures DigitsValue(NatToDecimal(n)) == n
    decreases n
  {
    var d := NatToDecimal(n);
    if n >= 10 {
      DigitsValueOfNatToDecimal(n / 10);
      assert d[..|d| - 1] == NatToDecimal(n / 10);
    }
  }

  /** Reading back the decimal text of an integer gives the integer. */
  lemma ParseIntOfIntToDecimal(i: int)
    ensures ParseInt(IntToDecimal(i)) == Some(i)
  {
    if i < 0 {
      var d := NatToDecimal(-i);
      assert ("-" + d)[1..] == d;
      DigitsValueOfNatToDecimal(-i);
    } else {
      DigitsValueOfNatToDecimal(i);
    }
  }

  /** The decimal text of an integer holds no separator the key parser splits on. */
  lemma IntToDecimalHasNo(i: int, c: char)
    requires c == '_' || c == '.'
    ensures c !in IntToDecimal(i)
  {
  }
}
