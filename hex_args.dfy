/**
 * How a script argument becomes a number: strtol with base 16, as section
 * 7.22.1.4 of ISO C11 defines it, on a target whose long is 32 bits wide,
 * and then the conversion of that long to uint32_t.
 *
 * The scan works on indices into the argument text: where the white space
 * ends, where the optional sign and 0x prefix end, and where the run of hex
 * digits ends.
 */
module HexArgs {

  const LONG_MAX: int := 0x7FFF_FFFF
  const LONG_MIN: int := -0x8000_0000
  const U32: int := 0x1_0000_0000

  /** The characters isspace accepts in the "C" locale: space, \t, \n, \v, \f and \r. */
  predicate IsSpace(c: char)
  {
    c == ' ' || 9 <= c as int <= 13
  }

  predicate IsHexDigit(c: char)
  {
    '0' <= c <= '9' || 'a' <= c <= 'f' || 'A' <= c <= 'F'
  }

  predicate AllHex(s: string)
  {
    forall i | 0 <= i < |s| :: IsHexDigit(s[i])
  }

  /** s is empty or does not start with a hex digit. */
  predicate Stops(s: string)
  {
    |s| == 0 || !IsHexDigit(s[0])
  }

  /** The value of a hex digit, either case; 0 for any other character. */
  function DigitValue(c: char): (d: nat)
    ensures d < 16
  {
    if '0' <= c <= '9' then c as int - '0' as int
    else if 'a' <= c <= 'f' then c as int - 'a' as int + 10
    else if 'A' <= c <= 'F' then c as int - 'A' as int + 10
    else 0
  }

  /** The lower-case digit of a value below 16. */
  function Digit(d: nat): (c: char)
    requires d < 16
    ensures IsHexDigit(c) && DigitValue(c) == d
  {
    if d < 10 then ('0' as int + d) as char else ('a' as int + d - 10) as char
  }

  /** The first index from i on that does not hold white space. */
  function SpaceEnd(s: string, i: nat): (j: nat)
    requires i <= |s|
    ensures i <= j <= |s| && (j == |s| || !IsSpace(s[j]))
    ensures forall k | i <= k < j :: IsSpace(s[k])
    decreases |s| - i
  {
    if i < |s| && IsSpace(s[i]) then SpaceEnd(s, i + 1) else i
  }

  /** The first index from i on that does not hold a hex digit. */
  function RunEnd(s: string, i: nat): (j: nat)
    requires i <= |s|
    ensures i <= j <= |s| && (j == |s| || !IsHexDigit(s[j]))
    ensures forall k | i <= k < j :: IsHexDigit(s[k])
    decreases |s| - i
  {
    if i < |s| && IsHexDigit(s[i]) then RunEnd(s, i + 1) else i
  }

  /** The value of the numeral s[i..j], most significant digit first. */
  function ValueOf(s: string, i: nat, j: nat): nat
    requires i <= j <= |s|
    decreases j - i
  {
    if j == i then 0 else ValueOf(s, i, j - 1) * 16 + DigitValue(s[j - 1])
  }

  /** The index after the optional sign. */
  function SignEnd(s: string): (j: nat)
    ensures j <= |s|
  {
    var i := SpaceEnd(s, 0);
    if i < |s| && (s[i] == '-' || s[i] == '+') then i + 1 else i
  }

  /** The index the digits are read from: past a 0x or 0X that a hex digit follows. */
  function DigitsStart(s: string): (k: nat)
    ensures k <= |s|
  {
    var j := SignEnd(s);
    if j + 2 < |s| && s[j] == '0' && (s[j + 1] == 'x' || s[j + 1] == 'X') && IsHexDigit(s[j + 2])
    then j + 2 else j
  }

  predicate Negative(s: string)
  {
    var i := SpaceEnd(s, 0);
    i < |s| && s[i] == '-'
  }

  /** A value out of the range of long is replaced by the nearest bound (errno ERANGE). */
  function Clamp(x: int): (r: int)
    ensures LONG_MIN <= r <= LONG_MAX
    ensures LONG_MIN <= x <= LONG_MAX ==> r == x
  {
    if x > LONG_MAX then LONG_MAX else if x < LONG_MIN then LONG_MIN else x
  }

  /** strtol(s, &end, 16) with a 32-bit long; a text without digits gives 0. */
  function StrToL16(s: string): (r: int)
    ensures LONG_MIN <= r <= LONG_MAX
  {
    var k := DigitsStart(s);
    var magnitude: int := ValueOf(s, k, RunEnd(s, k));
    Clamp(if Negative(s) then -magnitude else magnitude)
  }

  /** The argument as the handlers hold it: the long converted to uint32_t, modulo 2^32. */
  function ParseArgument(s: string): (v: int)
    ensures 0 <= v < U32
  {
    StrToL16(s) % U32
  }

  function ArgumentWord(s: string): bv32
  {
    ParseArgument(s) as bv32
  }

  /** The lower-case hex numeral of v, without leading zeros. */
  function Hex(v: nat): (s: string)
    ensures |s| > 0 && AllHex(s)
    decreases v
  {
    if v < 16 then [Digit(v)] else Hex(v / 16) + [Digit(v % 16)]
  }

  // ---------------------------------------------------------------------

  /** d appears in s at index k. */
  predicate Occurs(d: string, s: string, k: nat)
  {
    k + |d| <= |s| && forall m | 0 <= m < |d| :: s[k + m] == d[m]
  }

  /** Hex(v) read back anywhere in a text is v. */
  lemma {:induction false} ValueOfHex(v: nat, s: string, k: nat)
    requires Occurs(Hex(v), s, k)
    ensures ValueOf(s, k, k + |Hex(v)|) == v
    decreases v
  {
    var h := Hex(v);
    if v >= 16 {
      var g := Hex(v / 16);
      assert h == g + [Digit(v % 16)];
      assert Occurs(g, s, k) by {
        forall m | 0 <= m < |g|
          ensures s[k + m] == g[m]
        {
          assert h[m] == g[m];
        }
      }
      ValueOfHex(v / 16, s, k);
      assert s[k + |h| - 1] == h[|h| - 1];
    } else {
      assert s[k] == h[0];
    }
  }

  /** The digit run of a numeral d at k that a non-digit or the end of s follows. */
  lemma {:induction false} RunEndOfDigits(d: string, s: string, k: nat)
    requires AllHex(d) && Occurs(d, s, k)
    requires k + |d| == |s| || !IsHexDigit(s[k + |d|])
    ensures RunEnd(s, k) == k + |d|
    decreases |d|
  {
    if |d| > 0 {
      assert s[k] == d[0];
      var e := d[1..];
      assert Occurs(e, s, k + 1) by {
        forall m | 0 <= m < |e|
          ensures s[k + 1 + m] == e[m]
        {
          assert s[k + (m + 1)] == d[m + 1];
        }
      }
      RunEndOfDigits(e, s, k + 1);
    }
  }

  lemma {:induction false} LeadingDigitNonZero(v: nat)
    requires v > 0
    ensures Hex(v)[0] != '0'
    decreases v
  {
    if v >= 16 {
      LeadingDigitNonZero(v / 16);
    }
  }

  /** The numeral Hex(v) at k, followed by t, is read as v. */
  lemma ReadHex(v: nat, t: string, s: string, k: nat)
    requires k <= |s| && Stops(t) && s == s[..k] + Hex(v) + t
    ensures RunEnd(s, k) == k + |Hex(v)| && ValueOf(s, k, RunEnd(s, k)) == v
  {
    var h := Hex(v);
    assert Occurs(h, s, k) by {
      forall m | 0 <= m < |h|
        ensures s[k + m] == h[m]
      {
        assert (s[..k] + h + t)[k + m] == h[m];
      }
    }
    if k + |h| < |s| {
      assert s[k + |h|] == t[0];
    }
    RunEndOfDigits(h, s, k);
    ValueOfHex(v, s, k);
  }

  /** strtol reads the numeral after "0x" up to the first non-digit. */
  lemma ParsePrefixed(v: nat, t: string)
    requires v <= LONG_MAX && Stops(t)
    ensures ParseArgument("0x" + Hex(v) + t) == v
  {
    var s := "0x" + Hex(v) + t;
    assert s[0] == '0' && s[1] == 'x' && s[2] == Hex(v)[0];
    assert SpaceEnd(s, 0) == 0;
    assert DigitsStart(s) == 2;
    assert s[..2] == "0x";
    ReadHex(v, t, s, 2);
  }

  /** A bare numeral with a value that fits in long reads back as that value. */
  lemma ParseBare(v: nat)
    requires v <= LONG_MAX
    ensures ParseArgument(Hex(v)) == v
  {
    var s := Hex(v);
    if v > 0 {
      LeadingDigitNonZero(v);
    }
    assert SpaceEnd(s, 0) == 0;
    assert DigitsStart(s) == 0;
    assert s == s[..0] + s + "";
    ReadHex(v, "", s, 0);
  }

  /** Values above LONG_MAX saturate: a uint32 argument of 0x80000000 or more cannot be written in plain hex. */
  lemma ParseSaturates(v: nat)
    requires LONG_MAX < v
    ensures ParseArgument("0x" + Hex(v)) == LONG_MAX
  {
    var s := "0x" + Hex(v);
    assert s[0] == '0' && s[1] == 'x' && s[2] == Hex(v)[0];
    assert SpaceEnd(s, 0) == 0;
    assert DigitsStart(s) == 2;
    assert s == s[..2] + Hex(v) + "";
    ReadHex(v, "", s, 2);
  }

  /** A minus sign negates, and the conversion to uint32_t wraps the result. */
  lemma ParseNegated(v: nat)
    requires 0 < v <= -LONG_MIN
    ensures ParseArgument("-" + Hex(v)) == U32 - v
  {
    var s := "-" + Hex(v);
    LeadingDigitNonZero(v);
    assert s[0] == '-' && s[1] == Hex(v)[0];
    assert SpaceEnd(s, 0) == 0;
    assert DigitsStart(s) == 1;
    assert s == s[..1] + Hex(v) + "";
    ReadHex(v, "", s, 1);
  }

  /** A text that contains no hex digit at all converts to 0. */
  lemma ParseNoDigits(s: string)
    requires forall i | 0 <= i < |s| :: !IsHexDigit(s[i])
    ensures ParseArgument(s) == 0
  {
    var k := DigitsStart(s);
    assert RunEnd(s, k) == k;
  }

  lemma {:induction false} SpaceEndShift(s: string, c: char, i: nat)
    requires IsSpace(c) && i <= |s|
    ensures SpaceEnd([c] + s, i + 1) == SpaceEnd(s, i) + 1
    decreases |s| - i
  {
    var u := [c] + s;
    if i < |s| {
      assert u[i + 1] == s[i];
      if IsSpace(s[i]) {
        SpaceEndShift(s, c, i + 1);
      }
    }
  }

  lemma {:induction false} RunEndShift(s: string, c: char, i: nat)
    requires i <= |s|
    ensures RunEnd([c] + s, i + 1) == RunEnd(s, i) + 1
    decreases |s| - i
  {
    var u := [c] + s;
    if i < |s| {
      assert u[i + 1] == s[i];
      if IsHexDigit(s[i]) {
        RunEndShift(s, c, i + 1);
      }
    }
  }

  lemma {:induction false} ValueOfShift(s: string, c: char, i: nat, j: nat)
    requires i <= j <= |s|
    ensures ValueOf([c] + s, i + 1, j + 1) == ValueOf(s, i, j)
    decreases j - i
  {
    if j > i {
      assert ([c] + s)[j] == s[j - 1];
      ValueOfShift(s, c, i, j - 1);
    }
  }

  /** Prefixing white space moves the sign and the digits one place right. */
  lemma ScanShift(c: char, s: string)
    requires IsSpace(c)
    ensures SpaceEnd([c] + s, 0) == SpaceEnd(s, 0) + 1
    ensures Negative([c] + s) == Negative(s)
    ensures SignEnd([c] + s) == SignEnd(s) + 1
  {
    var u := [c] + s;
    assert SpaceEnd(u, 0) == SpaceEnd(u, 1);
    SpaceEndShift(s, c, 0);
    var i := SpaceEnd(s, 0);
    if i < |s| {
      assert u[i + 1] == s[i];
    }
  }

  lemma DigitsStartShift(c: char, s: string)
    requires IsSpace(c)
    ensures DigitsStart([c] + s) == DigitsStart(s) + 1
  {
    var u := [c] + s;
    ScanShift(c, s);
    var j := SignEnd(s);
    if j + 2 < |s| {
      assert u[j + 1] == s[j] && u[j + 2] == s[j + 1] && u[j + 3] == s[j + 2];
    }
  }

  /** Leading white space is skipped. */
  lemma ParseSkipsSpace(c: char, s: string)
    requires IsSpace(c)
    ensures ParseArgument([c] + s) == ParseArgument(s)
  {
    ScanShift(c, s);
    DigitsStartShift(c, s);
    var k := DigitsStart(s);
    RunEndShift(s, c, k);
    ValueOfShift(s, c, k, RunEnd(s, k));
  }

  /** A single hex digit reads as its value. */
  lemma SingleDigit(c: char)
    requires IsHexDigit(c)
    ensures ParseArgument([c]) == DigitValue(c)
  {
    var s := [c];
    assert SpaceEnd(s, 0) == 0;
    assert DigitsStart(s) == 0;
    assert RunEnd(s, 0) == 1;
  }

  /** A minus sign before one non-zero digit gives 2^32 minus its value. */
  lemma NegatedDigit(c: char)
    requires IsHexDigit(c) && c != '0'
    ensures ParseArgument(['-', c]) == U32 - DigitValue(c)
  {
    var s := ['-', c];
    assert SpaceEnd(s, 0) == 0;
    assert DigitsStart(s) == 1;
    assert RunEnd(s, 1) == 2;
  }
}
