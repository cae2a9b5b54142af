/**
 * `formatTime`: milliseconds shown as `mm:ss` through `String.format("%02d:%02d", ...)`.
 * AnalysisActivity, HomeFragment and AudioRecorderActivity each carry an identical copy;
 * the model defines it once.
 */
module ClockFormat {
  import opened Wrappers

  /** Kotlin's `/` for a positive divisor: the quotient rounded toward zero. */
  function Quot(a: int, b: int): (q: int)
    requires b > 0
    ensures a >= 0 ==> q == a / b
    ensures a < 0 ==> q == -((-a) / b)
  {
    if a >= 0 then a / b else -((-a) / b)
  }

  /** Kotlin's `%` for a positive divisor: the remainder takes the sign of `a`. */
  function Rem(a: int, b: int): (r: int)
    requires b > 0
    ensures a == b * Quot(a, b) + r
    ensures a >= 0 ==> r == a % b
  {
    a - b * Quot(a, b)
  }

  function DigitChar(d: nat): (c: char)
    requires d < 10
    ensures '0' <= c <= '9' && c as int - '0' as int == d
  {
    ('0' as int + d) as char
  }

  predicate IsDigits(s: string) {
    forall i :: 0 <= i < |s| ==> '0' <= s[i] <= '9'
  }

  /** The decimal numeral of `n`, without leading zeros. */
  function Decimal(n: nat): (r: string)
    ensures |r| >= 1 && IsDigits(r)
    ensures n >= 10 ==> r[0] != '0'
    ensures n < 10 <==> |r| == 1
  {
    if n < 10 then [DigitChar(n)] else Decimal(n / 10) + [DigitChar(n % 10)]
  }

  /** The value of a string of decimal digits. */
  function ParseDecimal(s: string): nat
    requires IsDigits(s)
  {
    if s == [] then 0
    else ParseDecimal(s[..|s| - 1]) * 10 + (s[|s| - 1] as int - '0' as int)
  }

  lemma {:induction false} DecimalRoundTrip(n: nat)
    ensures ParseDecimal(Decimal(n)) == n
  {
    if n >= 10 {
      var d := Decimal(n / 10);
      var c := DigitChar(n % 10);
      assert (d + [c])[..|d|] == d;
      DecimalRoundTrip(n / 10);
    }
  }

  /** Kotlin's `toString()` of an integer: an optional minus sign, then the decimal numeral. */
  function Numeral(n: int): (s: string)
    ensures |s| >= 1
  {
    if n >= 0 then Decimal(n) else "-" + Decimal(-n)
  }

  /** The numeral is digits, after a minus sign for a negative number, that read back as the number. */
  lemma NumeralRoundTrip(n: int)
    ensures n >= 0 ==> IsDigits(Numeral(n)) && ParseDecimal(Numeral(n)) == n
    ensures n < 0 ==> |Numeral(n)| >= 2 && Numeral(n)[0] == '-' && IsDigits(Numeral(n)[1..])
                      && ParseDecimal(Numeral(n)[1..]) == -n
  {
    DecimalRoundTrip(if n >= 0 then n else -n);
    if n < 0 {
      assert Numeral(n)[1..] == Decimal(-n);
    }
  }

  const MinLong: int := -0x8000_0000_0000_0000
  const MaxLong: int := 0x7FFF_FFFF_FFFF_FFFF

  function InLongRange(v: int): (r: Option<int>)
    ensures r.Some? <==> MinLong <= v <= MaxLong
    ensures r.Some? ==> r.value == v
  {
    if MinLong <= v <= MaxLong then Some(v) else None
  }

  /**
   * `String.toLong()`: an optional sign and at least one decimal digit, within the 64-bit
   * range; `None` where it throws NumberFormatException.
   */
  function ParseLong(s: string): (r: Option<int>)
    ensures r.Some? ==> MinLong <= r.value <= MaxLong
    ensures s == [] ==> r.None?
    // only a sign-less, a '+' or a '-' run of digits is accepted
    ensures r.Some? ==> (|s| >= 1 && IsDigits(s)) || (|s| >= 2 && (s[0] == '-' || s[0] == '+') && IsDigits(s[1..]))
    // each such run reads as its value when that fits, and fails when it does not
    ensures |s| >= 1 && IsDigits(s) ==>
              r == (if ParseDecimal(s) <= MaxLong then Some(ParseDecimal(s) as int) else None)
    ensures |s| >= 2 && s[0] == '+' && IsDigits(s[1..]) ==>
              r == (if ParseDecimal(s[1..]) <= MaxLong then Some(ParseDecimal(s[1..]) as int) else None)
    ensures |s| >= 2 && s[0] == '-' && IsDigits(s[1..]) ==>
              r == (if ParseDecimal(s[1..]) <= -MinLong then Some(0 - ParseDecimal(s[1..]) as int) else None)
  {
    if |s| >= 2 && s[0] == '-' && IsDigits(s[1..]) then InLongRange(0 - ParseDecimal(s[1..]) as int)
    else if |s| >= 2 && s[0] == '+' && IsDigits(s[1..]) then InLongRange(ParseDecimal(s[1..]))
    else if |s| >= 1 && IsDigits(s) then InLongRange(ParseDecimal(s))
    else None
  }

  /** Every 64-bit value reads back from its numeral. */
  lemma ParseLongNumeral(n: int)
    requires MinLong <= n <= MaxLong
    ensures ParseLong(Numeral(n)) == Some(n)
  {
    var s := Numeral(n);
    NumeralRoundTrip(n);
    if n >= 0 {
      assert s[0] != '-' && s[0] != '+';
    }
  }

  /** `String.format("%02d", n)`: at least two characters, zero-padded. */
  function Pad2(n: int): (r: string)
    ensures 0 <= n ==> |r| >= 2 && IsDigits(r)
    ensures 0 <= n < 100 <==> |r| == 2 && IsDigits(r)
    ensures n < 0 ==> |r| >= 2 && r[0] == '-'
  {
    if 0 <= n < 10 then ['0', DigitChar(n)]
    else if n >= 0 then Decimal(n)
    else ['-'] + Decimal(-n)
  }

  lemma Pad2RoundTrip(n: nat)
    ensures ParseDecimal(Pad2(n)) == n
  {
    if n >= 10 {
      DecimalRoundTrip(n);
    } else {
      var r := Pad2(n);
      assert r == ['0', DigitChar(n)];
      assert r[..1] == ['0'] && r[..1][..0] == [];
      assert ParseDecimal(r[..1]) == 0;
      assert ParseDecimal(r) == ParseDecimal(r[..1]) * 10 + (r[1] as int - '0' as int);
    }
  }

  /**
   * `formatTime(timeMs)`: whole minutes, then the seconds within the minute.  For a
   * non-negative duration the clock reads back as its whole minutes and the seconds within
   * the minute, those seconds are below 60, and together they bracket the duration to the
   * second.
   */
  function FormatTime(ms: int): (r: string)
    ensures ms >= 0 ==> ParseClock(r) == Some((ms / 60000, (ms / 1000) % 60))
    ensures ms >= 0 ==> (ms / 1000) % 60 < 60
    ensures ms >= 0 ==> (ms / 60000) * 60000 + ((ms / 1000) % 60) * 1000 <= ms
                        < (ms / 60000) * 60000 + ((ms / 1000) % 60) * 1000 + 1000
  {
    var totalSeconds := Quot(ms, 1000);
    var clock := Pad2(Quot(totalSeconds, 60)) + ":" + Pad2(Rem(totalSeconds, 60));
    if ms >= 0 then
      assert Quot(totalSeconds, 60) == ms / 60000;
      ClockReadsBack(ms / 60000, (ms / 1000) % 60);
      clock
    else clock
  }

  /** The position of the first `c` in `s`, or `|s|`. */
  function FirstIndex(s: string, c: char): (r: nat)
    ensures r <= |s|
    ensures r < |s| ==> s[r] == c
    ensures forall k :: 0 <= k < r ==> s[k] != c
  {
    if s == [] || s[0] == c then 0 else 1 + FirstIndex(s[1..], c)
  }

  /** Reads back a clock `m:s` made of two numerals; the partner of `FormatTime`. */
  function ParseClock(t: string): Option<(nat, nat)>
  {
    var k := FirstIndex(t, ':');
    if k < |t| && k > 0 && k + 1 < |t| && IsDigits(t[..k]) && IsDigits(t[k + 1..])
    then Some((ParseDecimal(t[..k]), ParseDecimal(t[k + 1..])))
    else None
  }

  /** A clock of two zero-padded numbers reads back as those numbers. */
  lemma ClockReadsBack(m: nat, sec: nat)
    ensures ParseClock(Pad2(m) + ":" + Pad2(sec)) == Some((m, sec))
  {
    var a, b := Pad2(m), Pad2(sec);
    var t := a + ":" + b;
    assert FirstIndex(t, ':') == |a| by {
      assert forall k :: 0 <= k < |a| ==> t[k] == a[k];
      assert t[|a|] == ':';
    }
    assert t[..|a|] == a;
    assert t[|a| + 1..] == b;
    Pad2RoundTrip(m);
    Pad2RoundTrip(sec);
  }
}
