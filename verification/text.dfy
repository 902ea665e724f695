/**
 * Decimal text as the producer writes and reads it: fmt's `%d` and `%0Nd`,
 * decimal.StringFixed(6) on exact millionths, strconv.Atoi and strings.Split.
 * Every writer here has a reader beside it and a lemma that the reader gives
 * the written value back; the identifier, CSV and money properties rest on them.
 */
module Text {
  import opened Common

  predicate IsDigit(c: char) { '0' <= c <= '9' }

  predicate AllDigits(s: string) { forall i :: 0 <= i < |s| ==> IsDigit(s[i]) }

  function DigitChar(d: nat): char
    requires d < 10
  {
    ('0' as int + d) as char
  }

  function DigitValue(c: char): nat
    requires IsDigit(c)
  {
    c as int - '0' as int
  }

  function Pow10(k: nat): nat
  {
    if k == 0 then 1 else 10 * Pow10(k - 1)
  }

  /** The decimal digits of n, most significant first, with no leading zero. */
  function NatDigits(n: nat): string
  {
    if n < 10 then [DigitChar(n)] else NatDigits(n / 10) + [DigitChar(n % 10)]
  }

  /** The value of a string of decimal digits, most significant first; "" reads as 0. */
  function DigitsValue(s: string): nat
    requires AllDigits(s)
  {
    if s == [] then 0 else DigitsValue(s[..|s| - 1]) * 10 + DigitValue(s[|s| - 1])
  }

  lemma {:induction false} NatDigitsValue(n: nat)
    ensures AllDigits(NatDigits(n)) && DigitsValue(NatDigits(n)) == n
    ensures 1 <= |NatDigits(n)|
  {
    if n >= 10 {
      NatDigitsValue(n / 10);
      var s := NatDigits(n);
      assert s[..|s| - 1] == NatDigits(n / 10);
    }
  }

  /** A value below 10^k needs at most k digits. */
  lemma {:induction false} NatDigitsShort(n: nat, k: nat)
    requires 1 <= k && n < Pow10(k)
    ensures |NatDigits(n)| <= k
  {
    if n >= 10 {
      NatDigitsShort(n / 10, k - 1);
    }
  }

  function Zeros(k: nat): string
  {
    seq(k, _ => '0')
  }

  /** fmt's `%0wd` on n >= 0: the digits of n, left-padded with '0' to at least w characters. */
  function Pad(n: nat, w: nat): string
  {
    var d := NatDigits(n);
    if |d| >= w then d else Zeros(w - |d|) + d
  }

  lemma {:induction false} ZerosValue(k: nat)
    ensures AllDigits(Zeros(k)) && DigitsValue(Zeros(k)) == 0
  {
    if k > 0 {
      assert Zeros(k)[..k - 1] == Zeros(k - 1);
      ZerosValue(k - 1);
    }
  }

  /** Leading zeros do not change the value of a digit string. */
  lemma {:induction false} ZerosPrefixValue(k: nat, s: string)
    requires AllDigits(s)
    ensures AllDigits(Zeros(k) + s) && DigitsValue(Zeros(k) + s) == DigitsValue(s)
    decreases |s|
  {
    ZerosValue(k);
    var z := Zeros(k) + s;
    if s == [] {
      assert z == Zeros(k);
    } else {
      assert z[..|z| - 1] == Zeros(k) + s[..|s| - 1];
      ZerosPrefixValue(k, s[..|s| - 1]);
    }
  }

  /** `%0wd` reads back as n, is at least w wide, and exactly w wide when n < 10^w. */
  lemma PadValue(n: nat, w: nat)
    ensures AllDigits(Pad(n, w)) && DigitsValue(Pad(n, w)) == n
    ensures |Pad(n, w)| >= w
    ensures 1 <= w && n < Pow10(w) ==> |Pad(n, w)| == w
  {
    NatDigitsValue(n);
    var d := NatDigits(n);
    if |d| < w {
      ZerosPrefixValue(w - |d|, d);
    }
    if 1 <= w && n < Pow10(w) {
      NatDigitsShort(n, w);
    }
  }

  /** Zero-padded renderings of two values agree exactly when the values do. */
  lemma PadInjective(a: nat, b: nat, w: nat)
    ensures Pad(a, w) == Pad(b, w) <==> a == b
  {
    PadValue(a, w);
    PadValue(b, w);
  }

  /** fmt's `%d` on any int. */
  function IntText(i: int): string
  {
    if i < 0 then "-" + NatDigits(-i) else NatDigits(i)
  }

  /** Reads back what `%d` writes: an optional '-' followed by at least one digit. */
  function ParseIntText(s: string): Option<int>
  {
    if |s| >= 2 && s[0] == '-' && AllDigits(s[1..]) then Some(-(DigitsValue(s[1..]) as int))
    else if |s| >= 1 && AllDigits(s) then Some(DigitsValue(s))
    else None
  }

  lemma IntTextRoundTrip(i: int)
    ensures ParseIntText(IntText(i)) == Some(i)
  {
    if i < 0 {
      NatDigitsValue(-i);
      assert IntText(i)[1..] == NatDigits(-i);
    } else {
      NatDigitsValue(i);
      assert IsDigit(NatDigits(i)[0]);
    }
  }

  const MinInt64: int := -0x8000_0000_0000_0000
  const MaxInt64: int := 0x7fff_ffff_ffff_ffff

  /**
   * strconv.Atoi on a 64-bit platform: an optional '+' or '-', one or more
   * decimal digits, and a value that fits in int; anything else is an error.
   */
  function Atoi(s: string): (r: Option<int>)
    ensures r.Some? ==> MinInt64 <= r.value <= MaxInt64
    ensures r.Some? ==> s != [] && (IsDigit(s[0]) || s[0] == '-' || s[0] == '+')
  {
    if s == [] then None
    else
      var body := if s[0] == '-' || s[0] == '+' then s[1..] else s;
      if body == [] || !AllDigits(body) then None
      else
        var v: int := if s[0] == '-' then -(DigitsValue(body) as int) else DigitsValue(body);
        if MinInt64 <= v <= MaxInt64 then Some(v) else None
  }

  /** Atoi accepts every `%d` rendering of a 64-bit int and returns that int. */
  lemma AtoiReadsIntText(i: int)
    requires MinInt64 <= i <= MaxInt64
    ensures Atoi(IntText(i)) == Some(i)
  {
    var s := IntText(i);
    if i < 0 {
      NatDigitsValue(-i);
      assert s[1..] == NatDigits(-i);
    } else {
      NatDigitsValue(i);
      assert IsDigit(s[0]);
    }
  }

  /** Atoi refuses the `%d` rendering of an int outside the 64-bit range. */
  lemma AtoiRejectsWideIntText(i: int)
    requires i < MinInt64 || MaxInt64 < i
    ensures Atoi(IntText(i)) == None
  {
    var s := IntText(i);
    if i < 0 {
      NatDigitsValue(-i);
      assert s[1..] == NatDigits(-i);
    } else {
      NatDigitsValue(i);
      assert IsDigit(s[0]);
    }
  }

  /** Atoi refuses any text with a character other than a digit after its first. */
  lemma AtoiRejectsInnerNonDigit(s: string, k: nat)
    requires 0 < k < |s| && !IsDigit(s[k])
    ensures Atoi(s) == None
  {
    if s[0] == '-' || s[0] == '+' {
      assert s[1..][k - 1] == s[k];
    }
  }

  const Million: nat := 1_000_000

  /**
   * decimal.StringFixed(6) of the exact value m / 10^6: a '-' for negative
   * values, the integer part, '.', and exactly six fraction digits.
   */
  function Fixed6(m: int): string
  {
    if m < 0 then "-" + UnsignedFixed6(-m) else UnsignedFixed6(m)
  }

  /** The integer part of a / 10^6, '.', and its six fraction digits. */
  function UnsignedFixed6(a: nat): string
  {
    NatDigits(a / Million) + "." + Pad(a % Million, 6)
  }

  /** Reads the unsigned part of a six-decimal string: digits, '.', six digits. */
  function ParseUnsignedFixed6(body: string): Option<nat>
  {
    var n := |body|;
    if n >= 8 && body[n - 7] == '.' && AllDigits(body[..n - 7]) && AllDigits(body[n - 6..]) then
      Some(DigitsValue(body[..n - 7]) * Million + DigitsValue(body[n - 6..]))
    else None
  }

  /** Reads a six-decimal fixed-point string back into millionths. */
  function ParseFixed6(s: string): Option<int>
  {
    if |s| > 0 && s[0] == '-' then
      match ParseUnsignedFixed6(s[1..])
      case Some(a) => Some(-(a as int))
      case None => None
    else
      match ParseUnsignedFixed6(s)
      case Some(a) => Some(a as int)
      case None => None
  }

  lemma MillionSplit(a: nat)
    ensures (a / Million) * Million + a % Million == a
    ensures a % Million < Pow10(6)
  {
    assert Pow10(6) == Million;
  }

  lemma UnsignedFixed6RoundTrip(a: nat)
    ensures ParseUnsignedFixed6(UnsignedFixed6(a)) == Some(a)
  {
    var hi, lo := a / Million, a % Million;
    var ip := NatDigits(hi);
    var fp := Pad(lo, 6);
    MillionSplit(a);
    NatDigitsValue(hi);
    PadValue(lo, 6);
    var body := ip + "." + fp;
    var n := |body|;
    assert body[n - 7] == '.';
    assert body[..n - 7] == ip;
    assert body[n - 6..] == fp;
    assert DigitsValue(ip) * Million + DigitsValue(fp) == hi * Million + lo;
  }

  /** A leading '-' negates what the rest reads as. */
  lemma ParseNegated(body: string, a: nat)
    requires ParseUnsignedFixed6(body) == Some(a)
    ensures ParseFixed6("-" + body) == Some(-(a as int))
  {
    assert ("-" + body)[1..] == body;
  }

  lemma NegativeFixed6RoundTrip(m: int)
    requires m < 0
    ensures ParseFixed6(Fixed6(m)) == Some(m)
  {
    UnsignedFixed6RoundTrip(-m);
    ParseNegated(UnsignedFixed6(-m), -m);
  }

  lemma NonNegativeFixed6RoundTrip(m: nat)
    ensures ParseFixed6(Fixed6(m)) == Some(m)
  {
    UnsignedFixed6RoundTrip(m);
    NatDigitsValue(m / Million);
    assert IsDigit(UnsignedFixed6(m)[0]);
  }

  /** The six-decimal rendering loses nothing: it reads back as the same number of millionths. */
  lemma Fixed6RoundTrip(m: int)
    ensures ParseFixed6(Fixed6(m)) == Some(m)
  {
    if m < 0 {
      NegativeFixed6RoundTrip(m);
    } else {
      NonNegativeFixed6RoundTrip(m);
    }
  }

  /** strings.Split(s, string(sep)) for a one-character separator. */
  function Split(s: string, sep: char): (parts: seq<string>)
    ensures |parts| >= 1
    ensures forall i :: 0 <= i < |parts| ==> sep !in parts[i]
  {
    if s == [] then [""]
    else
      var rest := Split(s[1..], sep);
      if s[0] == sep then [""] + rest else [[s[0]] + rest[0]] + rest[1..]
  }

  /** strings.Join(parts, string(sep)). */
  function Join(parts: seq<string>, sep: char): string
    requires |parts| >= 1
  {
    if |parts| == 1 then parts[0] else parts[0] + [sep] + Join(parts[1..], sep)
  }

  /** Splitting loses nothing: joining the parts with the separator gives the string back. */
  lemma {:induction false} JoinSplit(s: string, sep: char)
    ensures Join(Split(s, sep), sep) == s
  {
    if s != [] {
      JoinSplit(s[1..], sep);
      var rest := Split(s[1..], sep);
      if s[0] == sep {
        assert ([""] + rest)[1..] == rest;
      } else {
        var parts := [[s[0]] + rest[0]] + rest[1..];
        if |rest| == 1 {
          assert Join(parts, sep) == [s[0]] + rest[0];
        } else {
          assert parts[1..] == rest[1..];
          assert Join(parts, sep) == [s[0]] + (rest[0] + [sep] + Join(rest[1..], sep));
        }
      }
    }
  }
}
