/**
 Decimal seconds as whole microseconds (internal/systemd/monotonic_linux.go and
 internal/systemd/systemd.go): the fraction is cut or padded to six digits.
 */
module FixedPoint {
  import opened Text

  const MAX_UINT64: int := 0xffff_ffff_ffff_ffff
  const MICROS: int := 1_000_000

  /** strconv.ParseUint in base 10 with 64 bits */
  function ParseUint(s: string): Option<int> {
    if s == "" || !AllDigits(s) || DigitsValue(s) > MAX_UINT64 then None else Some(DigitsValue(s))
  }

  function Zeros(n: nat): string {
    seq(n, _ => '0')
  }

  // The fraction as six characters.
  function SixDigits(fraction: string): (r: string)
    ensures |r| == 6
  {
    if |fraction| >= 6 then fraction[..6] else fraction + Zeros(6 - |fraction|)
  }

  method PadFraction(fraction: string) returns (r: string)
    ensures r == SixDigits(fraction)
  {
    r := fraction;
    if |r| > 6 {
      r := r[..6];
    }
    ghost var start := r;
    while |r| < 6
      invariant |start| <= |r| <= 6 && r == start + Zeros(|r| - |start|)
      decreases 6 - |r|
    {
      r := r + "0";
    }
  }

  // The wrap-around of a 64-bit signed subtraction.
  function Wrap(n: int): int {
    (n + 0x8000_0000_0000_0000) % 0x1_0000_0000_0000_0000 - 0x8000_0000_0000_0000
  }

  // Division as Go does it, towards zero.
  function Quotient(a: int, b: int): int
    requires b > 0
  {
    if a < 0 then -(-a / b) else a / b
  }

  // The two parsed parts together, unless they overflow.
  function Unsigned(seconds: Option<int>, fraction: Option<int>): Option<int> {
    if seconds.None? || fraction.None? || seconds.value > (MAX_UINT64 - fraction.value) / MICROS then None
    else Some(seconds.value * MICROS + fraction.value)
  }

  /** What parseProcUptimeMicros computes. */
  function UptimeMicros(value: string): Option<int> {
    var cut := Cut(TrimSpace(value), '.');
    Unsigned(ParseUint(cut.0), ParseUint(SixDigits(cut.1)))
  }

  /** parseProcUptimeMicros */
  method ParseProcUptimeMicros(value: string) returns (micros: Option<int>)
    ensures micros == UptimeMicros(value)
  {
    hide ParseUint, TrimSpace, Cut;
    var (secondsText, fractionText, _) := Cut(TrimSpace(value), '.');
    var seconds := ParseUint(secondsText);
    if seconds.None? {
      return None;
    }
    var padded := PadFraction(fractionText);
    var fraction := ParseUint(padded);
    if fraction.None? || seconds.value > (MAX_UINT64 - fraction.value) / MICROS {
      return None;
    }
    micros := Some(seconds.value * MICROS + fraction.value);
  }

  function Signed(seconds: Option<int>, fraction: Option<int>): Option<int> {
    if seconds.None? || seconds.value <= 0 || fraction.None?
        || seconds.value > Quotient(Wrap(MAX_INT64 - fraction.value), MICROS) then None
    else Some(seconds.value * MICROS + fraction.value)
  }

  /** What parseUnixSecondsMicros computes: Atoi is ParseInt with 64 bits, and takes a sign. */
  function UnixMicros(value: string): Option<int> {
    var cut := Cut(value, '.');
    Signed(Atoi(cut.0), Atoi(SixDigits(cut.1)))
  }

  /** parseUnixSecondsMicros */
  method ParseUnixSecondsMicros(value: string) returns (micros: Option<int>)
    ensures micros == UnixMicros(value)
  {
    hide Atoi, Cut;
    var (secondsText, fractionText, _) := Cut(value, '.');
    var seconds := Atoi(secondsText);
    if seconds.None? || seconds.value <= 0 {
      return None;
    }
    var padded := PadFraction(fractionText);
    var fraction := Atoi(padded);
    if fraction.None? || seconds.value > Quotient(Wrap(MAX_INT64 - fraction.value), MICROS) {
      return None;
    }
    micros := Some(seconds.value * MICROS + fraction.value);
  }

  // ---------- the value of a decimal number ----------

  function Pow10(n: nat): (r: nat)
    ensures r > 0
  {
    if n == 0 then 1 else 10 * Pow10(n - 1)
  }

  // D.F stands for the fraction (value of the digits DF) / 10^|F|; this is the floor of 10^6 times it.
  function FloorMicros(whole: string, fraction: string): int
    requires AllDigits(whole + fraction)
  {
    DigitsValue(whole + fraction) * MICROS / Pow10(|fraction|)
  }

  lemma {:induction false} DigitsValueConcat(a: string, b: string)
    requires AllDigits(a) && AllDigits(b)
    ensures AllDigits(a + b) && DigitsValue(a + b) == DigitsValue(a) * Pow10(|b|) + DigitsValue(b)
  {
    if b == "" {
      assert a + b == a;
    } else {
      var front, last := b[..|b| - 1], b[|b| - 1];
      assert (a + b)[..|a + b| - 1] == a + front;
      DigitsValueConcat(a, front);
      NextDigit(DigitsValue(a), Pow10(|front|), DigitsValue(front), DigitValue(last));
    }
  }

  lemma NextDigit(a: nat, p: nat, b: nat, d: nat)
    ensures 10 * (a * p + b) + d == a * (10 * p) + (10 * b + d)
  {
    assert 10 * (a * p) == a * (10 * p);
  }

  lemma {:induction false} ZerosValue(n: nat)
    ensures AllDigits(Zeros(n)) && DigitsValue(Zeros(n)) == 0
  {
    if n > 0 {
      assert Zeros(n)[..n - 1] == Zeros(n - 1);
      ZerosValue(n - 1);
    }
  }

  lemma {:induction false} DigitsValueBound(s: string)
    requires AllDigits(s)
    ensures 0 <= DigitsValue(s) < Pow10(|s|)
  {
    if s != "" {
      DigitsValueBound(s[..|s| - 1]);
    }
  }

  lemma {:induction false} Pow10Add(a: nat, b: nat)
    ensures Pow10(a + b) == Pow10(a) * Pow10(b)
  {
    if a > 0 {
      Pow10Add(a - 1, b);
      assert 10 * Pow10(a - 1) * Pow10(b) == 10 * (Pow10(a - 1) * Pow10(b));
    }
  }

  lemma Pow10Six()
    ensures Pow10(6) == MICROS
  {
    assert Pow10(1) == 10 && Pow10(2) == 100 && Pow10(3) == 1000 && Pow10(4) == 10000 && Pow10(5) == 100000;
  }

  lemma NextMultiple(a: int, b: int, q: int)
    requires a < b && q > 0
    ensures a * q + q <= b * q
    decreases b - a
  {
    if a + 1 < b {
      NextMultiple(a + 1, b, q);
    }
    assert (a + 1) * q == a * q + q;
  }

  lemma FloorIs(n: int, q: int, x: int)
    requires q > 0 && x * q <= n < x * q + q
    ensures n / q == x
  {
    var d := n / q;
    assert d * q <= n < d * q + q;
    if d < x {
      NextMultiple(d, x, q);
    } else if x < d {
      NextMultiple(x, d, q);
    }
  }

  lemma ScaledFloor(w: nat, f: nat, six: nat, q: nat)
    requires q > 0 && six * q <= f * MICROS < six * q + q
    ensures (w * q + f) * MICROS / q == w * MICROS + six
  {
    var n := (w * q + f) * MICROS;
    assert n == w * MICROS * q + f * MICROS;
    assert (w * MICROS + six) * q == w * MICROS * q + six * q;
    FloorIs(n, q, w * MICROS + six);
  }

  lemma {:induction false} LongFraction(six: string, tail: string)
    requires AllDigits(six) && AllDigits(tail) && |six| == 6
    ensures var q := Pow10(|six + tail|);
            AllDigits(six + tail)
            && DigitsValue(six) * q <= DigitsValue(six + tail) * MICROS < DigitsValue(six) * q + q
  {
    Pow10Six();
    DigitsValueConcat(six, tail);
    DigitsValueBound(tail);
    Pow10Add(6, |tail|);
    hide Pow10, DigitsValue, AllDigits;
    Split6(DigitsValue(six + tail), DigitsValue(six), DigitsValue(tail), Pow10(|tail|));
  }

  lemma ShortFraction(fraction: string)
    requires AllDigits(fraction) && |fraction| < 6
    ensures var six, q := fraction + Zeros(6 - |fraction|), Pow10(|fraction|);
            AllDigits(six) && DigitsValue(six) * q == DigitsValue(fraction) * MICROS
  {
    Pow10Six();
    ZerosValue(6 - |fraction|);
    DigitsValueConcat(fraction, Zeros(6 - |fraction|));
    Pow10Add(6 - |fraction|, |fraction|);
    hide Pow10, DigitsValue, AllDigits, Zeros;
    Regroup(DigitsValue(fraction), Pow10(6 - |fraction|), Pow10(|fraction|));
  }

  lemma Regroup(f: nat, p: nat, q: nat)
    ensures f * p * q == f * (p * q)
  {}

  lemma {:induction false} SixDigitsValue(fraction: string)
    requires AllDigits(fraction)
    ensures AllDigits(SixDigits(fraction)) && DigitsValue(SixDigits(fraction)) < MICROS
    ensures var six, q := DigitsValue(SixDigits(fraction)), Pow10(|fraction|);
            six * q <= DigitsValue(fraction) * MICROS < six * q + q
  {
    Pow10Six();
    if |fraction| >= 6 {
      assert fraction == fraction[..6] + fraction[6..];
      LongFraction(fraction[..6], fraction[6..]);
    } else {
      ShortFraction(fraction);
    }
    DigitsValueBound(SixDigits(fraction));
    hide Pow10, DigitsValue, Zeros;
  }

  lemma Split6(f: nat, six: nat, tail: nat, p: nat)
    requires f == six * p + tail && tail < p
    ensures six * (MICROS * p) <= f * MICROS < six * (MICROS * p) + MICROS * p
  {
    assert f * MICROS == six * p * MICROS + tail * MICROS;
    assert six * (MICROS * p) == six * p * MICROS;
  }

  /** Six digits of the fraction are all it takes: together with the whole seconds they are the floor. */
  lemma {:induction false} FloorOfParts(whole: string, fraction: string)
    requires AllDigits(whole) && AllDigits(fraction)
    ensures AllDigits(whole + fraction)
    ensures FloorMicros(whole, fraction) == DigitsValue(whole) * MICROS + DigitsValue(SixDigits(fraction))
  {
    DigitsValueConcat(whole, fraction);
    SixDigitsValue(fraction);
    ScaledFloor(DigitsValue(whole), DigitsValue(fraction), DigitsValue(SixDigits(fraction)), Pow10(|fraction|));
  }

  // The two ways to write a decimal number.
  predicate Decimal(value: string, whole: string, fraction: string) {
    && whole != "" && AllDigits(whole) && AllDigits(fraction)
    && (value == whole + ['.'] + fraction || (fraction == "" && value == whole))
  }

  lemma DecimalCuts(value: string, whole: string, fraction: string)
    requires Decimal(value, whole, fraction)
    ensures Cut(value, '.').0 == whole && Cut(value, '.').1 == fraction && TrimSpace(value) == value
  {
    assert '.' !in whole;
    if value != whole {
      CutAt(whole, '.', fraction);
    }
    FramedTrimmed(value);
    TrimmedFixed(value);
  }

  lemma DecimalFits(seconds: nat, six: nat, limit: nat)
    requires six < MICROS
    requires limit >= MICROS
    ensures seconds > (limit - six) / MICROS <==> seconds * MICROS + six > limit
  {
    var q := (limit - six) / MICROS;
    assert q * MICROS <= limit - six < q * MICROS + MICROS;
    if seconds > q {
      assert (q + 1) * MICROS <= seconds * MICROS;
    } else {
      assert seconds * MICROS <= q * MICROS;
    }
  }

  lemma UnsignedFloor(w: nat, six: nat)
    requires six < MICROS
    ensures Unsigned(if w <= MAX_UINT64 then Some(w) else None, Some(six))
         == if w * MICROS + six <= MAX_UINT64 then Some(w * MICROS + six) else None
  {
    DecimalFits(w, six, MAX_UINT64);
  }

  lemma SignedFloor(w: nat, six: nat)
    requires six < MICROS
    ensures Signed(if w <= MAX_INT64 then Some(w) else None, Some(six))
         == if w > 0 && w * MICROS + six <= MAX_INT64 then Some(w * MICROS + six) else None
  {
    DecimalFits(w, six, MAX_INT64);
    assert Wrap(MAX_INT64 - six) == MAX_INT64 - six;
  }

  // A negative fraction makes the room that is left wrap around.
  lemma SignedBelow(w: nat, v: int)
    requires 0 < v < MICROS
    ensures Signed(if w <= MAX_INT64 then Some(w) else None, Some(-v)) == None
  {
    assert Wrap(MAX_INT64 + v) == MIN_INT64 + v - 1;
  }

  lemma {:induction false} UintDigits(s: string)
    requires s != "" && AllDigits(s)
    ensures ParseUint(s) == if DigitsValue(s) <= MAX_UINT64 then Some(DigitsValue(s)) else None
  {}

  lemma {:induction false} AtoiDigits(s: string)
    requires s != "" && AllDigits(s)
    ensures Atoi(s) == if DigitsValue(s) <= MAX_INT64 then Some(DigitsValue(s)) else None
  {
    assert IsDigit(s[0]);
  }

  /** Every decimal number gives the floor of its microseconds, and is rejected exactly above 64 bits. */
  lemma UptimeIsFloor(value: string, whole: string, fraction: string)
    requires Decimal(value, whole, fraction)
    ensures AllDigits(whole + fraction)
    ensures UptimeMicros(value) == if FloorMicros(whole, fraction) <= MAX_UINT64
            then Some(FloorMicros(whole, fraction)) else None
  {
    hide UptimeMicros, UnixMicros, FloorMicros, SixDigits, DigitsValue, AllDigits, ParseUint, Unsigned, Atoi, Signed,
        Decimal, Cut, TrimSpace;
    DecimalParts(value, whole, fraction);
    FloorOfParts(whole, fraction);
    SixDigitsValue(fraction);
    UintDigits(whole);
    UintDigits(SixDigits(fraction));
    UnsignedFloor(DigitsValue(whole), DigitsValue(SixDigits(fraction)));
  }

  // Both parsers work on the two parts of a decimal number.
  lemma DecimalParts(value: string, whole: string, fraction: string)
    requires Decimal(value, whole, fraction)
    ensures whole != "" && AllDigits(whole) && AllDigits(fraction) && SixDigits(fraction) != ""
    ensures UptimeMicros(value) == Unsigned(ParseUint(whole), ParseUint(SixDigits(fraction)))
    ensures UnixMicros(value) == Signed(Atoi(whole), Atoi(SixDigits(fraction)))
  {
    DecimalCuts(value, whole, fraction);
    hide SixDigits, Unsigned, Signed, ParseUint, Atoi, Cut, TrimSpace;
  }

  /** The signed variant does the same for a positive number of whole seconds, with 63 bits. */
  lemma {:induction false} UnixIsFloor(value: string, whole: string, fraction: string)
    requires Decimal(value, whole, fraction)
    ensures AllDigits(whole + fraction)
    ensures UnixMicros(value) == if DigitsValue(whole) > 0 && FloorMicros(whole, fraction) <= MAX_INT64
                                 then Some(FloorMicros(whole, fraction)) else None
  {
    hide UptimeMicros, UnixMicros, FloorMicros, SixDigits, DigitsValue, AllDigits, ParseUint, Unsigned, Atoi, Signed,
        Decimal, Cut, TrimSpace;
    DecimalParts(value, whole, fraction);
    FloorOfParts(whole, fraction);
    SixDigitsValue(fraction);
    AtoiDigits(whole);
    AtoiDigits(SixDigits(fraction));
    SignedFloor(DigitsValue(whole), DigitsValue(SixDigits(fraction)));
  }

  // ---------- exactly the strings that are accepted ----------

  predicate Sign(c: char) {
    c == '+' || c == '-'
  }

  // The number without its sign.
  function Unsign(s: string): string {
    if s != "" && Sign(s[0]) then s[1..] else s
  }

  predicate Minus(s: string) {
    s != "" && s[0] == '-'
  }

  // What the parsers look at of a fraction.
  function First6(fraction: string): (r: string)
    ensures |r| <= 6 && r <= fraction
  {
    if |fraction| >= 6 then fraction[..6] else fraction
  }

  // The microseconds of the first characters of a fraction: each digit counts at its place, which a sign shifts by one.
  function PartValue(part: string): (v: int)
    requires |part| <= 6 && AllDigits(Unsign(part))
  {
    DigitsValue(Unsign(part)) * Pow10(6 - |part|)
  }

  lemma {:induction false} PaddedDigits(digits: string, n: nat)
    ensures AllDigits(digits + Zeros(n)) <==> AllDigits(digits)
    ensures AllDigits(digits) ==> DigitsValue(digits + Zeros(n)) == DigitsValue(digits) * Pow10(n)
  {
    ZerosValue(n);
    if AllDigits(digits) {
      DigitsValueConcat(digits, Zeros(n));
    }
    assert digits == (digits + Zeros(n))[..|digits|];
    hide DigitsValue, Pow10, Zeros;
  }

  lemma SixIsFirst(fraction: string)
    ensures SixDigits(fraction) == First6(fraction) + Zeros(6 - |First6(fraction)|)
  {}

  lemma PartBound(part: string)
    requires |part| <= 6 && AllDigits(Unsign(part))
    ensures 0 <= PartValue(part) < MICROS
  {
    var digits := Unsign(part);
    DigitsValueBound(digits);
    Pow10Add(|digits|, 6 - |part|);
    Pow10Six();
    Pow10Grows(|digits| + 6 - |part|);
    var d, p := DigitsValue(digits), Pow10(6 - |part|);
    hide DigitsValue, Pow10, AllDigits, Unsign;
    BelowProduct(d, Pow10(|digits|), p);
  }

  lemma BelowProduct(d: nat, q: nat, p: nat)
    requires d < q && p > 0
    ensures d * p < q * p
  {
    NextMultiple(d, q, p);
  }

  lemma {:induction false} Pow10Grows(n: nat)
    requires n <= 6
    ensures Pow10(n) <= Pow10(6)
    decreases 6 - n
  {
    if n < 6 {
      Pow10Grows(n + 1);
    }
  }

  // ParseInt of six padded characters: digits, or a sign and digits, possibly none.
  lemma SixAtoi(fraction: string)
    ensures var part := First6(fraction);
            Atoi(SixDigits(fraction))
            == if AllDigits(Unsign(part)) then Some(if Minus(part) then -PartValue(part) else PartValue(part)) else None
  {
    var part, six := First6(fraction), SixDigits(fraction);
    SixIsFirst(fraction);
    PaddedDigits(Unsign(part), 6 - |part|);
    assert Unsign(six) == Unsign(part) + Zeros(6 - |part|);
    assert Minus(six) == Minus(part);
    if AllDigits(Unsign(part)) {
      PartBound(part);
    }
    hide First6, SixDigits, Zeros, Pow10, AllDigits, DigitsValue, Unsign, Minus;
    AtoiUnsign(six);
  }

  lemma AtoiUnsign(s: string)
    ensures Unsign(s) != "" && AllDigits(Unsign(s)) && DigitsValue(Unsign(s)) <= MAX_INT64 ==>
              var v: int := DigitsValue(Unsign(s)); Atoi(s) == Some(if Minus(s) then -v else v)
    ensures Unsign(s) == "" || !AllDigits(Unsign(s)) ==> Atoi(s).None?
    ensures (Atoi(s).Some? && Atoi(s).value > 0) <==>
              (!Minus(s) && Unsign(s) != "" && AllDigits(Unsign(s)) && 0 < DigitsValue(Unsign(s)) <= MAX_INT64)
  {
    hide AllDigits, DigitsValue;
  }

  // An unsigned or positive signed number of seconds.
  predicate Seconds(whole: string) {
    !Minus(whole) && Unsign(whole) != "" && AllDigits(Unsign(whole)) && DigitsValue(Unsign(whole)) > 0
  }

  // Digits, or a sign and possibly digits, which are zeros behind a minus.
  predicate Micros(part: string) {
    |part| <= 6 && AllDigits(Unsign(part)) && (Minus(part) ==> PartValue(part) == 0)
  }

  // The text before the first point and what follows it.
  predicate Parts(value: string, whole: string, fraction: string) {
    '.' !in whole && (value == whole + ['.'] + fraction || (fraction == "" && value == whole))
  }

  lemma PartsAreCut(value: string, whole: string, fraction: string)
    requires Parts(value, whole, fraction)
    ensures Cut(value, '.').0 == whole && Cut(value, '.').1 == fraction
  {
    if value != whole {
      CutAt(whole, '.', fraction);
    }
  }

  /** Every string has such parts. */
  lemma HasParts(value: string)
    ensures Parts(value, Cut(value, '.').0, Cut(value, '.').1)
  {}

  /**
   The signed variant, for every string.  Accepted are a positive number of seconds, possibly
   behind a plus, and a fraction of which the first six characters are digits, or a sign and
   digits or nothing; only zeros may follow a minus, because the overflow check wraps
   around.  Whatever follows the six characters does not matter.
   */
  lemma UnixExactly(value: string, whole: string, fraction: string)
    requires Parts(value, whole, fraction)
    ensures var part := First6(fraction);
            UnixMicros(value)
            == if Seconds(whole) && Micros(part) && DigitsValue(Unsign(whole)) * MICROS + PartValue(part) <= MAX_INT64
               then Some(DigitsValue(Unsign(whole)) * MICROS + PartValue(part))
               else None
  {
    hide First6, SixDigits, Pow10, AllDigits, DigitsValue, Unsign, Minus, Atoi, Cut, Signed, PartValue, Seconds;
    PartsAreCut(value, whole, fraction);
    SixAtoi(fraction);
    AtoiSeconds(whole);
    var part := First6(fraction);
    var parsed := AllDigits(Unsign(part));
    if parsed {
      PartBound(part);
    }
    SignedOf(Atoi(whole), Atoi(SixDigits(fraction)), Seconds(whole), SecondsOf(whole), parsed,
             Minus(part), if parsed then PartValue(part) else 0);
  }

  function SecondsOf(whole: string): nat {
    if Seconds(whole) then DigitsValue(Unsign(whole)) else 0
  }

  lemma AtoiSeconds(whole: string)
    ensures if Seconds(whole) then SecondsOf(whole) == DigitsValue(Unsign(whole)) > 0
                                   && Atoi(whole) == (if SecondsOf(whole) <= MAX_INT64 then Some(SecondsOf(whole))
                                      else None)
            else Atoi(whole).None? || Atoi(whole).value <= 0
  {
    AtoiUnsign(whole);
    hide AllDigits, DigitsValue, Unsign, Minus, Atoi;
    if Seconds(whole) && DigitsValue(Unsign(whole)) > MAX_INT64 {
      AtoiLarge(whole);
    }
  }

  lemma AtoiLarge(whole: string)
    requires Seconds(whole) && DigitsValue(Unsign(whole)) > MAX_INT64
    ensures Atoi(whole).None?
  {
    hide AllDigits, DigitsValue;
  }

  // Both parts as they were parsed, given what the texts are.
  lemma SignedOf(seconds: Option<int>, fraction: Option<int>, positive: bool, w: nat, parsed: bool, minus: bool, v: int)
    requires if positive then w > 0 && seconds == (if w <= MAX_INT64 then Some(w) else None)
             else seconds.None? || seconds.value <= 0
    requires 0 <= v < MICROS && fraction == if parsed then Some(if minus then -v else v) else None
    ensures Signed(seconds, fraction)
         == if positive && parsed && (minus ==> v == 0) && w * MICROS + v <= MAX_INT64 then Some(w * MICROS + v)
             else None
  {
    if positive && parsed {
      hide Signed;
      SignedParts(w, v, minus);
    }
  }

  lemma SignedParts(w: nat, v: int, minus: bool)
    requires w > 0 && 0 <= v < MICROS
    ensures Signed(if w <= MAX_INT64 then Some(w) else None, Some(if minus then -v else v))
         == if w * MICROS + v <= MAX_INT64 && (minus ==> v == 0) then Some(w * MICROS + v) else None
  {
    SignedFloor(w, v);
    if v > 0 {
      SignedBelow(w, v);
    }
    hide Signed;
  }

  /** Two strings that are no decimal numbers and are accepted: a sign for a fraction, and a plus before the seconds. */
  lemma {:induction false} StraySigns(whole: string)
    requires whole != "" && AllDigits(whole) && 0 < DigitsValue(whole) * MICROS <= MAX_INT64
    ensures UnixMicros(whole + ".+") == UnixMicros("+" + whole) == Some(DigitsValue(whole) * MICROS)
  {
    hide UnixMicros;
    assert Unsign(whole) == whole == Unsign("+" + whole) && Unsign("+") == "";
    NoPoint(whole);
    NoMicros("");
    NoMicros("+");
    hide Unsign, DigitsValue, PartValue, Pow10, AllDigits, UnixMicros;
    assert whole + ".+" == whole + ['.'] + "+";
    assert First6("+") == "+" && First6("") == "";
    UnixExactly(whole + ".+", whole, "+");
    UnixExactly("+" + whole, "+" + whole, "");
  }

  lemma NoPoint(digits: string)
    requires AllDigits(digits)
    ensures '.' !in digits
  {}

  lemma NoMicros(part: string)
    requires |part| <= 6 && Unsign(part) == ""
    ensures AllDigits(Unsign(part)) && PartValue(part) == 0
  {
    assert DigitsValue("") == 0;
    hide Pow10;
  }

  /**
   The unsigned variant, for every string: digits before the point, and behind it six digits,
   or fewer and no more text.
   */
  lemma {:induction false} UptimeExactly(value: string, whole: string, fraction: string)
    requires Parts(TrimSpace(value), whole, fraction)
    ensures var part := First6(fraction);
            UptimeMicros(value)
            == if whole != "" && AllDigits(whole) && AllDigits(part)
                  && DigitsValue(whole) * MICROS + DigitsValue(part) * Pow10(6 - |part|) <= MAX_UINT64
               then Some(DigitsValue(whole) * MICROS + DigitsValue(part) * Pow10(6 - |part|))
               else None
  {
    hide First6, Zeros, Pow10, AllDigits, DigitsValue, Cut, Unsigned, SixDigits, ParseUint, TrimSpace;
    PartsAreCut(TrimSpace(value), whole, fraction);
    var part := First6(fraction);
    SixUint(fraction);
    WholeUint(whole);
    if whole != "" && AllDigits(whole) && AllDigits(part) {
      UnsignedFloor(DigitsValue(whole), DigitsValue(part) * Pow10(6 - |part|));
    } else {
      UnsignedRejects(ParseUint(whole), ParseUint(SixDigits(fraction)));
    }
  }

  lemma {:induction false} WholeUint(whole: string)
    ensures ParseUint(whole)
         == if whole != "" && AllDigits(whole) && DigitsValue(whole) <= MAX_UINT64 then Some(DigitsValue(whole))
             else None
  {}

  lemma SixUint(fraction: string)
    ensures var part := First6(fraction);
            ParseUint(SixDigits(fraction))
                == (if AllDigits(part) then Some(DigitsValue(part) * Pow10(6 - |part|)) else None)
            && (AllDigits(part) ==> DigitsValue(part) * Pow10(6 - |part|) < MICROS)
  {
    var part := First6(fraction);
    SixIsFirst(fraction);
    PaddedDigits(part, 6 - |part|);
    hide First6, Zeros, DigitsValue;
    if AllDigits(part) {
      DigitsValueBound(SixDigits(fraction));
      Pow10Six();
    }
    hide Pow10, SixDigits, AllDigits;
    WholeUint(SixDigits(fraction));
  }

  lemma UnsignedRejects(seconds: Option<int>, fraction: Option<int>)
    ensures seconds.None? || fraction.None? ==> Unsigned(seconds, fraction) == None
  {}
}
