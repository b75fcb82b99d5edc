/**
 Go strings and the few `strings`/`strconv` operations the panel relies on.

 A Go string is a sequence of bytes.  It is modelled by a Dafny `string` in which every
 character stands for one byte; `ByteString` says so.  String literals below are ASCII.
 */
module Text {
  datatype Option<+T> = None | Some(value: T)

  const MAX_INT64: int := 0x7fff_ffff_ffff_ffff
  const MIN_INT64: int := -0x8000_0000_0000_0000

  // Go's `int` and `int64` on the panel's platforms
  type int64 = x: int | MIN_INT64 <= x <= MAX_INT64

  predicate ByteString(s: string) {
    forall i :: 0 <= i < |s| ==> s[i] as int < 256
  }

  predicate IsDigit(c: char) {
    '0' <= c <= '9'
  }

  predicate IsHexDigit(c: char) {
    IsDigit(c) || 'a' <= c <= 'f' || 'A' <= c <= 'F'
  }

  predicate IsAlnum(c: char) {
    IsDigit(c) || 'a' <= c <= 'z' || 'A' <= c <= 'Z'
  }

  /** strings.ContainsAny: some character of `s` is one of `chars`. */
  predicate ContainsAny(s: string, chars: set<char>) {
    exists i :: 0 <= i < |s| && s[i] in chars
  }

  predicate HasPrefix(s: string, prefix: string) {
    prefix <= s
  }

  predicate HasSuffix(s: string, suffix: string) {
    |suffix| <= |s| && s[|s| - |suffix|..] == suffix
  }

  function LowerChar(c: char): char {
    if 'A' <= c <= 'Z' then (c as int + 32) as char else c
  }

  /** strings.ToLower restricted to ASCII; the panel only compares the result with ASCII words. */
  function ToLower(s: string): (r: string)
    ensures |r| == |s|
    ensures forall i :: 0 <= i < |s| ==> r[i] == LowerChar(s[i])
  {
    if s == "" then "" else [LowerChar(s[0])] + ToLower(s[1..])
  }

  lemma {:induction false} ToLowerId(s: string)
    requires forall i :: 0 <= i < |s| ==> !('A' <= s[i] <= 'Z')
    ensures ToLower(s) == s
  {}

  // ---------- searching and cutting ----------

  /** strings.IndexByte: the first position of `c`, or -1. */
  function Index(s: string, c: char): (r: int)
    ensures -1 <= r < |s|
    ensures r == -1 <==> c !in s
    ensures r >= 0 ==> s[r] == c && forall j :: 0 <= j < r ==> s[j] != c
  {
    if s == "" then -1
    else if s[0] == c then 0
    else
      var t := Index(s[1..], c);
      if t < 0 then -1 else t + 1
  }

  /** strings.LastIndexByte: the last position of `c`, or -1. */
  function LastIndex(s: string, c: char): (r: int)
    ensures -1 <= r < |s|
    ensures r == -1 <==> c !in s
    ensures r >= 0 ==> s[r] == c && forall j :: r < j < |s| ==> s[j] != c
  {
    if s == "" then -1
    else
      var t := LastIndex(s[1..], c);
      if t >= 0 then t + 1 else if s[0] == c then 0 else -1
  }

  lemma {:induction false} IndexAt(a: string, c: char, b: string)
    requires c !in a
    ensures Index(a + [c] + b, c) == |a|
    ensures (a + [c] + b)[..|a|] == a
    ensures (a + [c] + b)[|a| + 1..] == b
  {
    var s := a + [c] + b;
    assert s[|a|] == c;
    assert forall j :: 0 <= j < |a| ==> s[j] == a[j];
  }

  lemma {:induction false} LastIndexAt(a: string, c: char, b: string)
    requires c !in b
    ensures LastIndex(a + [c] + b, c) == |a|
    ensures (a + [c] + b)[..|a|] == a
    ensures (a + [c] + b)[|a| + 1..] == b
  {
    var s := a + [c] + b;
    assert s[..|a|] == a && s[|a| + 1..] == b;
    if a == "" {
      assert s[1..] == b;
    } else {
      assert s[1..] == a[1..] + [c] + b;
      LastIndexAt(a[1..], c, b);
    }
  }

  /** strings.Cut at one character. */
  function Cut(s: string, c: char): (r: (string, string, bool))
    ensures r.2 <==> c in s
    ensures c !in r.0
    ensures s == if r.2 then r.0 + [c] + r.1 else r.0
    ensures !r.2 ==> r.1 == ""
  {
    var i := Index(s, c);
    if i < 0 then (s, "", false) else (s[..i], s[i + 1..], true)
  }

  lemma CutAt(a: string, c: char, b: string)
    requires c !in a
    ensures Cut(a + [c] + b, c) == (a, b, true)
  {
    IndexAt(a, c, b);
  }

  /** strings.Split on one character. */
  function Split(s: string, c: char): (parts: seq<string>)
    ensures |parts| >= 1
    ensures forall p :: p in parts ==> c !in p
    decreases |s|
  {
    var (head, tail, found) := Cut(s, c);
    if found then [head] + Split(tail, c) else [s]
  }

  /** strings.Join with one character. */
  function Join(parts: seq<string>, c: char): string {
    if |parts| == 0 then ""
    else if |parts| == 1 then parts[0]
    else parts[0] + [c] + Join(parts[1..], c)
  }

  lemma {:induction false} SplitJoin(parts: seq<string>, c: char)
    requires |parts| >= 1
    requires forall p :: p in parts ==> c !in p
    ensures Split(Join(parts, c), c) == parts
  {
    if |parts| == 1 {
      SplitWhole(parts[0], c);
    } else {
      SplitJoin(parts[1..], c);
      SplitOnce(parts[0], c, Join(parts[1..], c));
      assert parts == [parts[0]] + parts[1..];
    }
  }

  lemma {:induction false} SplitOnce(head: string, c: char, tail: string)
    requires c !in head
    ensures Split(head + [c] + tail, c) == [head] + Split(tail, c)
  {
    CutAt(head, c, tail);
    hide Cut;
  }

  lemma {:induction false} SplitWhole(s: string, c: char)
    requires c !in s
    ensures Split(s, c) == [s]
  {
    hide Cut;
  }

  lemma {:induction false} JoinCons(head: string, rest: seq<string>, c: char)
    requires |rest| >= 1
    ensures Join([head] + rest, c) == head + [c] + Join(rest, c)
  {
    assert ([head] + rest)[1..] == rest;
  }

  lemma {:induction false} JoinSplit(s: string, c: char)
    ensures Join(Split(s, c), c) == s
    decreases |s|
  {
    var (head, tail, found) := Cut(s, c);
    if found {
      JoinSplit(tail, c);
      CutAt(head, c, tail);
      JoinCons(head, Split(tail, c), c);
    }
  }

  lemma {:induction false} JoinLacks(parts: seq<string>, c: char, d: char)
    requires c != d
    requires forall p :: p in parts ==> d !in p
    ensures d !in Join(parts, c)
  {
    if |parts| > 1 {
      JoinLacks(parts[1..], c, d);
    }
  }

  // Every character of a joined string is the separator or comes from a part.
  lemma {:induction false} JoinChars(parts: seq<string>, c: char, ok: char -> bool)
    requires ok(c)
    requires forall p, i :: p in parts && 0 <= i < |p| ==> ok(p[i])
    ensures forall i :: 0 <= i < |Join(parts, c)| ==> ok(Join(parts, c)[i])
  {
    if |parts| > 1 {
      JoinChars(parts[1..], c, ok);
    }
  }

  // ---------- white space ----------

  // The UTF-8 forms of the white-space runes (unicode.IsSpace), by byte length:
  // ASCII blanks; U+0085, U+00A0; U+1680, U+2000..U+200A, U+2028, U+2029, U+202F, U+205F, U+3000.
  predicate IsAsciiSpace(a: char) {
    a == ' ' || 9 <= a as int <= 13
  }

  predicate IsSpace2(a: char, b: char) {
    a as int == 0xC2 && (b as int == 0x85 || b as int == 0xA0)
  }

  predicate IsSpace3(a: char, b: char, c: char) {
    || (a as int == 0xE1 && b as int == 0x9A && c as int == 0x80)
    || (a as int == 0xE2 && b as int == 0x80
        && (0x80 <= c as int <= 0x8A || c as int == 0xA8 || c as int == 0xA9 || c as int == 0xAF))
    || (a as int == 0xE2 && b as int == 0x81 && c as int == 0x9F)
    || (a as int == 0xE3 && b as int == 0x80 && c as int == 0x80)
  }

  /** The byte length of the white-space rune that starts `s`; 0 when there is none. */
  function SpaceLen(s: string): (n: nat)
    ensures n <= |s|
  {
    if |s| >= 1 && IsAsciiSpace(s[0]) then 1
    else if |s| >= 2 && IsSpace2(s[0], s[1]) then 2
    else if |s| >= 3 && IsSpace3(s[0], s[1], s[2]) then 3
    else 0
  }

  /** The byte length of the white-space rune that ends `s`; 0 when there is none. */
  function SpaceLenEnd(s: string): (n: nat)
    ensures n <= |s|
  {
    var k := |s|;
    if k >= 1 && IsAsciiSpace(s[k - 1]) then 1
    else if k >= 2 && IsSpace2(s[k - 2], s[k - 1]) then 2
    else if k >= 3 && IsSpace3(s[k - 3], s[k - 2], s[k - 1]) then 3
    else 0
  }

  function TrimLeft(s: string): string
    decreases |s|
  {
    if SpaceLen(s) > 0 then TrimLeft(s[SpaceLen(s)..]) else s
  }

  function TrimRight(s: string): string
    decreases |s|
  {
    if SpaceLenEnd(s) > 0 then TrimRight(s[..|s| - SpaceLenEnd(s)]) else s
  }

  /** strings.TrimSpace */
  function TrimSpace(s: string): string {
    TrimRight(TrimLeft(s))
  }

  predicate Trimmed(s: string) {
    SpaceLen(s) == 0 && SpaceLenEnd(s) == 0
  }

  lemma TrimmedFixed(s: string)
    requires Trimmed(s)
    ensures TrimSpace(s) == s
  {}

  lemma {:induction false} TrimLeftStarts(s: string)
    ensures SpaceLen(TrimLeft(s)) == 0
    ensures |TrimLeft(s)| <= |s| && TrimLeft(s) == s[|s| - |TrimLeft(s)|..]
    decreases |s|
  {
    hide SpaceLen;
    if SpaceLen(s) > 0 {
      var t := s[SpaceLen(s)..];
      TrimLeftStarts(t);
      assert s[|s| - |TrimLeft(t)|..] == t[|t| - |TrimLeft(t)|..];
    }
  }

  lemma {:induction false} TrimRightEnds(s: string)
    requires SpaceLen(s) == 0
    ensures Trimmed(TrimRight(s))
    ensures TrimRight(s) <= s
    decreases |s|
  {
    if SpaceLenEnd(s) > 0 {
      TrimRightEnds(s[..|s| - SpaceLenEnd(s)]);
    }
  }

  lemma TrimSpaceTrims(s: string)
    ensures Trimmed(TrimSpace(s))
    ensures TrimSpace(TrimSpace(s)) == TrimSpace(s)
    ensures forall c :: c in TrimSpace(s) ==> c in s
  {
    TrimLeftStarts(s);
    TrimRightEnds(TrimLeft(s));
    TrimmedFixed(TrimSpace(s));
  }

  // Text framed by plain ASCII characters that are not spaces is already trimmed.
  lemma FramedTrimmed(s: string)
    requires s != ""
    requires s[0] as int < 0x80 && !IsAsciiSpace(s[0])
    requires s[|s| - 1] as int < 0x80 && !IsAsciiSpace(s[|s| - 1])
    ensures Trimmed(s)
  {}

  // A trimmed tail behind an ASCII character keeps the whole trimmed at the end.
  lemma TailTrimmed(a: string, c: char, b: string)
    requires c as int < 0x80 && !IsAsciiSpace(c)
    requires SpaceLenEnd(b) == 0
    ensures SpaceLenEnd(a + [c] + b) == 0
  {
  }

  // ---------- decimal numbers ----------

  function DigitChar(d: nat): char
    requires d < 10
  {
    ('0' as int + d) as char
  }

  function DigitValue(c: char): nat
    requires IsDigit(c)
  {
    c as int - '0' as int
  }

  predicate AllDigits(s: string) {
    forall i :: 0 <= i < |s| ==> IsDigit(s[i])
  }

  /** The decimal digits of a natural number. */
  function Digits(n: nat): (s: string)
    ensures |s| >= 1 && AllDigits(s)
  {
    if n < 10 then [DigitChar(n)] else Digits(n / 10) + [DigitChar(n % 10)]
  }

  /** The number a digit string denotes. */
  function DigitsValue(s: string): nat
    requires AllDigits(s)
  {
    if s == "" then 0
    else 10 * DigitsValue(s[..|s| - 1]) + DigitValue(s[|s| - 1])
  }

  lemma {:induction false} DigitsRoundTrip(n: nat)
    ensures DigitsValue(Digits(n)) == n
  {
    if n >= 10 {
      DigitsRoundTrip(n / 10);
      var s := Digits(n);
      assert s[..|s| - 1] == Digits(n / 10);
    } else {
      assert Digits(n)[..0] == "";
    }
  }

  /** strconv.Itoa */
  function Itoa(n: int): string {
    if n < 0 then "-" + Digits(-n) else Digits(n)
  }

  /** strconv.Atoi: an optional sign, at least one digit, a value that fits 64 bits. */
  function Atoi(s: string): Option<int> {
    var signed := s != "" && (s[0] == '-' || s[0] == '+');
    var digits := if signed then s[1..] else s;
    if digits == "" || !AllDigits(digits) then None
    else
      var v: int := DigitsValue(digits);
      var n := if signed && s[0] == '-' then -v else v;
      if MIN_INT64 <= n <= MAX_INT64 then Some(n) else None
  }

  lemma AtoiItoa(n: int)
    ensures Atoi(Itoa(n)) == if MIN_INT64 <= n <= MAX_INT64 then Some(n) else None
  {
    if n < 0 {
      DigitsRoundTrip(-n);
      assert Itoa(n)[1..] == Digits(-n);
    } else {
      DigitsRoundTrip(n);
      assert IsDigit(Digits(n)[0]);
    }
  }
}
