/**
 Percent-encoding as the panel prints it (`clientEscape`) and as net/url undoes it.
 Section 2.1 of RFC 3986 defines the escapes, section 2.3 the unreserved characters.
 */
module Percent {
  import opened Text

  predicate Unreserved(c: char) {
    IsAlnum(c) || c == '-' || c == '_' || c == '.' || c == '~'
  }

  predicate AllUnreserved(s: string) {
    forall i :: 0 <= i < |s| ==> Unreserved(s[i])
  }

  function HexChar(d: nat): char
    requires d < 16
  {
    if d < 10 then ('0' as int + d) as char else ('A' as int + d - 10) as char
  }

  function HexValue(c: char): nat
    requires IsHexDigit(c)
  {
    if IsDigit(c) then c as int - '0' as int
    else if 'a' <= c <= 'f' then c as int - 'a' as int + 10
    else c as int - 'A' as int + 10
  }

  function Pct(c: char): string {
    ['%', HexChar(c as int / 16 % 16), HexChar(c as int % 16)]
  }

  /** url.QueryEscape */
  function QueryEscape(s: string): string {
    if s == "" then ""
    else (if s[0] == ' ' then "+" else if Unreserved(s[0]) then [s[0]] else Pct(s[0])) + QueryEscape(s[1..])
  }

  /** strings.ReplaceAll of the one-character string `[from]`. */
  function ReplaceChar(s: string, from: char, to: string): string {
    if s == "" then ""
    else (if s[0] == from then to else [s[0]]) + ReplaceChar(s[1..], from, to)
  }

  /** clientEscape: two passes, so that a blank never becomes '+'. */
  function ClientEscape(s: string): string {
    ReplaceChar(QueryEscape(s), '+', "%20")
  }

  /** One-pass percent-encoding, the reference for `ClientEscape`. */
  function Escape(s: string): string {
    if s == "" then ""
    else (if Unreserved(s[0]) then [s[0]] else Pct(s[0])) + Escape(s[1..])
  }

  predicate EscapedChar(c: char) {
    Unreserved(c) || c == '%'
  }

  /** url.unescape; only a query turns '+' into a blank.  None is the EscapeError. */
  function Unescape(s: string, query: bool): Option<string> {
    if s == "" then Some("")
    else if s[0] == '%' then
      if |s| < 3 || !IsHexDigit(s[1]) || !IsHexDigit(s[2]) then None
      else
        var rest := Unescape(s[3..], query);
        if rest.None? then None
        else Some([(HexValue(s[1]) * 16 + HexValue(s[2])) as char] + rest.value)
    else
      var rest := Unescape(s[1..], query);
      if rest.None? then None
      else Some([if query && s[0] == '+' then ' ' else s[0]] + rest.value)
  }

  lemma {:induction false} UnescapeNothing(s: string)
    requires '%' !in s
    ensures Unescape(s, false) == Some(s)
  {
    if s != "" {
      assert s[0] in s && '%' !in s[1..];
      UnescapeNothing(s[1..]);
      assert s == [s[0]] + s[1..];
    }
  }

  lemma {:induction false} ReplaceCharConcat(a: string, b: string, from: char, to: string)
    ensures ReplaceChar(a + b, from, to) == ReplaceChar(a, from, to) + ReplaceChar(b, from, to)
  {
    if a == "" {
      assert a + b == b;
    } else {
      assert (a + b)[1..] == a[1..] + b;
      ReplaceCharConcat(a[1..], b, from, to);
    }
  }

  lemma {:induction false} ReplaceCharAbsent(s: string, from: char, to: string)
    requires from !in s
    ensures ReplaceChar(s, from, to) == s
  {
    if s != "" {
      ReplaceCharAbsent(s[1..], from, to);
    }
  }

  lemma {:induction false} ClientEscapeIsOnePass(s: string)
    ensures ClientEscape(s) == Escape(s)
  {
    if s != "" {
      ClientEscapeIsOnePass(s[1..]);
      var head := if s[0] == ' ' then "+" else if Unreserved(s[0]) then [s[0]] else Pct(s[0]);
      ReplaceCharConcat(head, QueryEscape(s[1..]), '+', "%20");
      if s[0] == ' ' {
        assert ReplaceChar("+", '+', "%20") == "%20" + ReplaceChar("", '+', "%20");
        assert Pct(' ') == "%20";
      } else {
        ReplaceCharAbsent(head, '+', "%20");
      }
    }
  }

  lemma {:induction false} EscapeChars(s: string)
    ensures forall i :: 0 <= i < |Escape(s)| ==> EscapedChar(Escape(s)[i])
    ensures s != "" ==> Escape(s) != ""
  {
    if s != "" {
      EscapeChars(s[1..]);
    }
  }

  lemma {:induction false} EscapeLacks(s: string, c: char)
    requires !EscapedChar(c)
    ensures c !in Escape(s)
  {
    EscapeChars(s);
  }

  lemma {:induction false} EscapeUnreserved(s: string)
    requires AllUnreserved(s)
    ensures Escape(s) == s
  {
    if s != "" {
      EscapeUnreserved(s[1..]);
    }
  }

  lemma HexDecodes(n: nat)
    requires n < 16
    ensures IsHexDigit(HexChar(n)) && HexValue(HexChar(n)) == n
  {}

  lemma PctDecodes(c: char)
    requires c as int < 256
    ensures IsHexDigit(Pct(c)[1]) && IsHexDigit(Pct(c)[2])
    ensures (HexValue(Pct(c)[1]) * 16 + HexValue(Pct(c)[2])) as char == c
  {
    hide HexChar, HexValue, IsHexDigit;
    var n := c as int;
    assert n / 16 < 16 && n == n / 16 * 16 + n % 16;
    HexDecodes(n / 16);
    HexDecodes(n % 16);
  }

  lemma {:induction false} UnescapeEscape(s: string, query: bool)
    requires ByteString(s)
    ensures Unescape(Escape(s), query) == Some(s)
  {
    if s != "" {
      UnescapeEscape(s[1..], query);
      var e := Escape(s);
      if Unreserved(s[0]) {
        assert e[1..] == Escape(s[1..]);
      } else {
        PctDecodes(s[0]);
        assert e[0] == '%' && e[1] == Pct(s[0])[1] && e[2] == Pct(s[0])[2];
        assert e[3..] == Escape(s[1..]);
      }
      assert s == [s[0]] + s[1..];
    }
  }

  /**
   What `clientEscape` is for: one-pass percent-encoding, undone in a query and in a path
   alike, and free of every delimiter of the URI around it.
   */
  lemma {:induction false} ClientEscapeRoundTrip(s: string, query: bool)
    requires ByteString(s)
    ensures ClientEscape(s) == Escape(s)
    ensures Unescape(ClientEscape(s), query) == Some(s)
    ensures forall c :: c in ClientEscape(s) ==> EscapedChar(c)
    ensures s != "" ==> ClientEscape(s) != ""
  {
    ClientEscapeIsOnePass(s);
    UnescapeEscape(s, query);
    EscapeChars(s);
  }

  /** Two different byte strings never print alike. */
  lemma ClientEscapeInjective(a: string, b: string)
    requires ByteString(a) && ByteString(b)
    requires ClientEscape(a) == ClientEscape(b)
    ensures a == b
  {
    ClientEscapeRoundTrip(a, true);
    ClientEscapeRoundTrip(b, true);
  }
}
