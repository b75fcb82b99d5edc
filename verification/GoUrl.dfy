/**
 The part of net/url the panel calls: splitting an absolute URL (section 3 of RFC 3986) and
 reading its query.  `ParseAbsolute` answers None both for a parse error and for text
 without a scheme, because every caller refuses both.
 */
module GoUrl {
  import opened Text
  import opened Percent

  datatype Userinfo = Userinfo(username: string, password: Option<string>)

  // path and fragment are decoded, rawQuery is not
  datatype Url = Url(scheme: string, user: Option<Userinfo>, host: string, path: string, rawQuery: string,
      fragment: string)

  predicate HasControl(s: string) {
    exists i :: 0 <= i < |s| && (s[i] as int < 0x20 || s[i] as int == 0x7f)
  }

  predicate SchemeChar(c: char) {
    IsAlnum(c) || c == '+' || c == '-' || c == '.'
  }

  predicate ValidScheme(s: string) {
    s != "" && IsAlnum(s[0]) && !IsDigit(s[0]) && forall i :: 0 <= i < |s| ==> SchemeChar(s[i])
  }

  // '$' .. '.' are the ten sub-delimiters and marks $ % & ' ( ) * + , - and the dot
  predicate UserinfoChar(c: char) {
    IsAlnum(c) || '$' <= c <= '.' || c == '!' || c == ':' || c == ';' || c == '=' || c == '@' || c == '_' || c == '~'
  }

  predicate HostChar(c: char) {
    || c as int >= 0x80
    || (UserinfoChar(c) && c != '%' && c != '@')
    || c == '<' || c == '>' || c == '"'
  }

  // An escape in a host stands for a byte from 0x80 up, or for '%' itself.
  predicate HostAt(s: string, i: nat)
    requires i < |s|
  {
    if s[i] != '%' then HostChar(s[i])
    else
      && i + 2 < |s| && IsHexDigit(s[i + 1]) && IsHexDigit(s[i + 2])
      && (HexValue(s[i + 1]) >= 8 || (s[i + 1] == '2' && s[i + 2] == '5'))
  }

  // A host without IP-literal brackets.
  predicate HostChars(s: string) {
    forall i :: 0 <= i < |s| ==> HostAt(s, i)
  }

  predicate ValidHost(host: string) {
    var colon := Index(host, ':');
    (colon >= 0 ==> AllDigits(host[colon + 1..])) && HostChars(host)
  }

  function ParseUserinfo(userinfo: string): Option<Userinfo> {
    var (name, password, hasPassword) := Cut(userinfo, ':');
    var n, p := Unescape(name, false), Unescape(password, false);
    if (exists i :: 0 <= i < |userinfo| && !UserinfoChar(userinfo[i])) || n.None? || p.None? then None
    else Some(Userinfo(n.value, if hasPassword then Some(p.value) else None))
  }

  function ParseAuthority(authority: string): Option<(Option<Userinfo>, string)> {
    var at := LastIndex(authority, '@');
    if !ValidHost(authority[at + 1..]) then None
    else if at < 0 then Some((None, authority))
    else
      var user := ParseUserinfo(authority[..at]);
      if user.None? then None else Some((user, authority[at + 1..]))
  }

  function ParseHierarchy(scheme: string, hier: string, query: string, fragment: string): Option<Url> {
    if !HasPrefix(hier, "/") then Some(Url(scheme, None, "", "", query, fragment))
    else
      var (authority, rawPath) := SplitAuthority(hier);
      var parsed, path := ParseAuthority(authority), Unescape(rawPath, false);
      if parsed.None? || path.None? then None
      else Some(Url(scheme, parsed.value.0, parsed.value.1, path.value, query, fragment))
  }

  /** url.Parse, and url.ParseRequestURI when `viaRequest` (which does not cut a fragment). */
  function ParseAbsolute(raw: string, viaRequest: bool): Option<Url> {
    var (body, frag, _) := if viaRequest then (raw, "", false) else Cut(raw, '#');
    var (scheme, rest, hasScheme) := Cut(body, ':');
    var fragment := Unescape(frag, false);
    if HasControl(body) || !hasScheme || !ValidScheme(scheme) || fragment.None? then None
    else
      var (hier, query, _) := Cut(rest, '?');
      ParseHierarchy(ToLower(scheme), hier, query, fragment.value)
  }

  function SplitAuthority(hier: string): (string, string) {
    if HasPrefix(hier, "//") then
      var slash := Index(hier[2..], '/');
      if slash < 0 then (hier[2..], "") else (hier[2..slash + 2], hier[slash + 2..])
    else ("", hier)
  }

  // ---------- URLs assembled from pieces ----------

  lemma SplitAuthorityAt(authority: string, path: string)
    requires '/' !in authority
    ensures SplitAuthority("//" + (authority + ['/'] + path)) == (authority, ['/'] + path)
  {
    hide Index;
    IndexAt(authority, '/', path);
    var hier := "//" + (authority + ['/'] + path);
    assert hier[2..] == authority + ['/'] + path;
    assert hier[..2] == "//";
    assert hier[2..|authority| + 2] == authority;
    assert hier[|authority| + 2..] == ['/'] + path;
  }

  lemma {:induction false} UnescapePlain(s: string)
    requires AllUnreserved(s) && ByteString(s)
    ensures Unescape(s, false) == Some(s) && Unescape("", false) == Some("")
  {
    EscapeUnreserved(s);
    UnescapeEscape(s, false);
  }

  lemma ParseUserinfoAt(user: string)
    requires AllUnreserved(user) && ByteString(user)
    ensures ParseUserinfo(user) == Some(Userinfo(user, None))
  {
    assert ':' !in user by {
      assert forall i :: 0 <= i < |user| ==> user[i] != ':';
    }
    assert Cut(user, ':') == (user, "", false);
    UnescapePlain(user);
  }

  lemma ParseAuthorityAt(user: string, host: string)
    requires '@' !in host && ValidHost(host)
    requires AllUnreserved(user) && ByteString(user)
    ensures ParseAuthority(user + ['@'] + host) == Some((Some(Userinfo(user, None)), host))
  {
    LastIndexAt(user, '@', host);
    ParseUserinfoAt(user);
  }

  lemma {:induction false} ParseHierarchyAt(authority: string, rawPath: string, url: Url)
    requires '/' !in authority && ParseAuthority(authority) == Some((url.user, url.host))
    requires Unescape(['/'] + rawPath, false) == Some(url.path)
    ensures ParseHierarchy(url.scheme, "//" + (authority + ['/'] + rawPath), url.rawQuery, url.fragment) == Some(url)
  {
    SplitAuthorityAt(authority, rawPath);
  }

  lemma {:induction false} ParseBody(scheme: string, hier: string, frag: string, url: Url)
    requires ValidScheme(scheme) && ToLower(scheme) == url.scheme && ':' !in scheme && '?' !in hier
    requires ParseHierarchy(url.scheme, hier, url.rawQuery, url.fragment) == Some(url)
    requires Unescape(frag, false) == Some(url.fragment)
    ensures var body := scheme + [':'] + (hier + ['?'] + url.rawQuery);
            '#' !in body && !HasControl(body) ==>
              && ParseAbsolute(body + ['#'] + frag, false) == Some(url)
              && (frag == "" ==> ParseAbsolute(body, false) == Some(url))
  {
    var rest := hier + ['?'] + url.rawQuery;
    var body := scheme + [':'] + rest;
    CutAt(scheme, ':', rest);
    CutAt(hier, '?', url.rawQuery);
    if '#' !in body && !HasControl(body) {
      CutAt(body, '#', frag);
      assert Cut(body, '#') == (body, "", false);
    }
  }

  // ---------- queries ----------

  type Pairs = seq<(string, string)>

  /** url.ParseQuery as the ordered list of decoded pairs; None when any piece is malformed. */
  function QueryPairs(pieces: seq<string>): Option<Pairs> {
    if pieces == [] then Some([])
    else
      var rest := QueryPairs(pieces[1..]);
      if rest.None? then None
      else if pieces[0] == "" then rest
      else
        var (name, value, _) := Cut(pieces[0], '=');
        var n, v := Unescape(name, true), Unescape(value, true);
        if ';' in pieces[0] || n.None? || v.None? then None
        else Some([(n.value, v.value)] + rest.value)
  }

  function ParseQuery(raw: string): Option<Pairs> {
    QueryPairs(Split(raw, '&'))
  }

  /** The printed form of a pair. */
  function QueryPart(p: (string, string)): string {
    p.0 + "=" + Escape(p.1)
  }

  function QueryParts(pairs: Pairs): (parts: seq<string>)
    ensures |parts| == |pairs|
    ensures forall i :: 0 <= i < |pairs| ==> parts[i] == QueryPart(pairs[i])
  {
    if pairs == [] then [] else [QueryPart(pairs[0])] + QueryParts(pairs[1..])
  }

  predicate PlainPair(p: (string, string)) {
    p.0 != "" && AllUnreserved(p.0) && ByteString(p.1)
  }

  predicate PlainPairs(pairs: Pairs) {
    forall i :: 0 <= i < |pairs| ==> PlainPair(pairs[i])
  }

  lemma QueryPartLacks(p: (string, string), c: char)
    requires PlainPair(p)
    requires !EscapedChar(c) && c != '='
    ensures c !in QueryPart(p)
  {
    EscapeLacks(p.1, c);
    assert forall i :: 0 <= i < |p.0| ==> p.0[i] != c;
  }

  lemma QueryPartCuts(p: (string, string))
    requires PlainPair(p)
    ensures Cut(QueryPart(p), '=') == (p.0, Escape(p.1), true)
    ensures Unescape(p.0, true) == Some(p.0)
  {
    assert forall i :: 0 <= i < |p.0| ==> p.0[i] != '=';
    CutAt(p.0, '=', Escape(p.1));
    EscapeUnreserved(p.0);
    UnescapeEscape(p.0, true);
  }

  lemma {:induction false} QueryPairsRoundTrip(pairs: Pairs)
    requires PlainPairs(pairs)
    ensures QueryPairs(QueryParts(pairs)) == Some(pairs)
  {
    if pairs != [] {
      var p := pairs[0];
      var parts := QueryParts(pairs);
      assert parts[1..] == QueryParts(pairs[1..]);
      QueryPairsRoundTrip(pairs[1..]);
      QueryPartCuts(p);
      QueryPartLacks(p, ';');
      UnescapeEscape(p.1, true);
      assert pairs == [p] + pairs[1..];
    }
  }

  /** Reading a printed query gives back its pairs, in order. */
  lemma {:induction false} ParseQueryRoundTrip(pairs: Pairs)
    requires PlainPairs(pairs) && pairs != []
    ensures ParseQuery(Join(QueryParts(pairs), '&')) == Some(pairs)
  {
    var parts := QueryParts(pairs);
    forall p | p in parts
      ensures '&' !in p
    {
      var i :| 0 <= i < |parts| && parts[i] == p;
      QueryPartLacks(pairs[i], '&');
    }
    SplitJoin(parts, '&');
    QueryPairsRoundTrip(pairs);
  }

  // A printed query holds no delimiter of the URI around it.
  lemma {:induction false} QueryLacks(pairs: Pairs, c: char)
    requires PlainPairs(pairs)
    requires !EscapedChar(c) && c != '=' && c != '&'
    ensures c !in Join(QueryParts(pairs), '&')
  {
    var parts := QueryParts(pairs);
    forall p | p in parts
      ensures c !in p
    {
      var i :| 0 <= i < |parts| && parts[i] == p;
      QueryPartLacks(pairs[i], c);
    }
    JoinLacks(parts, '&', c);
  }
}
