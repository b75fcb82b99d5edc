/**
 The compact URI of OLCRTC Client (internal/instance/uri.go): the printer, and the validator of
 manual entries split into "cut the fields" and "accept them".
 */
module ClientUri {
  import opened Text
  import opened Percent
  import opened GoUrl
  import opened InstanceConfig

  const MAX_URI := 16 * 1024

  predicate ValidKey(key: string) {
    |key| == 64 && forall i :: 0 <= i < |key| ==> IsHexDigit(key[i])
  }

  predicate ClientCompatible(provider: string, transport: string) {
    || ((provider == "wbstream" || provider == "telemost") && transport == "vp8channel")
    || (provider == "jitsi" && transport == "datachannel")
  }

  // ---------- printing ----------

  predicate Printable(item: Plain, key: string) {
    && ValidKey(key)
    && ClientCompatible(item.provider, item.transport)
    && TrimSpace(item.roomID) != "" && !ContainsAny(item.roomID, {'\r', '\n'})
    && TrimSpace(item.clientID) != "" && !ContainsAny(item.clientID, {'\r', '\n'})
    && (item.provider == "wbstream" && item.authToken == "" ==> item.omitClientAuthToken)
  }

  predicate CarriesToken(item: Plain) {
    item.provider == "wbstream" && !item.omitClientAuthToken
  }

  function Part(name: string, value: string): string {
    name + "=" + value
  }

  function Parts(item: Plain, key: string): seq<string> {
    [Part("k", ClientEscape(key)), Part("t", ClientEscape(item.transport))]
    + (if item.transport == "vp8channel"
        then [Part("f", Itoa(item.options.vp8FPS)), Part("b", Itoa(item.options.vp8Batch))] else [])
    + [Part("c", ClientEscape(item.clientID))]
    + (if CarriesToken(item) then [Part("a", ClientEscape(item.authToken))] else [])
    + (if item.dns != "" then [Part("d", ClientEscape(item.dns))] else [])
  }

  /** ClientURI: None is its error. */
  function Print(item: Plain, key: string, name: string): Option<string> {
    if !Printable(item, key) then None
    else
      var fragment := if name != "" then "#" + ClientEscape(name) else "";
      Some("olcrtc://" + item.provider + "@r/" + ClientEscape(item.roomID) + "?" + Join(Parts(item, key), '&')
          + fragment)
  }

  // ---------- cutting and accepting ----------

  // What the validator reads out of a URI: the pieces of the URL and the decoded parameters.
  datatype ClientFields = ClientFields(provider: string, room: string, params: Pairs, name: string)

  const ALLOWED: set<string> := {
    "key", "k", "transport", "t", "vp8_fps", "f", "vp8_batch", "b", "client_id", "c",
    "auth_token", "auth.token", "a", "dns", "d", "room_password", "rp", "keepalive", "ka" }

  function CutUri(raw: string): Option<ClientFields> {
    var parsed := ParseAbsolute(TrimSpace(raw), false);
    if parsed.None? || parsed.value.scheme != "olcrtc" then None
    else
      var u := parsed.value;
      if u.user.None? || u.user.value.password.Some? || u.user.value.username == "" || u.host == "" then None
      else
        var params := ParseQuery(u.rawQuery);
        if params.None? then None
        else Some(ClientFields(ToLower(u.user.value.username), u.path, params.value, u.fragment))
  }

  function Count(params: Pairs, name: string): nat {
    if params == [] then 0 else (if params[0].0 == name then 1 else 0) + Count(params[1..], name)
  }

  /** The first value of a parameter, if it is given. */
  function Lookup(params: Pairs, name: string): Option<string> {
    if params == [] then None else if params[0].0 == name then Some(params[0].1) else Lookup(params[1..], name)
  }

  /** The value given under any alias: None when two aliases are given, "" when none is. */
  function Parameter(params: Pairs, names: seq<string>): Option<string> {
    if names == [] then Some("")
    else
      var rest := Parameter(params, names[1..]);
      var given := Lookup(params, names[0]);
      if given.None? then rest
      else if exists n :: n in names[1..] && Lookup(params, n).Some? then None
      else given
  }

  predicate InRange(value: string, low: int, high: int) {
    value == "" || (Atoi(value).Some? && low <= Atoi(value).value <= high)
  }

  /** net.SplitHostPort: None is its error. */
  function SplitHostPort(s: string): Option<(string, string)> {
    var i := LastIndex(s, ':');
    if i < 0 then None
    else if s[0] == '[' then
      var end := Index(s, ']');
      if end < 0 || end + 1 != i || '[' in s[1..] || ']' in s[end + 1..] then None
      else Some((s[1..end], s[i + 1..]))
    else if ':' in s[..i] || '[' in s || ']' in s then None
    else Some((s[..i], s[i + 1..]))
  }

  predicate NumericAddress(isIP: string -> bool, dns: string) {
    var split := SplitHostPort(dns);
    split.Some? && isIP(split.value.0) && Atoi(split.value.1).Some? && 1 <= Atoi(split.value.1).value <= 65535
  }

  predicate KnownOnce(p: Pairs) {
    forall i :: 0 <= i < |p| ==> p[i].0 in ALLOWED && Count(p, p[i].0) == 1
  }

  predicate AcceptIdentity(f: ClientFields) {
    var key, id, transport :=
      Parameter(f.params, ["key", "k"]), Parameter(f.params, ["client_id", "c"]),
          Parameter(f.params, ["transport", "t"]);
    && key.Some? && ValidKey(key.value)
    && id.Some? && TrimSpace(id.value) != ""
    && transport.Some?
    && ClientCompatible(f.provider, if transport.value == "" then "datachannel" else ToLower(transport.value))
  }

  predicate AcceptOptional(p: Pairs) {
    Parameter(p, ["auth_token", "auth.token", "a"]).Some? && Parameter(p, ["room_password", "rp"]).Some?
  }

  predicate AcceptNumber(p: Pairs, names: seq<string>, low: int, high: int) {
    Parameter(p, names).Some? && InRange(Parameter(p, names).value, low, high)
  }

  predicate AcceptDns(isIP: string -> bool, p: Pairs) {
    var dns := Parameter(p, ["dns", "d"]);
    dns.Some? && (dns.value != "" ==> NumericAddress(isIP, dns.value))
  }

  predicate AcceptFields(isIP: string -> bool, f: ClientFields) {
    && KnownOnce(f.params)
    && AcceptIdentity(f)
    && AcceptOptional(f.params)
    && AcceptNumber(f.params, ["vp8_fps", "f"], 1, 120)
    && AcceptNumber(f.params, ["vp8_batch", "b"], 1, 64)
    && AcceptNumber(f.params, ["keepalive", "ka"], 0, 3600)
    && AcceptDns(isIP, f.params)
  }

  /** ValidateClientURI returns nil; `isIP` is the verdict of net.ParseIP. */
  predicate Accepts(isIP: string -> bool, raw: string) {
    |raw| <= MAX_URI && CutUri(raw).Some? && AcceptFields(isIP, CutUri(raw).value)
  }

  // ---------- the round trip ----------

  // The strings an instance hands to the printer are byte strings.
  predicate Bytes(item: Plain, name: string) {
    ByteString(item.roomID) && ByteString(item.clientID) && ByteString(item.authToken) && ByteString(item.dns)
        && ByteString(name)
  }

  /** The parameters of an instance, in print order and unescaped. */
  function Params(item: Plain, key: string): Pairs {
    [("k", key), ("t", item.transport)]
    + (if item.transport == "vp8channel" then [("f", Itoa(item.options.vp8FPS)), ("b", Itoa(item.options.vp8Batch))]
        else [])
    + [("c", item.clientID)]
    + (if CarriesToken(item) then [("a", item.authToken)] else [])
    + (if item.dns != "" then [("d", item.dns)] else [])
  }

  function Prefix(provider: string, room: string): string {
    "olcrtc://" + provider + "@r/" + Escape(room)
  }

  function FragmentOf(name: string): string {
    if name == "" then "" else "#" + Escape(name)
  }

  function Assemble(provider: string, room: string, params: Pairs, name: string): string {
    Prefix(provider, room) + "?" + Join(QueryParts(params), '&') + FragmentOf(name)
  }

  lemma ItoaUnreserved(n: int)
    ensures AllUnreserved(Itoa(n)) && ByteString(Itoa(n)) && Itoa(n) != ""
  {}

  lemma PartEscaped(name: string, value: string)
    ensures Part(name, ClientEscape(value)) == QueryPart((name, value))
    ensures AllUnreserved(value) ==> Part(name, value) == QueryPart((name, value))
  {
    ClientEscapeIsOnePass(value);
    if AllUnreserved(value) {
      EscapeUnreserved(value);
    }
  }

  lemma {:induction false} QueryPartsConcat(a: Pairs, b: Pairs)
    ensures QueryParts(a + b) == QueryParts(a) + QueryParts(b)
  {}

  lemma {:induction false} QueryPartsOfPieces(a: Pairs, b: Pairs, c: Pairs, d: Pairs, e: Pairs)
    ensures QueryParts(a + b + c + d + e)
            == QueryParts(a) + QueryParts(b) + QueryParts(c) + QueryParts(d) + QueryParts(e)
  {
    QueryPartsConcat(a + b + c + d, e);
    QueryPartsConcat(a + b + c, d);
    QueryPartsConcat(a + b, c);
    QueryPartsConcat(a, b);
  }

  lemma QueryPartsOfOne(p: (string, string), q: (string, string))
    ensures QueryParts([p]) == [QueryPart(p)]
    ensures QueryParts([p, q]) == [QueryPart(p), QueryPart(q)]
  {}

  // The printed parts are the parameters, each escaped in one pass.
  lemma PartsArePairs(item: Plain, key: string)
    ensures Parts(item, key) == QueryParts(Params(item, key))
  {
    var fps, batch := Itoa(item.options.vp8FPS), Itoa(item.options.vp8Batch);
    QueryPartsOfPieces(
      [("k", key), ("t", item.transport)], if item.transport == "vp8channel" then [("f", fps), ("b", batch)] else [],
      [("c", item.clientID)], if CarriesToken(item) then [("a", item.authToken)] else [],
      if item.dns != "" then [("d", item.dns)] else []);
    ItoaUnreserved(item.options.vp8FPS);
    ItoaUnreserved(item.options.vp8Batch);
    PartEscaped("k", key);
    PartEscaped("t", item.transport);
    PartEscaped("f", fps);
    PartEscaped("b", batch);
    PartEscaped("c", item.clientID);
    PartEscaped("a", item.authToken);
    PartEscaped("d", item.dns);
    QueryPartsOfOne(("k", key), ("t", item.transport));
    QueryPartsOfOne(("f", fps), ("b", batch));
    QueryPartsOfOne(("c", item.clientID), ("c", item.clientID));
    QueryPartsOfOne(("a", item.authToken), ("a", item.authToken));
    QueryPartsOfOne(("d", item.dns), ("d", item.dns));
  }

  lemma ParamsPlain(item: Plain, key: string)
    requires Printable(item, key) && Bytes(item, "")
    ensures PlainPairs(Params(item, key))
  {
    ItoaUnreserved(item.options.vp8FPS);
    ItoaUnreserved(item.options.vp8Batch);
  }

  lemma PrintShape(item: Plain, key: string, name: string)
    requires Printable(item, key)
    ensures Print(item, key, name) == Some(Assemble(item.provider, item.roomID, Params(item, key), name))
  {
    PartsArePairs(item, key);
    ClientEscapeIsOnePass(item.roomID);
    ClientEscapeIsOnePass(name);
  }

  // A plain word: what provider names are made of.
  predicate Word(s: string) {
    s != "" && forall i :: 0 <= i < |s| ==> IsDigit(s[i]) || 'a' <= s[i] <= 'z'
  }

  predicate UriChar(c: char) {
    EscapedChar(c) || c in {':', '/', '@', '?', '&', '=', '#'}
  }

  predicate UriText(s: string) {
    forall i :: 0 <= i < |s| ==> UriChar(s[i])
  }

  lemma UriTextConcat(a: string, b: string)
    requires UriText(a) && UriText(b)
    ensures UriText(a + b)
  {}

  lemma UriTextPlain(s: string)
    requires UriText(s) && s != ""
    ensures TrimSpace(s) == s && !HasControl(s)
  {
    FramedTrimmed(s);
    TrimmedFixed(s);
  }

  lemma {:induction false} QueryUriText(params: Pairs)
    requires PlainPairs(params)
    ensures UriText(Join(QueryParts(params), '&'))
  {
    var q := Join(QueryParts(params), '&');
    forall i | 0 <= i < |q|
      ensures UriChar(q[i])
    {
      if !UriChar(q[i]) {
        QueryLacks(params, q[i]);
      }
    }
  }

  lemma PrefixText(provider: string, room: string)
    requires Word(provider)
    ensures UriText(Prefix(provider, room))
    ensures '#' !in Prefix(provider, room) && '?' !in Prefix(provider, room)
  {
    EscapeChars(room);
  }

  const SCHEME: string := "olcrtc"

  lemma SchemeWord()
    ensures ValidScheme(SCHEME) && ToLower(SCHEME) == SCHEME && ':' !in SCHEME
  {
    ToLowerId(SCHEME);
  }

  function Hier(provider: string, path: string): string {
    "//" + (Authority(provider) + ['/'] + path)
  }

  function PrintedUrl(provider: string, room: string, query: string, name: string): Url {
    Url(SCHEME, Some(Userinfo(provider, None)), ROOM_HOST, "/" + room, query, name)
  }

  // The host every printed URI names.
  const ROOM_HOST: string := "r"

  lemma ShortHost(host: string)
    requires |host| == 1 && IsAlnum(host[0])
    ensures ValidHost(host) && '@' !in host && '/' !in host && '?' !in host
  {
    var c := host[0];
    assert c != ':' && c != '@' && c != '/' && c != '?' && c != '%';
    assert Index(host, ':') < 0;
    assert HostChar(c);
    hide Index, IsAlnum, HostChar;
  }

  function Authority(provider: string): string {
    provider + ['@'] + ROOM_HOST
  }

  lemma AuthorityLacks(provider: string, c: char)
    requires c !in provider && c != '@' && !IsAlnum(c)
    ensures c !in Authority(provider)
  {}

  lemma WordLacks(s: string, c: char)
    requires Word(s) && !IsAlnum(c)
    ensures c !in s
  {}

  lemma AuthorityParses(provider: string)
    requires Word(provider)
    ensures ParseAuthority(Authority(provider)) == Some((Some(Userinfo(provider, None)), ROOM_HOST))
  {
    ShortHost(ROOM_HOST);
    ParseAuthorityAt(provider, ROOM_HOST);
  }

  lemma HierLacks(authority: string, path: string)
    requires '?' !in authority && '?' !in path
    ensures '?' !in "//" + (authority + ['/'] + path)
  {}

  lemma {:induction false} HierParses(provider: string, path: string, url: Url)
    requires Word(provider) && '?' !in path
    requires url.user == Some(Userinfo(provider, None)) && url.host == ROOM_HOST
    requires Unescape(['/'] + path, false) == Some(url.path)
    ensures ParseHierarchy(url.scheme, Hier(provider, path), url.rawQuery, url.fragment) == Some(url)
    ensures '?' !in Hier(provider, path)
  {
    WordLacks(provider, '/');
    WordLacks(provider, '?');
    AuthorityLacks(provider, '/');
    AuthorityLacks(provider, '?');
    AuthorityParses(provider);
    HierLacks(Authority(provider), path);
    ParseHierarchyAt(Authority(provider), path, url);
  }

  lemma BodyText(provider: string, room: string, query: string)
    requires Word(provider) && UriText(query) && '#' !in query
    ensures var body := Prefix(provider, room) + "?" + query;
            UriText(body) && '#' !in body && !HasControl(body)
  {
    PrefixText(provider, room);
    UriTextConcat(Prefix(provider, room), "?");
    UriTextConcat(Prefix(provider, room) + "?", query);
    UriTextPlain(Prefix(provider, room) + "?" + query);
  }

  lemma {:induction false} BodyParses(provider: string, path: string, frag: string, url: Url)
    requires Word(provider) && '?' !in path
    requires url.scheme == SCHEME && url.user == Some(Userinfo(provider, None)) && url.host == ROOM_HOST
    requires Unescape(['/'] + path, false) == Some(url.path)
    requires Unescape(frag, false) == Some(url.fragment)
    ensures var body := SCHEME + [':'] + (Hier(provider, path) + ['?'] + url.rawQuery);
            '#' !in body && !HasControl(body) ==>
              && ParseAbsolute(body + ['#'] + frag, false) == Some(url)
              && (frag == "" ==> ParseAbsolute(body, false) == Some(url))
  {
    SchemeWord();
    HierParses(provider, path, url);
    ParseBody(SCHEME, Hier(provider, path), frag, url);
  }

  lemma {:induction false} FragmentShape(body: string, name: string)
    ensures body + FragmentOf(name) == if name == "" then body else body + ['#'] + Escape(name)
    ensures name == "" ==> Escape(name) == ""
  {}

  lemma BodyCuts(provider: string, room: string, query: string, name: string)
    requires Word(provider) && ByteString(room) && ByteString(name)
    requires UriText(query) && '#' !in query
    ensures ParseAbsolute(Prefix(provider, room) + "?" + query + FragmentOf(name), false)
         == Some(PrintedUrl(provider, room, query, name))
  {
    var body := Prefix(provider, room) + "?" + query;
    BodyText(provider, room, query);
    BodyShape(provider, Escape(room), query);
    var path, frag := Escape(room), Escape(name);
    assert '?' !in path by { EscapeLacks(room, '?'); }
    PathDecodes(room);
    UnescapeEscape(name, false);
    FragmentShape(body, name);
    BodyParses(provider, path, frag, PrintedUrl(provider, room, query, name));
  }

  lemma BodyShape(provider: string, path: string, query: string)
    ensures "olcrtc://" + provider + "@r/" + path + "?" + query
         == SCHEME + [':'] + (Hier(provider, path) + ['?'] + query)
  {}

  lemma {:induction false} PathDecodes(room: string)
    requires ByteString(room)
    ensures Unescape(['/'] + Escape(room), false) == Some("/" + room)
  {
    UnescapeEscape(room, false);
    assert (['/'] + Escape(room))[1..] == Escape(room);
  }

  lemma AssembleText(provider: string, room: string, query: string, name: string)
    requires Word(provider) && UriText(query) && '#' !in query
    ensures var raw := Prefix(provider, room) + "?" + query + FragmentOf(name);
            TrimSpace(raw) == raw
  {
    BodyText(provider, room, query);
    EscapeChars(name);
    UriTextConcat(Prefix(provider, room) + "?" + query, FragmentOf(name));
    UriTextPlain(Prefix(provider, room) + "?" + query + FragmentOf(name));
  }

  /** Cutting an assembled URI gives back what it was assembled from. */
  lemma AssembleCuts(provider: string, room: string, params: Pairs, name: string)
    requires Word(provider) && ByteString(room) && ByteString(name)
    requires PlainPairs(params) && params != []
    ensures CutUri(Assemble(provider, room, params, name)) == Some(ClientFields(provider, "/" + room, params, name))
  {
    var query := Join(QueryParts(params), '&');
    ToLowerId(provider);
    WordNonEmpty(provider);
    hide Join, QueryParts, ParseAbsolute, ParseQuery, TrimSpace, CutUri, Word, PlainPairs, UriText, Prefix,
        FragmentOf, ByteString;
    QueryUriText(params);
    QueryLacks(params, '#');
    AssembleText(provider, room, query, name);
    BodyCuts(provider, room, query, name);
    ParseQueryRoundTrip(params);
    CutsTo(Assemble(provider, room, params, name), PrintedUrl(provider, room, query, name), provider, params);
  }

  lemma WordNonEmpty(provider: string)
    requires Word(provider)
    ensures provider != ""
  {}

  lemma {:induction false} CutsTo(raw: string, url: Url, provider: string, params: Pairs)
    requires TrimSpace(raw) == raw && ParseAbsolute(raw, false) == Some(url)
    requires url.scheme == SCHEME && url.user == Some(Userinfo(provider, None)) && provider != "" && url.host != ""
    requires ParseQuery(url.rawQuery) == Some(params)
    ensures CutUri(raw) == Some(ClientFields(ToLower(provider), url.path, params, url.fragment))
  {
    hide ParseAbsolute, ParseQuery, TrimSpace, ToLower;
  }

  // ---------- acceptance ----------

  ghost predicate DistinctNames(p: Pairs) {
    forall i, j :: 0 <= i < j < |p| ==> p[i].0 != p[j].0
  }

  lemma {:induction false} LookupMember(p: Pairs, q: (string, string))
    requires DistinctNames(p) && q in p
    ensures Lookup(p, q.0) == Some(q.1) && Count(p, q.0) == 1
  {
    assert p == [p[0]] + p[1..];
    if p[0] == q {
      LookupAbsent(p[1..], q.0);
    } else {
      LookupMember(p[1..], q);
    }
  }

  lemma {:induction false} LookupAbsent(p: Pairs, name: string)
    requires forall i :: 0 <= i < |p| ==> p[i].0 != name
    ensures Lookup(p, name) == None && Count(p, name) == 0
  {
    if p != [] {
      LookupAbsent(p[1..], name);
    }
  }

  // A parameter printed under its short name and under no other alias.
  lemma {:induction false} ParameterGiven(p: Pairs, long: string, short: string, value: string)
    requires DistinctNames(p) && (short, value) in p
    requires forall i :: 0 <= i < |p| ==> p[i].0 != long
    ensures Parameter(p, [long, short]) == Some(value)
  {
    LookupMember(p, (short, value));
    LookupAbsent(p, long);
    assert [long, short][1..] == [short] && [short][1..] == [];
  }

  lemma {:induction false} ParameterMissing(p: Pairs, long: string, short: string)
    requires forall i :: 0 <= i < |p| ==> p[i].0 != long && p[i].0 != short
    ensures Parameter(p, [long, short]) == Some("")
  {
    LookupAbsent(p, short);
    LookupAbsent(p, long);
    assert [long, short][1..] == [short] && [short][1..] == [];
    assert Parameter(p, []) == Some("") && Parameter(p, [short]) == Some("");
  }

  // Printed names are single letters, so no long alias is ever printed.
  lemma PrintedNames(item: Plain, key: string)
    ensures forall i :: 0 <= i < |Params(item, key)| ==> |Params(item, key)[i].0| == 1
    ensures DistinctNames(Params(item, key))
  {}

  lemma PrintedIdentity(item: Plain, key: string, f: ClientFields)
    requires Printable(item, key)
    requires f.params == Params(item, key) && f.provider == item.provider
    ensures AcceptIdentity(f)
  {
    hide Parameter, Params, ValidKey, TrimSpace, ToLower;
    PrintedCore(item, key);
    LowerTransport(item, key);
  }

  lemma LowerTransport(item: Plain, key: string)
    requires Printable(item, key)
    ensures ToLower(item.transport) == item.transport && item.transport != ""
  {
    hide ValidKey, TrimSpace, ContainsAny;
    ToLowerId(item.transport);
  }

  lemma PrintedCore(item: Plain, key: string)
    ensures Parameter(Params(item, key), ["key", "k"]) == Some(key)
    ensures Parameter(Params(item, key), ["transport", "t"]) == Some(item.transport)
    ensures Parameter(Params(item, key), ["client_id", "c"]) == Some(item.clientID)
  {
    var p := Params(item, key);
    PrintedNames(item, key);
    assert ("k", key) in p && ("t", item.transport) in p && ("c", item.clientID) in p;
    hide Parameter, Params;
    ParameterGiven(p, "key", "k", key);
    ParameterGiven(p, "transport", "t", item.transport);
    ParameterGiven(p, "client_id", "c", item.clientID);
  }

  lemma PrintedNumber(item: Plain, key: string, long: string, short: string, value: int64, low: int, high: int)
    requires |long| > 1
    requires (short == "f" && value == item.options.vp8FPS) || (short == "b" && value == item.options.vp8Batch)
    ensures AcceptNumber(Params(item, key), [long, short], low, high)
       <==> (item.transport == "vp8channel" ==> low <= value <= high)
  {
    var p := Params(item, key);
    PrintedNames(item, key);
    InRangeItoa(value, low, high);
    if item.transport == "vp8channel" {
      ParameterGiven(p, long, short, Itoa(value));
    } else {
      ParameterMissing(p, long, short);
    }
  }

  lemma PrintedDns(isIP: string -> bool, item: Plain, key: string)
    ensures AcceptDns(isIP, Params(item, key)) <==> (item.dns != "" ==> NumericAddress(isIP, item.dns))
  {
    var p := Params(item, key);
    PrintedNames(item, key);
    if item.dns != "" {
      ParameterGiven(p, "dns", "d", item.dns);
    } else {
      ParameterMissing(p, "dns", "d");
    }
  }

  lemma PrintedToken(item: Plain, key: string)
    ensures AcceptOptional(Params(item, key))
  {
    var p := Params(item, key);
    PrintedNames(item, key);
    ParameterMissing(p, "room_password", "rp");
    LookupAbsent(p, "auth_token");
    var names := ["auth_token", "auth.token", "a"];
    assert names[1..] == ["auth.token", "a"];
    if CarriesToken(item) {
      ParameterGiven(p, "auth.token", "a", item.authToken);
    } else {
      ParameterMissing(p, "auth.token", "a");
    }
  }

  lemma PrintedNoKeepalive(item: Plain, key: string)
    ensures AcceptNumber(Params(item, key), ["keepalive", "ka"], 0, 3600)
  {
    PrintedNames(item, key);
    ParameterMissing(Params(item, key), "keepalive", "ka");
  }

  lemma PrintedAllowed(item: Plain, key: string)
    ensures KnownOnce(Params(item, key))
  {
    var p := Params(item, key);
    PrintedNames(item, key);
    forall i | 0 <= i < |p|
      ensures p[i].0 in ALLOWED && Count(p, p[i].0) == 1
    {
      LookupMember(p, p[i]);
    }
  }

  // When an Android client takes the values that the panel itself allows.
  predicate WithinClientLimits(isIP: string -> bool, item: Plain) {
    && (item.transport == "vp8channel" ==> 1 <= item.options.vp8FPS <= 120 && 1 <= item.options.vp8Batch <= 64)
    && (item.dns != "" ==> NumericAddress(isIP, item.dns))
  }

  lemma InRangeItoa(n: int64, low: int, high: int)
    ensures InRange(Itoa(n), low, high) <==> low <= n <= high
    ensures InRange("", low, high)
  {
    AtoiItoa(n);
    ItoaUnreserved(n);
  }

  lemma PrintedAccepted(isIP: string -> bool, item: Plain, key: string, name: string)
    requires Printable(item, key)
    ensures AcceptFields(isIP, ClientFields(item.provider, "/" + item.roomID, Params(item, key), name))
       <==> WithinClientLimits(isIP, item)
  {
    var f := ClientFields(item.provider, "/" + item.roomID, Params(item, key), name);
    PrintedAllowed(item, key);
    PrintedIdentity(item, key, f);
    PrintedToken(item, key);
    PrintedNumber(item, key, "vp8_fps", "f", item.options.vp8FPS, 1, 120);
    PrintedNumber(item, key, "vp8_batch", "b", item.options.vp8Batch, 1, 64);
    PrintedNoKeepalive(item, key);
    PrintedDns(isIP, item, key);
  }

  lemma ProviderWord(item: Plain, key: string)
    requires Printable(item, key)
    ensures Word(item.provider)
  {}

  // ---------- what a printed URI shows ----------

  const TOKEN_NAMES: seq<string> := ["auth_token", "auth.token", "a"]

  predicate ShowsNumber(params: Pairs, names: seq<string>, value: int64) {
    Parameter(params, names).Some? && Atoi(Parameter(params, names).value) == Some(value as int)
  }

  // The token parameter is given exactly when a token is shown, and has its value.
  predicate ShowsToken(params: Pairs, token: Option<string>) {
    && ((exists i :: 0 <= i < |params| && params[i].0 in TOKEN_NAMES) <==> token.Some?)
    && (token.Some? ==> Parameter(params, TOKEN_NAMES) == token)
  }

  predicate ShowsParams(params: Pairs, item: Plain, key: string) {
    && Parameter(params, ["key", "k"]) == Some(key) && Parameter(params, ["transport", "t"]) == Some(item.transport)
    && Parameter(params, ["client_id", "c"]) == Some(item.clientID) && Parameter(params, ["dns", "d"]) == Some(item.dns)
    && (if item.transport == "vp8channel" then
          && ShowsNumber(params, ["vp8_fps", "f"], item.options.vp8FPS)
          && ShowsNumber(params, ["vp8_batch", "b"], item.options.vp8Batch)
        else Parameter(params, ["vp8_fps", "f"]) == Some("") && Parameter(params, ["vp8_batch", "b"]) == Some(""))
  }

  /** Read under the validator's names, the pieces are those of the instance, with this token. */
  predicate Shows(f: ClientFields, item: Plain, key: string, name: string, token: Option<string>) {
    && f.provider == item.provider && f.room == "/" + item.roomID && f.name == name
    && ShowsParams(f.params, item, key) && ShowsToken(f.params, token)
  }

  lemma ShownNumber(item: Plain, key: string, long: string, short: string, value: int64)
    requires |long| > 1
    requires (short == "f" && value == item.options.vp8FPS) || (short == "b" && value == item.options.vp8Batch)
    ensures if item.transport == "vp8channel" then ShowsNumber(Params(item, key), [long, short], value)
            else Parameter(Params(item, key), [long, short]) == Some("")
  {
    var p := Params(item, key);
    PrintedNames(item, key);
    AtoiItoa(value);
    if item.transport == "vp8channel" {
      ParameterGiven(p, long, short, Itoa(value));
    } else {
      ParameterMissing(p, long, short);
    }
  }

  lemma ShownDns(item: Plain, key: string)
    ensures Parameter(Params(item, key), ["dns", "d"]) == Some(item.dns)
  {
    var p := Params(item, key);
    PrintedNames(item, key);
    if item.dns != "" {
      ParameterGiven(p, "dns", "d", item.dns);
    } else {
      ParameterMissing(p, "dns", "d");
    }
  }

  lemma ShownToken(item: Plain, key: string)
    ensures ShowsToken(Params(item, key), if CarriesToken(item) then Some(item.authToken) else None)
  {
    var p := Params(item, key);
    PrintedNames(item, key);
    LookupAbsent(p, "auth_token");
    assert TOKEN_NAMES[1..] == ["auth.token", "a"] && TOKEN_NAMES[0] == "auth_token";
    if CarriesToken(item) {
      ParameterGiven(p, "auth.token", "a", item.authToken);
      assert ("a", item.authToken) in p;
    } else {
      ParameterMissing(p, "auth.token", "a");
    }
  }

  lemma PrintedShows(item: Plain, key: string, name: string)
    ensures Shows(ClientFields(item.provider, "/" + item.roomID, Params(item, key), name), item, key, name,
                  if CarriesToken(item) then Some(item.authToken) else None)
  {
    hide Params, ShowsToken, ShowsNumber, Parameter, CarriesToken, TOKEN_NAMES;
    PrintedCore(item, key);
    ShownDns(item, key);
    ShownNumber(item, key, "vp8_fps", "f", item.options.vp8FPS);
    ShownNumber(item, key, "vp8_batch", "b", item.options.vp8Batch);
    ShownToken(item, key);
  }

  /**
   The round trip: cutting a printed URI returns the provider, the room, every parameter and
   the name exactly.  The panel's own validator then accepts the URI if and only if it fits
   16 KiB and the instance stays within the client's limits, which are narrower than those of
   `Validate`.
   */
  lemma ClientRoundTrip(isIP: string -> bool, item: Plain, key: string, name: string)
    requires Printable(item, key) && Bytes(item, name)
    ensures var uri := Print(item, key, name).value;
            && CutUri(uri) == Some(ClientFields(item.provider, "/" + item.roomID, Params(item, key), name))
            && Shows(CutUri(uri).value, item, key, name,
                     if item.provider == "wbstream" && !item.omitClientAuthToken then Some(item.authToken) else None)
            && (Accepts(isIP, uri) <==> |uri| <= MAX_URI && WithinClientLimits(isIP, item))
  {
    PrintedShows(item, key, name);
    hide Shows;
    ProviderWord(item, key);
    PrintShape(item, key, name);
    ParamsPlain(item, key);
    AssembleCuts(item.provider, item.roomID, Params(item, key), name);
    PrintedAccepted(isIP, item, key, name);
  }

  /** Two instances that print alike agree on everything the URI is about. */
  lemma PrintInjective(a: Plain, b: Plain, key: string, key': string, name: string, name': string)
    requires Printable(a, key) && Bytes(a, name) && Printable(b, key') && Bytes(b, name')
    requires Print(a, key, name) == Print(b, key', name')
    ensures a.provider == b.provider && a.roomID == b.roomID && name == name'
    ensures Params(a, key) == Params(b, key')
  {
    var isIP := (s: string) => true;
    ClientRoundTrip(isIP, a, key, name);
    ClientRoundTrip(isIP, b, key', name');
    assert ("/" + a.roomID)[1..] == a.roomID && ("/" + b.roomID)[1..] == b.roomID;
  }
}
