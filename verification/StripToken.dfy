/** StripAuthToken (internal/instance/uri.go): removing the WB token from a printed Client URI. */
module StripToken {
  import opened Text
  import opened Percent
  import opened GoUrl
  import opened InstanceConfig
  import opened ClientUri

  predicate TokenPart(part: string) {
    var name := Cut(part, '=').0;
    name == "a" || name == "auth_token" || name == "auth.token"
  }

  function Keep(parts: seq<string>): seq<string> {
    if parts == [] then [] else (if TokenPart(parts[0]) then [] else [parts[0]]) + Keep(parts[1..])
  }

  function StripQuery(query: string): string {
    Join(Keep(Split(query, '&')), '&')
  }

  predicate NotClientShaped(uri: string) {
    Index(uri, '@') < 0 || Index(uri, '?') < 0 || Index(uri, '?') < Index(uri, '@')
  }

  function Strip(uri: string): string {
    if NotClientShaped(uri) then uri
    else
      var q, frag := Index(uri, '?'), Index(uri, '#');
      var queryEnd := if frag > q then frag else |uri|;
      uri[..q + 1] + StripQuery(uri[q + 1..queryEnd]) + if frag >= 0 then uri[frag..] else ""
  }

  method FilterParts(parts: seq<string>) returns (filtered: seq<string>)
    ensures filtered == Keep(parts)
  {
    hide TokenPart;
    filtered := [];
    for i := 0 to |parts|
      invariant filtered == Keep(parts[..i])
    {
      KeepOne(parts[..i], parts[i]);
      assert parts[..i] + [parts[i]] == parts[..i + 1];
      if !TokenPart(parts[i]) {
        filtered := filtered + [parts[i]];
      }
    }
    assert parts[..|parts|] == parts;
  }

  method StripAuthToken(uri: string) returns (stripped: string)
    ensures stripped == Strip(uri)
  {
    var at, q := Index(uri, '@'), Index(uri, '?');
    if at < 0 || q < 0 || q < at {
      return uri;
    }
    var frag := Index(uri, '#');
    var queryEnd := |uri|;
    if frag > q {
      queryEnd := frag;
    }
    var filtered := FilterParts(Split(uri[q + 1..queryEnd], '&'));
    var tail := "";
    if frag >= 0 {
      tail := uri[frag..];
    }
    stripped := uri[..q + 1] + Join(filtered, '&') + tail;
  }

  lemma {:induction false} KeepMembers(parts: seq<string>)
    ensures forall p :: p in Keep(parts) <==> p in parts && !TokenPart(p)
  {
    hide TokenPart;
    if parts != [] {
      KeepMembers(parts[1..]);
    }
  }

  lemma {:induction false} KeepKept(parts: seq<string>)
    requires forall p :: p in parts ==> !TokenPart(p)
    ensures Keep(parts) == parts
  {
    if parts != [] {
      KeepKept(parts[1..]);
    }
  }

  lemma {:induction false} KeepConcat(a: seq<string>, b: seq<string>)
    ensures Keep(a + b) == Keep(a) + Keep(b)
  {
    hide TokenPart;
    if a == [] {
      assert a + b == b;
    } else {
      assert (a + b)[1..] == a[1..] + b;
      KeepConcat(a[1..], b);
    }
  }

  lemma {:induction false} KeepOne(parts: seq<string>, part: string)
    ensures Keep(parts + [part]) == Keep(parts) + if TokenPart(part) then [] else [part]
  {
    hide TokenPart;
    KeepConcat(parts, [part]);
  }

  lemma StripQueryLacks(query: string, c: char)
    requires c != '&' && c !in query
    ensures c !in StripQuery(query)
  {
    var parts := Split(query, '&');
    forall p | p in parts
      ensures c !in p
    {
      SplitChars(query, '&', c);
    }
    KeepMembers(parts);
    JoinLacks(Keep(parts), '&', c);
  }

  lemma {:induction false} SplitChars(s: string, sep: char, c: char)
    requires c !in s
    ensures forall p :: p in Split(s, sep) ==> c !in p
    decreases |s|
  {
    var (head, tail, found) := Cut(s, sep);
    if found {
      SplitChars(tail, sep, c);
    }
  }

  /** What is left of a query are exactly its other parts, in their order. */
  lemma {:induction false} StripQueryParts(query: string)
    ensures var kept := Keep(Split(query, '&'));
            Split(StripQuery(query), '&') == if kept == [] then [""] else kept
  {
    var kept := Keep(Split(query, '&'));
    KeepMembers(Split(query, '&'));
    if kept != [] {
      SplitJoin(kept, '&');
    }
  }

  lemma StripQueryIdempotent(query: string)
    ensures StripQuery(StripQuery(query)) == StripQuery(query)
  {
    StripQueryParts(query);
    var kept := Keep(Split(query, '&'));
    KeepMembers(Split(query, '&'));
    if kept == [] {
      assert Keep([""]) == [""];
    } else {
      KeepKept(kept);
    }
  }

  predicate TailShape(tail: string) {
    tail == "" || tail[0] == '#'
  }

  lemma PiecesIndices(pre: string, query: string, tail: string)
    requires '@' in pre && '?' !in pre && '#' !in pre && '#' !in query && TailShape(tail)
    ensures var uri := pre + ['?'] + (query + tail);
            && Index(uri, '?') == |pre|
            && 0 <= Index(uri, '@') < |pre|
            && Index(uri, '#') == if tail == "" then -1 else |pre| + 1 + |query|
  {
    var uri := pre + ['?'] + (query + tail);
    IndexAt(pre, '?', query + tail);
    assert uri[Index(pre, '@')] == '@';
    if tail == "" {
      assert uri == pre + ['?'] + query;
    } else {
      assert uri == (pre + ['?'] + query) + ['#'] + tail[1..];
      IndexAt(pre + ['?'] + query, '#', tail[1..]);
    }
  }

  lemma PiecesSlices(pre: string, query: string, tail: string)
    ensures var uri := pre + ['?'] + (query + tail);
            var q, end := |pre|, |pre| + 1 + |query|;
            uri[..q + 1] == pre + ['?'] && uri[q + 1..end] == query && uri[end..] == tail
  {}

  // A URI given as everything before the query, the query, and the fragment with its mark.
  lemma StripPieces(pre: string, query: string, tail: string)
    requires '@' in pre && '?' !in pre && '#' !in pre && '#' !in query && TailShape(tail)
    ensures Strip(pre + ['?'] + (query + tail)) == pre + ['?'] + (StripQuery(query) + tail)
  {
    hide StripQuery, Index;
    PiecesIndices(pre, query, tail);
    PiecesSlices(pre, query, tail);
    Regrouped(pre, StripQuery(query), tail);
    Regrouped(pre, query, tail);
  }

  // Where the guard of StripAuthToken goes wrong: a '#' before the query's '?'.
  predicate EarlyFragment(uri: string) {
    !NotClientShaped(uri) && 0 <= Index(uri, '#') < Index(uri, '?')
  }

  lemma SplitUri(uri: string) returns (pre: string, query: string, tail: string)
    requires !NotClientShaped(uri) && !EarlyFragment(uri)
    ensures '@' in pre && '?' !in pre && '#' !in pre && '#' !in query && TailShape(tail)
    ensures uri == pre + ['?'] + (query + tail)
  {
    var q, frag := Index(uri, '?'), Index(uri, '#');
    assert uri[q] == '?' && uri[Index(uri, '@')] == '@';
    var end := if frag > q then frag else |uri|;
    pre, query, tail := uri[..q], uri[q + 1..end], uri[end..];
    assert pre[Index(uri, '@')] == '@';
  }

  /** Stripping twice is stripping once, except on exactly the URIs with an early fragment. */
  lemma StripIdempotentIff(uri: string)
    ensures Strip(Strip(uri)) == Strip(uri) <==> !EarlyFragment(uri)
  {
    if EarlyFragment(uri) {
      EarlyFragmentGrows(uri);
    } else if !NotClientShaped(uri) {
      var pre, query, tail := SplitUri(uri);
      StripPieces(pre, query, tail);
      StripQueryLacks(query, '#');
      StripPieces(pre, StripQuery(query), tail);
      StripQueryIdempotent(query);
    }
  }

  // The fragment is copied behind the rewritten query, so the text keeps growing.
  lemma {:induction false} EarlyFragmentShape(uri: string)
    requires EarlyFragment(uri)
    ensures var q := Index(uri, '?');
            && |Strip(uri)| >= q + 1 + |uri| - Index(uri, '#')
            && Strip(uri)[..q + 1] == uri[..q + 1]
  {
    hide StripQuery, Index;
    var q, frag := Index(uri, '?'), Index(uri, '#');
    assert Strip(uri) == uri[..q + 1] + (StripQuery(uri[q + 1..|uri|]) + uri[frag..]);
  }

  lemma EarlyFragmentGrows(uri: string)
    requires EarlyFragment(uri)
    ensures EarlyFragment(Strip(uri))
    ensures |Strip(Strip(uri))| > |Strip(uri)|
  {
    hide Strip, Index;
    var r, q := Strip(uri), Index(uri, '?');
    EarlyFragmentShape(uri);
    SamePrefixIndex(uri, r, q, '?');
    SamePrefixIndex(uri, r, q, '@');
    SamePrefixIndex(uri, r, q, '#');
    EarlyFragmentShape(r);
  }

  lemma {:induction false} SamePrefixIndex(a: string, b: string, q: nat, c: char)
    requires q < |a| && q < |b| && b[..q + 1] == a[..q + 1]
    requires 0 <= Index(a, c) <= q
    ensures Index(b, c) == Index(a, c)
  {
    assert forall i :: 0 <= i <= q ==> b[i] == b[..q + 1][i] == a[..q + 1][i] == a[i];
    assert b[Index(a, c)] == c;
  }

  /** After stripping, no query part carries a token, and the other parts keep their order. */
  lemma StripRemovesToken(uri: string) returns (pre: string, query: string, tail: string)
    requires !NotClientShaped(uri) && !EarlyFragment(uri)
    ensures uri == pre + ['?'] + (query + tail) && '?' !in pre && '#' !in query && TailShape(tail)
    ensures Strip(uri) == pre + ['?'] + (StripQuery(query) + tail)
    ensures forall p :: p in Split(StripQuery(query), '&') ==> !TokenPart(p)
    ensures Keep(Split(query, '&')) != [] ==> Split(StripQuery(query), '&') == Keep(Split(query, '&'))
  {
    hide *;
    pre, query, tail := SplitUri(uri);
    StripPieces(pre, query, tail);
    StripQueryParts(query);
    StripQueryTokenFree(query);
  }

  lemma StripQueryTokenFree(query: string)
    ensures forall p :: p in Split(StripQuery(query), '&') ==> !TokenPart(p)
  {
    StripQueryParts(query);
    KeepMembers(Split(query, '&'));
    assert !TokenPart("");
    hide TokenPart, StripQuery, Keep;
  }

  // ---------- stripping equals omitting ----------

  lemma TokenParts(name: string, value: string)
    requires '=' !in name
    ensures TokenPart(Part(name, value)) <==> name == "a" || name == "auth_token" || name == "auth.token"
  {
    CutAt(name, '=', value);
    assert Part(name, value) == name + ['='] + value;
  }

  lemma {:induction false} KeepAround(front: seq<string>, token: string, back: seq<string>)
    requires forall p :: p in front ==> !TokenPart(p)
    requires forall p :: p in back ==> !TokenPart(p)
    requires TokenPart(token)
    ensures Keep(front + [token] + back) == front + back
  {
    hide TokenPart, Keep;
    KeepKept(front);
    KeepKept(back);
    KeepOne(front, token);
    KeepConcat(front + [token], back);
  }

  function FrontParts(item: Plain, key: string): seq<string> {
    [Part("k", ClientEscape(key)), Part("t", ClientEscape(item.transport))]
    + (if item.transport == "vp8channel"
        then [Part("f", Itoa(item.options.vp8FPS)), Part("b", Itoa(item.options.vp8Batch))] else [])
    + [Part("c", ClientEscape(item.clientID))]
  }

  lemma FrontPartsKept(item: Plain, key: string)
    ensures forall p :: p in FrontParts(item, key) ==> !TokenPart(p)
  {
    hide TokenPart, ClientEscape, Part, Itoa;
    TokenParts("k", ClientEscape(key));
    TokenParts("t", ClientEscape(item.transport));
    TokenParts("f", Itoa(item.options.vp8FPS));
    TokenParts("b", Itoa(item.options.vp8Batch));
    TokenParts("c", ClientEscape(item.clientID));
  }

  lemma KeepParts(item: Plain, key: string)
    requires CarriesToken(item)
    ensures Keep(Parts(item, key)) == Parts(item.(omitClientAuthToken := true), key)
  {
    hide TokenPart, ClientEscape, Part, Itoa, Keep;
    var token := Part("a", ClientEscape(item.authToken));
    var dns := if item.dns != "" then [Part("d", ClientEscape(item.dns))] else [];
    FrontPartsKept(item, key);
    TokenParts("a", ClientEscape(item.authToken));
    TokenParts("d", ClientEscape(item.dns));
    KeepAround(FrontParts(item, key), token, dns);
    assert Parts(item, key) == FrontParts(item, key) + [token] + dns;
    assert Parts(item.(omitClientAuthToken := true), key) == FrontParts(item, key) + dns;
  }

  lemma PrintedQuery(item: Plain, key: string)
    requires Printable(item, key) && Bytes(item, "") && CarriesToken(item)
    ensures var query := Join(QueryParts(Params(item, key)), '&');
            && '#' !in query
            && StripQuery(query) == Join(QueryParts(Params(item.(omitClientAuthToken := true), key)), '&')
  {
    var params := Params(item, key);
    ParamsPlain(item, key);
    QueryLacks(params, '#');
    QueryPartsLackAmp(params);
    SplitJoin(QueryParts(params), '&');
    PartsArePairs(item, key);
    PartsArePairs(item.(omitClientAuthToken := true), key);
    KeepParts(item, key);
  }

  /**
   For every WB instance with a token, taking the token out of its URI gives the URI of the
   same instance with the omit flag set.
   */
  lemma StrippingEqualsOmitting(item: Plain, key: string, name: string)
    requires Printable(item, key) && Bytes(item, name) && CarriesToken(item)
    ensures Print(item.(omitClientAuthToken := true), key, name) == Some(Strip(Print(item, key, name).value))
  {
    var omitted := item.(omitClientAuthToken := true);
    PrintShape(item, key, name);
    PrintShape(omitted, key, name);
    PrintedQuery(item, key);
    ProviderWord(item, key);
    PrefixText(item.provider, item.roomID);
    StripAssembled(item.provider, item.roomID, Join(QueryParts(Params(item, key)), '&'), name);
  }

  lemma StripAssembled(provider: string, room: string, query: string, name: string)
    requires '?' !in Prefix(provider, room) && '#' !in Prefix(provider, room) && '#' !in query
    ensures Strip(Prefix(provider, room) + "?" + query + FragmentOf(name))
         == Prefix(provider, room) + "?" + StripQuery(query) + FragmentOf(name)
  {
    var pre, tail := Prefix(provider, room), FragmentOf(name);
    assert '@' in pre by { assert pre[|"olcrtc://" + provider|] == '@'; }
    assert TailShape(tail);
    hide Prefix, FragmentOf, StripQuery, Strip;
    StripPieces(pre, query, tail);
    Regrouped(pre, query, tail);
    Regrouped(pre, StripQuery(query), tail);
  }

  lemma Regrouped(pre: string, query: string, tail: string)
    ensures pre + "?" + query + tail == pre + ['?'] + (query + tail)
  {}

  lemma {:induction false} QueryPartsLackAmp(params: Pairs)
    requires PlainPairs(params)
    ensures forall p :: p in QueryParts(params) ==> '&' !in p
  {
    forall p | p in QueryParts(params)
      ensures '&' !in p
    {
      var i :| 0 <= i < |QueryParts(params)| && QueryParts(params)[i] == p;
      QueryPartLacks(params[i], '&');
    }
  }
}
