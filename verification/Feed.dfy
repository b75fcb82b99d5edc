/**
 Which entries a subscription feed includes and what traffic it reports
 (internal/subscription/service.go), over the URI printers, validators and the stripper.
 */
module Feed {
  import opened Text
  import opened Percent
  import opened GoUrl
  import opened InstanceConfig
  import C = ClientUri
  import S = StandardUri
  import M = InstanceManager
  import StripToken
  import T = FeedText

  // An instance as the feed sees it: its record with plain secrets, its key or "" when that
  // cannot be read, its counters.
  datatype Linked = Linked(item: Plain, key: string, total: int, upload: int, download: int)

  datatype Entry = Entry(
    source: Option<int>, rawURI: string, name: string, color: string, icon: string, ip: string, comment: string,
    manualUsed: Option<int>, manualAvailable: Option<int>, expires: Option<int>, enabled: bool)

  datatype Format = Client | Olcbox

  // The instances that can be loaded; an entry linked to any other is left out.
  type Instances = map<int, Linked>

  datatype Resolution = Broken | LeftOut | Included(uri: string)

  // Only a WB instance without a token whose own flag does not omit it lacks what a client URI shows.
  predicate LacksToken(item: Plain) {
    item.provider == "wbstream" && item.authToken == "" && !item.omitClientAuthToken
  }

  function LinkedUri(l: Linked, format: Format, subOmit: bool): Resolution {
    if format.Client? then
      var uri := C.Print(l.item, l.key, l.item.name);
      if uri.None? then Broken
      else Included(if l.item.provider == "wbstream" && subOmit then StripToken.Strip(uri.value) else uri.value)
    else
      var uri := S.Print(l.item, l.key, l.item.name);
      if uri.None? then Broken else Included(uri.value)
  }

  function ManualUri(isIP: string -> bool, text: string, format: Format): Resolution {
    var raw := TrimSpace(text);
    if (format.Client? && C.Accepts(isIP, raw)) || (format.Olcbox? && S.Accepts(raw)) then Included(raw) else LeftOut
  }

  /** resolveEntryForFormat */
  function Resolve(isIP: string -> bool, instances: Instances, e: Entry, format: Format, subOmit: bool): Resolution {
    if e.source.None? then ManualUri(isIP, e.rawURI, format)
    else if e.source.value !in instances then LeftOut
    else
      var l := instances[e.source.value];
      if format.Client? && (!C.ClientCompatible(l.item.provider, l.item.transport)
          || (LacksToken(l.item) && !subOmit)) then LeftOut
      else LinkedUri(l, format, subOmit)
  }

  // What the manager keeps true of a stored instance; all text is made of bytes.
  predicate Stored(checks: Checks, l: Linked) {
    Validate(checks, l.item) && C.Bytes(l.item, l.item.name)
  }

  // No client URI shows such an identity.
  predicate BadIdentity(clientID: string) {
    TrimSpace(clientID) == "" || ContainsAny(clientID, {'\r', '\n'})
  }

  lemma RoomIsPlain(room: string)
    requires !ContainsAny(room, {'\r', '\n', '?', '<', '>', '@', '#', '$', '\0'})
    ensures S.PlainText(room) && !ContainsAny(room, {'\r', '\n'})
  {}

  lemma StoredPrintable(checks: Checks, l: Linked)
    requires Stored(checks, l)
    ensures S.Printable(l.item, l.key) <==> C.ValidKey(l.key)
    ensures C.Printable(l.item, l.key)
            <==> (C.ValidKey(l.key) && C.ClientCompatible(l.item.provider, l.item.transport)
                  && !LacksToken(l.item) && !BadIdentity(l.item.clientID))
  {
    RoomIsPlain(l.item.roomID);
    hide ContainsAny, TrimSpace, C.ValidKey, RuneCount, ValidTransport, S.PlainText;
  }

  /**
   Exactly when one linked entry makes the whole feed fail.  In the OLCBOX format: when the
   key cannot be used.  In the client format the guard in front of the printer lets through
   compatible instances, and WB instances without a token only for a subscription that omits
   tokens; of these the printer refuses the ones whose key cannot be used, the ones without
   a token, at whose own flag alone it looks, and the ones whose identity is blank or broken.
   */
  lemma BrokenExactly(checks: Checks, isIP: string -> bool, instances: Instances, e: Entry, format: Format,
      subOmit: bool)
    requires e.source.Some? && e.source.value in instances && Stored(checks, instances[e.source.value])
    ensures var item := instances[e.source.value].item;
            Resolve(isIP, instances, e, format, subOmit).Broken? <==>
              match format
              case Olcbox => !C.ValidKey(instances[e.source.value].key)
              case Client =>
                && C.ClientCompatible(item.provider, item.transport) && (LacksToken(item) ==> subOmit)
                && (!C.ValidKey(instances[e.source.value].key) || LacksToken(item) || BadIdentity(item.clientID))
  {
    StoredPrintable(checks, instances[e.source.value]);
    hide C.Printable, S.Printable, Stored, StripToken.Strip, C.ClientCompatible, C.ValidKey, LacksToken, BadIdentity;
  }

  // ---------- instances as the manager stores them ----------

  // The instances of a consistent state; `counters` holds total, upload and download bytes.
  function FromManager(w: M.World, readable: set<int>, counters: map<int, (int, int, int)>): Instances {
    map id | id in w.rows && id in counters && M.PlainOf(w.rows[id]).Some? ::
      Linked(M.PlainOf(w.rows[id]).value, KeyOf(w.keys, id, id in readable), counters[id].0, counters[id].1,
          counters[id].2)
  }

  function KeyOf(keys: map<int, string>, id: int, readable: bool): string {
    var key := M.ReadKey(keys, id, readable);
    if key.Some? then key.value else ""
  }

  ghost predicate InBytes(instances: Instances) {
    forall id :: id in instances ==> C.Bytes(instances[id].item, instances[id].item.name)
  }

  /** Whatever the manager keeps consistent is stored in this sense. */
  lemma ManagerStores(checks: Checks, w: M.World, readable: set<int>, counters: map<int, (int, int, int)>)
    requires M.Consistent(checks, w) && InBytes(FromManager(w, readable, counters))
    ensures AllStored(checks, FromManager(w, readable, counters))
  {
    hide Validate, C.Bytes, M.Agrees, M.Unique;
  }

  /**
   A creation request with a blank or broken identity is stored as it is, and from then on the
   instance makes every client feed that links to it fail, whatever the subscription's flag.
   */
  lemma CreatedIdentity(checks: Checks, isIP: string -> bool, w: M.World, item: Plain, wbToken: Option<M.Secret>,
      id: int, drawn: string, f: M.Faults, dataPath: string, key: string, e: Entry, subOmit: bool)
    requires M.Consistent(checks, w) && Validate(checks, ApplyDefaults(item)) && id !in w.rows
    requires item.clientID != "" && BadIdentity(item.clientID)
    requires C.ClientCompatible(item.provider, item.transport) && (item.provider == "wbstream" ==> item.authToken != "")
    requires M.Manager.Seal(M.Manager.Draft(item, wbToken), id, drawn, f).Some?
    requires M.Fits(w.rows, M.Manager.Seal(M.Manager.Draft(item, wbToken), id, drawn, f).value)
    requires e.source == Some(id)
    ensures var row := M.Manager.Seal(M.Manager.Draft(item, wbToken), id, drawn, f).value;
            var after := M.Result(checks, w, M.Insertion(row, dataPath, key));
            && M.Consistent(checks, after) && row.clientID == item.clientID
            && Resolve(isIP, FromManager(after, {id}, map[id := (0, 0, 0)]), e, Client, subOmit).Broken?
  {
    hide Validate, M.Stores, ApplyDefaults, M.Renderable, M.Consistent, M.Fits, M.Rendered, M.Agrees, C.Printable,
         C.ClientCompatible, BadIdentity, M.Manager.Seal, M.ReadKey;
    M.SealedStores(checks, item, wbToken, id, drawn, f);
    var row := M.Manager.Seal(M.Manager.Draft(item, wbToken), id, drawn, f).value;
    M.ChangeKeeps(checks, w, M.Insertion(row, dataPath, key));
    StoredIdentity(row, item, wbToken);
    var after := M.Result(checks, w, M.Insertion(row, dataPath, key));
    assert after.rows[id] == row;
    Unprintable(M.PlainOf(row).value, KeyOf(after.keys, id, true));
    var l := FromManager(after, {id}, map[id := (0, 0, 0)])[id];
    assert l.item == M.PlainOf(row).value && l.key == KeyOf(after.keys, id, true);
  }

  lemma StoredIdentity(row: M.Row, item: Plain, wbToken: Option<M.Secret>)
    requires M.Stores(row, item, wbToken) && item.clientID != ""
    ensures M.PlainOf(row).Some? && M.PlainOf(row).value.clientID == item.clientID
    ensures M.PlainOf(row).value.provider == item.provider && M.PlainOf(row).value.transport == item.transport
    ensures item.provider == "wbstream" && item.authToken != "" ==> !LacksToken(M.PlainOf(row).value)
    ensures item.provider != "wbstream" ==> !LacksToken(M.PlainOf(row).value)
  {}

  lemma Unprintable(item: Plain, key: string)
    requires BadIdentity(item.clientID)
    ensures C.Print(item, key, item.name).None?
  {}

  /** Such instances are stored: the manager does not ask for the token of a WB instance. */
  lemma TokenUnchecked(checks: Checks, isIP: string -> bool, l: Linked, e: Entry, id: int)
    requires Stored(checks, l) && l.item.provider == "wbstream"
             && C.ClientCompatible(l.item.provider, l.item.transport) && e.source == Some(id)
    ensures var m := l.(item := l.item.(authToken := "", omitClientAuthToken := false));
            Stored(checks, m) && Resolve(isIP, map[id := m], e, Client, true).Broken?
  {
    var m := l.(item := l.item.(authToken := "", omitClientAuthToken := false));
    assert Stored(checks, m) by { hide TrimSpace, ContainsAny, RuneCount, ValidTransport; }
    hide Stored, C.ClientCompatible, C.ValidKey, BadIdentity;
    BrokenExactly(checks, isIP, map[id := m], e, Client, true);
  }

  // ---------- no text is both ----------

  /** No URI is accepted in both formats. */
  lemma NotBoth(isIP: string -> bool, raw: string)
    ensures !(C.Accepts(isIP, raw) && S.Accepts(raw))
  {
    if C.Accepts(isIP, raw) && S.Accepts(raw) {
      var text := TrimSpace(raw);
      assert C.CutUri(raw).Some? && S.CutUri(raw).Some?;
      assert S.BodyFormat(text[S.SCHEME_LENGTH..]).Olcbox? && |text| >= S.SCHEME_LENGTH;
      AtBeforeQuestion(text);
      hide *;
      assert false;
    }
  }

  // In a URL with user information the first '@' precedes the first '?'.
  lemma AtBeforeQuestion(text: string)
    requires ParseAbsolute(text, false).Some? && ParseAbsolute(text, false).value.user.Some?
    requires ParseAbsolute(text, false).value.scheme == "olcrtc" && |text| >= S.SCHEME_LENGTH
    ensures !S.BodyFormat(text[S.SCHEME_LENGTH..]).Olcbox?
  {
    var hier, k := HierarchyOf(text);
    hide *;
    AtFirst(text, hier, k);
  }

  lemma AtFirst(text: string, hier: string, k: nat)
    requires '?' !in hier && 2 <= k < |hier| && hier[k] == '@' && |text| >= 9
    requires 7 + |hier| <= |text| && text[7..7 + |hier|] == hier
    ensures !S.BodyFormat(text[S.SCHEME_LENGTH..]).Olcbox?
  {
    var tail := text[S.SCHEME_LENGTH..];
    forall i | 0 <= i <= k - 2 ensures tail[i] == hier[i + 2] {
      assert text[7..7 + |hier|][i + 2] == text[i + 9];
    }
    assert tail[k - 2] == '@';
    assert forall i :: 0 <= i <= k - 2 ==> tail[i] != '?';
    assert 0 <= Index(tail, '@') <= k - 2;
    assert Index(tail, '?') < 0 || Index(tail, '?') > k - 2;
  }

  // The part of the URL between "olcrtc:" and the query, and the place of an '@' in it.
  lemma HierarchyOf(text: string) returns (hier: string, k: nat)
    requires ParseAbsolute(text, false).Some? && ParseAbsolute(text, false).value.user.Some?
    requires ParseAbsolute(text, false).value.scheme == "olcrtc"
    ensures '?' !in hier && 2 <= k < |hier| && hier[k] == '@'
    ensures 7 + |hier| <= |text| && text[7..7 + |hier|] == hier
  {
    var body, scheme, rest, query, fragment := ParsedPieces(text);
    hide *;
    hier := Cut(rest, '?').0;
    HierarchyKeepsScheme(ToLower(scheme), hier, query, fragment);
    SchemeLength(scheme);
    k := HierarchyHasAt(ToLower(scheme), hier, query, fragment);
    PrefixOf(rest, '?');
    CutPrefix(text, body, scheme, rest, hier);
  }

  lemma ParsedPieces(text: string) returns (body: string, scheme: string, rest: string, query: string, fragment: string)
    requires ParseAbsolute(text, false).Some?
    ensures |body| <= |text| && text[..|body|] == body && body == scheme + [':'] + rest
    ensures ParseAbsolute(text, false) == ParseHierarchy(ToLower(scheme), Cut(rest, '?').0, query, fragment)
  {
    hide Unescape, HasControl, ToLower, ParseHierarchy, ValidScheme, Cut;
    body := Cut(text, '#').0;
    scheme, rest := Cut(body, ':').0, Cut(body, ':').1;
    query, fragment := Cut(rest, '?').1, Unescape(Cut(text, '#').1, false).value;
    PrefixOf(text, '#');
  }

  lemma CutPrefix(text: string, body: string, scheme: string, rest: string, hier: string)
    requires |body| <= |text| && text[..|body|] == body && body == scheme + [':'] + rest && |scheme| == 6
    requires |hier| <= |rest| && rest[..|hier|] == hier
    ensures 7 + |hier| <= |text| && text[7..7 + |hier|] == hier
  {
    assert text[7..|body|] == rest;
  }

  lemma HierarchyKeepsScheme(scheme: string, hier: string, query: string, fragment: string)
    requires ParseHierarchy(scheme, hier, query, fragment).Some?
    ensures ParseHierarchy(scheme, hier, query, fragment).value.scheme == scheme
  {}

  lemma PrefixOf(s: string, c: char)
    ensures |Cut(s, c).0| <= |s| && s[..|Cut(s, c).0|] == Cut(s, c).0
  {
    hide Cut;
    var head, tail := Cut(s, c).0, Cut(s, c).1;
    assert s == head + [c] + tail || s == head;
  }

  lemma {:induction false} SchemeLength(scheme: string)
    requires ToLower(scheme) == "olcrtc"
    ensures |scheme| == 6
  {}

  lemma AuthorityHasAt(authority: string)
    requires ParseAuthority(authority).Some? && ParseAuthority(authority).value.0.Some?
    ensures '@' in authority
  {
    hide ValidHost, ParseUserinfo;
  }

  lemma AuthorityPlace(hier: string)
    requires SplitAuthority(hier).0 != ""
    ensures var a := SplitAuthority(hier).0; 2 + |a| <= |hier| && hier[2..2 + |a|] == a
  {}

  lemma HierarchyHasAt(scheme: string, hier: string, query: string, fragment: string) returns (k: nat)
    requires ParseHierarchy(scheme, hier, query, fragment).Some?
             && ParseHierarchy(scheme, hier, query, fragment).value.user.Some?
    ensures 2 <= k < |hier| && hier[k] == '@'
  {
    hide ParseAuthority, Unescape, SplitAuthority;
    var a := SplitAuthority(hier).0;
    AuthorityHasAt(a);
    AuthorityPlace(hier);
    var i: nat :| i < |a| && a[i] == '@';
    assert hier[2..2 + |a|][i] == '@';
    k := 2 + i;
  }

  // ---------- the shape of included URIs ----------

  lemma ParsedStart(text: string)
    requires ParseAbsolute(text, false).Some?
    ensures text != "" && text[0] != '#'
  {
    hide Unescape, ParseHierarchy, ValidScheme, HasControl;
    assert text == "" || text[0] == '#' ==> Cut(text, '#').0 == "";
  }

  lemma SchemeStart(raw: string)
    requires S.HasScheme(raw)
    ensures raw != "" && raw[0] != '#'
  {
    assert LowerChar(raw[0]) == ToLower(raw[..S.SCHEME_LENGTH])[0] == 'o';
  }

  lemma AcceptedShape(isIP: string -> bool, text: string)
    requires C.Accepts(isIP, TrimSpace(text)) || S.Accepts(TrimSpace(text))
    ensures T.UriShape(TrimSpace(text))
  {
    TrimSpaceTrims(text);
    var raw := TrimSpace(text);
    if C.Accepts(isIP, raw) {
      ParsedStart(raw);
    } else {
      SchemeStart(raw);
    }
  }

  lemma QueryText(item: Plain, key: string)
    requires C.Printable(item, key) && C.Bytes(item, "")
    ensures var query := Join(QueryParts(C.Params(item, key)), '&'); C.UriText(query) && '#' !in query
    ensures PlainPairs(C.Params(item, key)) && C.Params(item, key) != []
  {
    C.ParamsPlain(item, key);
    C.QueryUriText(C.Params(item, key));
    QueryLacks(C.Params(item, key), '#');
  }

  lemma ClientShape(item: Plain, key: string, name: string)
    requires C.Printable(item, key) && C.Bytes(item, name)
    ensures T.UriShape(C.Print(item, key, name).value) && '\n' !in C.Print(item, key, name).value
  {
    C.ProviderWord(item, key);
    C.PrintShape(item, key, name);
    QueryText(item, key);
    hide C.Printable, C.Print, C.Params, T.UriShape, C.UriText, C.Word, Join, QueryParts;
    AssembledShape(item.provider, item.roomID, Join(QueryParts(C.Params(item, key)), '&'), name);
  }

  lemma AssembledShape(provider: string, room: string, query: string, name: string)
    requires C.Word(provider) && C.UriText(query) && '#' !in query
    ensures var raw := C.Prefix(provider, room) + "?" + query + C.FragmentOf(name); T.UriShape(raw) && '\n' !in raw
  {
    var body := C.Prefix(provider, room) + "?" + query;
    C.AssembleText(provider, room, query, name);
    TrimSpaceTrims(body + C.FragmentOf(name));
    C.BodyText(provider, room, query);
    EscapeChars(name);
    FragmentText(name);
    C.UriTextConcat(body, C.FragmentOf(name));
    UriTextUnbroken(body + C.FragmentOf(name));
    assert (body + C.FragmentOf(name))[0] == 'o';
    hide TrimSpace, C.UriText, C.FragmentOf, C.Prefix, Trimmed;
  }

  lemma FragmentText(name: string)
    ensures C.UriText(C.FragmentOf(name))
  {
    EscapeChars(name);
  }

  lemma UriTextUnbroken(s: string)
    requires C.UriText(s)
    ensures '\n' !in s
  {}

  // A URI that never carried the token is what stripping leaves of one that did.
  lemma StrippedPrint(item: Plain, key: string, name: string)
    requires C.Printable(item, key) && C.Bytes(item, name) && item.provider == "wbstream"
    ensures StripToken.Strip(C.Print(item, key, name).value)
            == C.Print(item.(omitClientAuthToken := true), key, name).value
  {
    if item.omitClientAuthToken {
      var twin := item.(omitClientAuthToken := false, authToken := "x");
      assert C.Print(twin.(omitClientAuthToken := true), key, name) == C.Print(item, key, name);
      StripToken.StrippingEqualsOmitting(twin, key, name);
      NotEarly(twin, key, name);
      StripToken.StripIdempotentIff(C.Print(twin, key, name).value);
    } else {
      StripToken.StrippingEqualsOmitting(item, key, name);
    }
  }

  lemma NotEarly(item: Plain, key: string, name: string)
    requires C.Printable(item, key) && C.Bytes(item, name)
    ensures !StripToken.EarlyFragment(C.Print(item, key, name).value)
  {
    C.ProviderWord(item, key);
    C.PrintShape(item, key, name);
    C.PrefixText(item.provider, item.roomID);
    hide C.Printable, C.Bytes, C.Print, C.Prefix, C.Params, C.FragmentOf, C.Word, Join, QueryParts,
         StripToken.EarlyFragment;
    var pre, query, tail := C.Prefix(item.provider, item.roomID), Join(QueryParts(C.Params(item, key)), '&'),
        C.FragmentOf(name);
    QuestionFirst(pre, query + tail);
    assert pre + "?" + query + tail == pre + ['?'] + (query + tail);
  }

  lemma QuestionFirst(pre: string, rest: string)
    requires '?' !in pre && '#' !in pre
    ensures !StripToken.EarlyFragment(pre + ['?'] + rest)
  {
    IndexAt(pre, '?', rest);
    var s := pre + ['?'] + rest;
    assert forall i :: 0 <= i < |pre| ==> s[i] == pre[i];
  }

  lemma OlcboxShape(item: Plain, key: string, name: string)
    requires S.Printable(item, key)
    ensures T.UriShape(S.Print(item, key, name).value)
  {
    S.PrintShape(item, key, name);
    S.CommentIsClean(name);
    hide S.StandardPayload, S.StandardComment, S.Printable;
    var front := S.PREFIX + item.provider + ['?'] + (item.transport + S.StandardPayload(item)) + ['@'] + item.roomID
        + ['#'] + key;
    S.RawTrimmed(front, S.StandardComment(name));
    TrimSpaceTrims(front + ['$'] + S.StandardComment(name));
    assert S.PREFIX[0] == 'o';
  }

  // Instances are stored as the manager keeps them.
  ghost predicate AllStored(checks: Checks, instances: Instances) {
    forall id :: id in instances ==> Stored(checks, instances[id])
  }

  lemma LinkedShape(checks: Checks, l: Linked, format: Format, subOmit: bool)
    requires Stored(checks, l) && LinkedUri(l, format, subOmit).Included?
    ensures T.UriShape(LinkedUri(l, format, subOmit).uri)
    ensures '\n' in LinkedUri(l, format, subOmit).uri
            <==> format.Olcbox? && S.BrokenRecovery(l.item.transport, l.item.options)
  {
    hide C.Printable, S.Printable, Validate, StripToken.Strip, T.UriShape, S.BrokenRecovery;
    var item, key, name := l.item, l.key, l.item.name;
    StoredPrintable(checks, l);
    if format.Client? {
      ClientShape(item, key, name);
      if item.provider == "wbstream" && subOmit {
        StrippedPrint(item, key, name);
        OmittedPrintable(item, key);
        ClientShape(item.(omitClientAuthToken := true), key, name);
      }
    } else {
      OlcboxShape(item, key, name);
      StoredText(checks, l);
      S.PrintBreaks(item, key, name);
    }
  }

  lemma OmittedPrintable(item: Plain, key: string)
    requires C.Printable(item, key)
    ensures C.Printable(item.(omitClientAuthToken := true), key)
  {}

  lemma StoredText(checks: Checks, l: Linked)
    requires Stored(checks, l)
    ensures ValidTransport(l.item.transport, l.item.options)
  {}

  // The two kinds of entries whose URI breaks over lines.
  predicate BreaksLine(instances: Instances, e: Entry, format: Format) {
    if e.source.Some? then
      format.Olcbox? && e.source.value in instances
      && S.BrokenRecovery(instances[e.source.value].item.transport, instances[e.source.value].item.options)
    else format.Client? && '\n' in TrimSpace(e.rawURI)
  }

  /**
   Every included URI is a trimmed text that does not look like a comment line.  It breaks
   over lines in exactly two cases: a manual client URI that was entered with a line break,
   which is then behind its '#', and the OLCBOX URI of an instance whose QR-recovery text has one.
   */
  lemma IncludedShape(checks: Checks, isIP: string -> bool, instances: Instances, e: Entry, format: Format,
      subOmit: bool)
    requires AllStored(checks, instances) && Resolve(isIP, instances, e, format, subOmit).Included?
    ensures var uri := Resolve(isIP, instances, e, format, subOmit).uri;
            && T.UriShape(uri)
            && ('\n' in uri <==> BreaksLine(instances, e, format))
            && ('\n' in uri && e.source.None? ==> '#' in uri && '\n' !in Cut(uri, '#').0)
  {
    hide *;
    ResolvedOf(isIP, instances, e, format, subOmit);
    BreaksLineOf(instances, e, format);
    if e.source.Some? {
      StoredAt(checks, instances, e.source.value);
      LinkedShape(checks, instances[e.source.value], format, subOmit);
    } else {
      ManualShape(isIP, e.rawURI, format);
    }
  }

  lemma BreaksLineOf(instances: Instances, e: Entry, format: Format)
    ensures e.source.None? ==> (BreaksLine(instances, e, format) <==> format.Client? && '\n' in TrimSpace(e.rawURI))
    ensures e.source.Some? && e.source.value in instances ==>
              var item := instances[e.source.value].item;
              BreaksLine(instances, e, format) <==> format.Olcbox? && S.BrokenRecovery(item.transport, item.options)
  {}

  lemma StoredAt(checks: Checks, instances: Instances, id: int)
    requires AllStored(checks, instances) && id in instances
    ensures Stored(checks, instances[id])
  {
    hide Stored;
  }

  lemma ResolvedOf(isIP: string -> bool, instances: Instances, e: Entry, format: Format, subOmit: bool)
    requires Resolve(isIP, instances, e, format, subOmit).Included?
    ensures e.source.Some? ==> e.source.value in instances
    ensures Resolve(isIP, instances, e, format, subOmit)
         == if e.source.Some? then LinkedUri(instances[e.source.value], format, subOmit)
             else ManualUri(isIP, e.rawURI, format)
  {
    hide LinkedUri, ManualUri, C.ClientCompatible, LacksToken;
  }

  lemma ManualShape(isIP: string -> bool, text: string, format: Format)
    requires ManualUri(isIP, text, format).Included?
    ensures T.UriShape(ManualUri(isIP, text, format).uri)
    ensures var uri := ManualUri(isIP, text, format).uri;
            && ('\n' in uri <==> format.Client? && '\n' in TrimSpace(text))
            && ('\n' in uri ==> '#' in uri && '\n' !in Cut(uri, '#').0)
  {
    hide C.Accepts, S.Accepts, TrimSpace;
    AcceptedShape(isIP, text);
    TrimSpaceTrims(text);
    if format.Client? {
      ClientBreaks(isIP, TrimSpace(text));
    } else {
      OlcboxUnbroken(TrimSpace(text));
    }
    hide *;
  }

  lemma ClientBreaks(isIP: string -> bool, raw: string)
    requires C.Accepts(isIP, raw) && TrimSpace(raw) == raw
    ensures '\n' in raw ==> '#' in raw && '\n' !in Cut(raw, '#').0
  {
    assert ParseAbsolute(raw, false).Some?;
    hide *;
    NoBreakBeforeFragment(raw);
  }

  lemma OlcboxUnbroken(raw: string)
    requires S.Accepts(raw) && TrimSpace(raw) == raw
    ensures '\n' !in raw
  {
    hide S.CutBody, S.BodyFormat, S.HasScheme, TrimSpace;
  }

  lemma NoBreakBeforeFragment(text: string)
    requires ParseAbsolute(text, false).Some?
    ensures '\n' !in Cut(text, '#').0
    ensures '\n' in text ==> '#' in text
  {
    hide Unescape, ParseHierarchy, ValidScheme;
    var body := Cut(text, '#').0;
    assert !HasControl(body);
  }

  /**
   The client validator never looks at the fragment: any decodable text with a solid end may
   follow an accepted URI that has none, line breaks included.
   */
  lemma {:induction false} AnyFragmentAccepted(isIP: string -> bool, item: Plain, key: string, frag: string)
    requires C.Printable(item, key) && C.Bytes(item, "") && C.WithinClientLimits(isIP, item)
    requires Unescape(frag, false).Some? && T.Ended(frag)
    requires |C.Print(item, key, "").value + ['#'] + frag| <= C.MAX_URI
    ensures C.Accepts(isIP, C.Print(item, key, "").value + ['#'] + frag)
  {
    var name := Unescape(frag, false).value;
    var uri := C.Print(item, key, "").value;
    C.PrintedAccepted(isIP, item, key, name);
    hide C.AcceptFields, C.WithinClientLimits;
    FragmentCuts(item, key, frag, name);
  }

  // An instance whose URI is short: room and identity of one character.
  predicate Small(item: Plain, key: string) {
    && item.provider == "jitsi" && item.transport == "datachannel" && item.dns == ""
    && |item.roomID| == 1 && IsAlnum(item.roomID[0]) && |item.clientID| == 1 && IsAlnum(item.clientID[0])
    && item.authToken == "" && C.ValidKey(key) && AllUnreserved(key) && ByteString(key)
  }

  /** A line break behind its '#' leaves the URI of such an instance accepted. */
  lemma LineBreakAccepted(isIP: string -> bool, item: Plain, key: string) returns (uri: string)
    requires Small(item, key)
    ensures C.Accepts(isIP, uri) && '\n' in uri && TrimSpace(uri) == uri
  {
    hide C.Printable, C.Bytes, C.Accepts, Unescape, Small, C.WithinClientLimits, T.Ended, C.Parts;
    var frag := ['a', '\n', 'b'];
    SmallShort(item, key);
    SmallLimits(isIP, item, key, frag);
    AnyFragmentAccepted(isIP, item, key, frag);
    uri := C.Print(item, key, "").value + ['#'] + frag;
    assert uri[|uri| - 2] == '\n';
    FragmentTrimmed(C.Print(item, key, "").value, frag);
  }

  /** So there is an entry that an administrator can add and that breaks the client feed. */
  lemma ManualBreaks(isIP: string -> bool, instances: Instances, e: Entry) returns (bad: Entry)
    ensures bad == e.(source := None, rawURI := bad.rawURI, enabled := true) && BreaksFeed(isIP, instances, bad, Client)
  {
    hide C.Accepts, Small, TrimSpace;
    var item, key := SmallExists();
    var uri := LineBreakAccepted(isIP, item, key);
    bad := e.(source := None, rawURI := uri, enabled := true);
  }

  /** And any stored instance with a video channel breaks the OLCBOX feed once its QR-recovery text has a line break. */
  lemma RecoveryUnchecked(checks: Checks, isIP: string -> bool, l: Linked, e: Entry, id: int, text: string)
    requires Stored(checks, l) && l.item.transport == "videochannel" && '\n' in text && e.source == Some(id)
             && e.enabled
    ensures var m := l.(item := l.item.(options := l.item.options.(videoQRRecover := text)));
            && Stored(checks, m) && BreaksFeed(isIP, map[id := m], e, Olcbox)
            && (C.ValidKey(l.key) ==> Resolve(isIP, map[id := m], e, Olcbox, false).Included?)
  {
    hide TrimSpace, ContainsAny, RuneCount, C.ValidKey;
    var m := l.(item := l.item.(options := l.item.options.(videoQRRecover := text)));
    BrokenExactly(checks, isIP, map[id := m], e, Olcbox, false);
  }

  lemma {:induction false} SmallLimits(isIP: string -> bool, item: Plain, key: string, frag: string)
    requires Small(item, key) && frag == ['a', '\n', 'b']
    ensures C.WithinClientLimits(isIP, item) && Unescape(frag, false) == Some(frag) && T.Ended(frag)
  {
    hide C.ValidKey, IsAlnum, Unescape;
    PlainDecodes(frag);
  }

  lemma SmallExists() returns (item: Plain, key: string)
    ensures Small(item, key)
  {
    key := seq(64, _ => 'a');
    item := Instance(
      1, "c", "n", "jitsi", "", "datachannel", "r", "", "", "",
      Options(0, 0, 0, 0, 0, 0, 0, 0, 0, "", "", "", 0, "", 0, 0), Liveness("", "", 0), "", Shaping(0, "", ""),
      false, false, "never", 0, None);
  }

  lemma {:induction false} PlainDecodes(s: string)
    requires '%' !in s
    ensures Unescape(s, false) == Some(s)
  {
    if s != "" {
      PlainDecodes(s[1..]);
      assert [s[0]] + s[1..] == s;
    }
  }

  lemma EscapedSame(s: string)
    requires AllUnreserved(s) && ByteString(s)
    ensures ClientEscape(s) == s
  {
    ClientEscapeIsOnePass(s);
    EscapeUnreserved(s);
  }

  lemma OneCharacter(s: string)
    requires |s| == 1 && IsAlnum(s[0])
    ensures TrimSpace(s) == s && s != "" && !ContainsAny(s, {'\r', '\n'}) && ClientEscape(s) == s && ByteString(s)
  {
    FramedTrimmed(s);
    TrimmedFixed(s);
    EscapedSame(s);
  }

  lemma SmallPrints(item: Plain, key: string)
    requires Small(item, key)
    ensures C.Printable(item, key) && C.Bytes(item, "")
  {
    OneCharacter(item.roomID);
    OneCharacter(item.clientID);
    hide TrimSpace, ContainsAny, ClientEscape, C.ValidKey, IsAlnum;
  }

  lemma PartsLength(front: string, a: string, b: string, c: string)
    ensures |front + "?" + Join([a, b, c], '&')| == |front| + |a| + |b| + |c| + 3
  {
    JoinCons(a, [b, c], '&');
    JoinCons(b, [c], '&');
    assert [a, b, c] == [a] + [b, c] && [b, c] == [b] + [c];
  }

  lemma SmallParts(item: Plain, key: string)
    requires Small(item, key)
    ensures C.Parts(item, key) == [C.Part("k", key), C.Part("t", "datachannel"), C.Part("c", item.clientID)]
    ensures ClientEscape(item.roomID) == item.roomID
  {
    hide ClientEscape, TrimSpace, ContainsAny, C.Part, C.ValidKey, IsAlnum, AllUnreserved, ByteString, Itoa;
    OneCharacter(item.roomID);
    OneCharacter(item.clientID);
    TransportPlain(item.transport);
    EscapedSame(item.transport);
    EscapedSame(key);
  }

  lemma TransportPlain(transport: string)
    requires transport == "datachannel"
    ensures AllUnreserved(transport) && ByteString(transport)
  {}

  lemma SmallShort(item: Plain, key: string)
    requires Small(item, key)
    ensures C.Printable(item, key) && C.Bytes(item, "")
    ensures |C.Print(item, key, "").value| <= 200
  {
    hide C.Printable, C.Bytes, C.Parts, ClientEscape, Join;
    SmallPrints(item, key);
    SmallParts(item, key);
    PartsLength("olcrtc://" + item.provider + "@r/"
        + item.roomID, C.Part("k", key), C.Part("t", "datachannel"), C.Part("c", item.clientID));
  }

  lemma {:induction false} FragmentCuts(item: Plain, key: string, frag: string, name: string)
    requires C.Printable(item, key) && C.Bytes(item, "") && Unescape(frag, false) == Some(name) && T.Ended(frag)
    ensures C.CutUri(C.Print(item, key, "").value + ['#'] + frag)
         == Some(C.ClientFields(item.provider, "/" + item.roomID, C.Params(item, key), name))
  {
    var uri := C.Print(item, key, "").value;
    var params := C.Params(item, key);
    var query := Join(QueryParts(params), '&');
    C.ProviderWord(item, key);
    C.PrintShape(item, key, "");
    QueryText(item, key);
    assert uri == C.Prefix(item.provider, item.roomID) + "?" + query;
    assert uri[0] == 'o';
    ParseQueryRoundTrip(params);
    ToLowerId(item.provider);
    hide C.Printable, C.Print, C.Params, C.UriText, Join, QueryParts, PlainPairs, Unescape;
    FragmentParses(item.provider, item.roomID, query, frag, name);
    FragmentTrimmed(uri, frag);
    hide *;
    CutUriFrom(uri + ['#'] + frag, C.PrintedUrl(item.provider, item.roomID, query, name), params, item.provider);
    assert C.PrintedUrl(item.provider, item.roomID, query, name).path == "/" + item.roomID
        by { PrintedPath(item, query, name); }
  }

  lemma PrintedPath(item: Plain, query: string, name: string)
    ensures C.PrintedUrl(item.provider, item.roomID, query, name).path == "/" + item.roomID
    ensures C.PrintedUrl(item.provider, item.roomID, query, name).fragment == name
  {}

  lemma {:induction false} CutUriFrom(raw: string, url: Url, params: Pairs, provider: string)
    requires TrimSpace(raw) == raw && ParseAbsolute(raw, false) == Some(url)
    requires url.scheme == "olcrtc" && url.user == Some(Userinfo(provider, None)) && provider != "" && url.host != ""
    requires ParseQuery(url.rawQuery) == Some(params) && ToLower(provider) == provider
    ensures C.CutUri(raw) == Some(C.ClientFields(provider, url.path, params, url.fragment))
  {
    hide TrimSpace, ParseAbsolute, ParseQuery, ToLower;
  }

  lemma {:induction false} FragmentParses(provider: string, room: string, query: string, frag: string, name: string)
    requires C.Word(provider) && ByteString(room) && C.UriText(query) && '#' !in query
             && Unescape(frag, false) == Some(name)
    ensures ParseAbsolute(C.Prefix(provider, room) + "?" + query + ['#'] + frag, false)
         == Some(C.PrintedUrl(provider, room, query, name))
  {
    C.BodyText(provider, room, query);
    C.BodyShape(provider, Escape(room), query);
    assert '?' !in Escape(room) by { EscapeLacks(room, '?'); }
    C.PathDecodes(room);
    C.BodyParses(provider, Escape(room), frag, C.PrintedUrl(provider, room, query, name));
  }

  lemma FragmentTrimmed(uri: string, frag: string)
    requires uri != "" && uri[0] == 'o' && T.Ended(frag)
    ensures TrimSpace(uri + ['#'] + frag) == uri + ['#'] + frag
  {
    T.EndBehind(uri, '#', frag);
    TrimmedFixed(uri + ['#'] + frag);
  }

  // ---------- traffic of a feed ----------

  // An included entry; `source` is the instance behind a linked one.
  datatype Item = Item(entry: Entry, uri: string, source: Option<Linked>)

  predicate Limited(i: Item) {
    if i.source.Some? then i.source.value.item.quotaBytes > 0 else i.entry.manualAvailable.Some?
  }

  function Used(i: Item): int {
    if i.source.Some? then i.source.value.total else if i.entry.manualUsed.Some? then i.entry.manualUsed.value else 0
  }

  function Upload(i: Item): int {
    if i.source.Some? then i.source.value.upload else Used(i)
  }

  function Download(i: Item): int {
    if i.source.Some? then i.source.value.download else 0
  }

  function AtLeastZero(n: int): int {
    if n < 0 then 0 else n
  }

  function Available(i: Item): int {
    if !Limited(i) then 0
    else if i.source.Some? then AtLeastZero(i.source.value.item.quotaBytes - i.source.value.total)
    else i.entry.manualAvailable.value
  }

  function Sum(items: seq<Item>, f: Item -> int): int {
    if items == [] then 0 else Sum(items[..|items| - 1], f) + f(items[|items| - 1])
  }

  predicate AllLimited(items: seq<Item>) {
    forall k :: 0 <= k < |items| ==> Limited(items[k])
  }

  predicate ExpiresAt(i: Item, t: int) {
    i.entry.expires == Some(t) || (i.source.Some? && i.source.value.item.expiresAt == Some(t))
  }

  // The earliest expiry of any entry or instance, None when nothing expires.
  ghost predicate Earliest(items: seq<Item>, first: Option<int>) {
    && (forall k, t :: 0 <= k < |items| && ExpiresAt(items[k], t) ==> first.Some? && first.value <= t)
    && (first.Some? ==> exists k :: 0 <= k < |items| && ExpiresAt(items[k], first.value))
  }

  // earliest
  function Earlier(current: Option<int>, candidate: Option<int>): Option<int> {
    if candidate.None? then current else if current.None? || candidate.value < current.value then candidate else current
  }

  datatype Aggregate = Aggregate(used: int, upload: int, download: int, available: int, allLimited: bool,
      expires: Option<int>)

  lemma SumStep(items: seq<Item>, k: nat, f: Item -> int)
    requires k < |items|
    ensures Sum(items[..k + 1], f) == Sum(items[..k], f) + f(items[k])
  {
    assert items[..k + 1][..k] == items[..k];
  }

  lemma EarliestStep(items: seq<Item>, k: nat, first: Option<int>)
    requires k < |items| && Earliest(items[..k], first)
    ensures var i := items[k];
            var own := if i.source.Some? then i.source.value.item.expiresAt else None;
            Earliest(items[..k + 1], Earlier(Earlier(first, own), i.entry.expires))
  {
    var more, next := items[..k + 1], items[k];
    var own := if next.source.Some? then next.source.value.item.expiresAt else None;
    var best := Earlier(Earlier(first, own), next.entry.expires);
    assert more[k] == next;
    forall j, t | 0 <= j < |more| && ExpiresAt(more[j], t) ensures best.Some? && best.value <= t {
      assert j < k ==> items[..k][j] == more[j];
    }
    if best.Some? {
      if best == first {
        var j :| 0 <= j < k && ExpiresAt(items[..k][j], first.value);
        assert ExpiresAt(more[j], best.value);
      } else {
        assert ExpiresAt(more[k], best.value);
      }
    }
  }

  /** aggregateEntries */
  method AggregateEntries(items: seq<Item>) returns (r: Aggregate)
    ensures r.used == Sum(items, Used) && r.upload == Sum(items, Upload) && r.download == Sum(items, Download)
    ensures r.available == Sum(items, Available) && (r.allLimited <==> AllLimited(items))
    ensures Earliest(items, r.expires)
  {
    hide Sum, Earliest;
    r := Aggregate(0, 0, 0, 0, true, None);
    NothingExpires();
    for k := 0 to |items|
      invariant r.used == Sum(items[..k], Used) && r.upload == Sum(items[..k], Upload)
                && r.download == Sum(items[..k], Download)
      invariant r.available == Sum(items[..k], Available) && (r.allLimited <==> AllLimited(items[..k]))
      invariant Earliest(items[..k], r.expires)
    {
      SumStep(items, k, Used);
      SumStep(items, k, Upload);
      SumStep(items, k, Download);
      SumStep(items, k, Available);
      EarliestStep(items, k, r.expires);
      assert items[..k + 1] == items[..k] + [items[k]];
      var i := items[k];
      if i.source.Some? {
        var item := i.source.value.item;
        r := r.(used := r.used + i.source.value.total, upload := r.upload + i.source.value.upload,
                download := r.download + i.source.value.download);
        if item.quotaBytes > 0 {
          r := r.(available := r.available + AtLeastZero(item.quotaBytes - i.source.value.total));
        } else {
          r := r.(allLimited := false);
        }
        r := r.(expires := Earlier(r.expires, item.expiresAt));
        r := r.(expires := Earlier(r.expires, i.entry.expires));
      } else {
        if i.entry.manualUsed.Some? {
          r := r.(used := r.used + i.entry.manualUsed.value, upload := r.upload + i.entry.manualUsed.value);
        }
        if i.entry.manualAvailable.Some? {
          r := r.(available := r.available + i.entry.manualAvailable.value);
        } else {
          r := r.(allLimited := false);
        }
        r := r.(expires := Earlier(r.expires, i.entry.expires));
      }
    }
    assert items[..|items|] == items;
  }

  lemma NothingExpires()
    ensures Earliest([], None) && Sum([], Used) == 0 && Sum([], Upload) == 0 && Sum([], Download) == 0
            && Sum([], Available) == 0
  {}

  /** As long as every counter keeps total = upload + download, so does the feed. */
  lemma {:induction false} TotalsAgree(items: seq<Item>)
    requires forall k :: 0 <= k < |items| && items[k].source.Some? ==>
               items[k].source.value.total == items[k].source.value.upload + items[k].source.value.download
    ensures Sum(items, Used) == Sum(items, Upload) + Sum(items, Download)
  {
    if items != [] {
      TotalsAgree(items[..|items| - 1]);
    }
  }

  // ---------- the feed ----------

  datatype Subscription = Subscription(
    name: string, updated: int, refresh: string, color: string, icon: string, omitToken: bool, entries: seq<Entry>)

  /** The included entries in order; None when resolving one of them fails. */
  function Items(isIP: string -> bool, instances: Instances, entries: seq<Entry>, format: Format,
      subOmit: bool): Option<seq<Item>> {
    if entries == [] then Some([])
    else
      var init, e := Items(isIP, instances, entries[..|entries| - 1], format, subOmit), entries[|entries| - 1];
      if init.None? then None
      else if !e.enabled then init
      else match Resolve(isIP, instances, e, format, subOmit)
        case Broken => None
        case LeftOut => init
        case Included(uri) =>
          Some(init.value + [Item(e, uri, if e.source.Some? && e.source.value in instances
              then Some(instances[e.source.value]) else None)])
  }

  const UNLIMITED := "unlimited"

  // The metadata of an entry; `human` writes a number of bytes.
  function ShownItem(human: int -> string, i: Item): T.Shown {
    var e := i.entry;
    var name := if e.name == "" && i.source.Some? then i.source.value.item.name else e.name;
    if i.source.None? then
      T.Shown(i.uri, name, e.color, e.icon, e.ip, e.comment,
              if e.manualUsed.Some? then Some(human(e.manualUsed.value)) else None,
              if e.manualAvailable.Some? then Some(human(e.manualAvailable.value)) else None)
    else
      var quota, total := i.source.value.item.quotaBytes, i.source.value.total;
      T.Shown(i.uri, name, e.color, e.icon, e.ip, e.comment,
              Some(if quota > 0 then human(total) + "/" + human(quota) else human(total)),
              Some(if quota > 0 then human(AtLeastZero(quota - total)) else UNLIMITED))
  }

  function ShownItems(human: int -> string, items: seq<Item>): (r: seq<T.Shown>)
    ensures |r| == |items| && forall k :: 0 <= k < |r| ==> r[k] == ShownItem(human, items[k])
  {
    seq(|items|, k requires 0 <= k < |items| => ShownItem(human, items[k]))
  }

  function HeaderOf(human: int -> string, sub: Subscription, used: int, available: int, allLimited: bool): T.Header {
    T.Header(sub.name, sub.updated, sub.refresh, sub.color, sub.icon, human(used), if allLimited then human(available)
        else UNLIMITED)
  }

  function FeedOf(human: int -> string, sub: Subscription, items: seq<Item>): string {
    T.Feed(HeaderOf(human, sub, Sum(items, Used), Sum(items, Available), AllLimited(items)), ShownItems(human, items))
  }

  /** render, for an enabled subscription */
  method Render(isIP: string -> bool, human: int -> string, instances: Instances, sub: Subscription, format: Format)
    returns (feed: Option<string>)
    ensures var items := Items(isIP, instances, sub.entries, format, sub.omitToken);
            feed == if items.None? then None else Some(FeedOf(human, sub, items.value))
  {
    hide Resolve, Sum, T.Feed;
    var items: seq<Item> := [];
    var k := 0;
    while k < |sub.entries|
      invariant 0 <= k <= |sub.entries|
      invariant Items(isIP, instances, sub.entries[..k], format, sub.omitToken) == Some(items)
    {
      ItemsStep(isIP, instances, sub.entries, k, format, sub.omitToken);
      var e := sub.entries[k];
      k := k + 1;
      if !e.enabled {
        continue;
      }
      match Resolve(isIP, instances, e, format, sub.omitToken) {
        case Broken =>
          ItemsFail(isIP, instances, sub.entries[..k], sub.entries[k..], format, sub.omitToken);
          assert sub.entries[..k] + sub.entries[k..] == sub.entries;
          return None;
        case LeftOut =>
        case Included(uri) =>
          var source := if e.source.Some? && e.source.value in instances then Some(instances[e.source.value]) else None;
          items := items + [Item(e, uri, source)];
      }
    }
    assert sub.entries[..k] == sub.entries;
    var total := AggregateEntries(items);
    var text := T.RenderLines(HeaderOf(human, sub, total.used, total.available, total.allLimited),
        ShownItems(human, items));
    feed := Some(text);
  }

  lemma ItemsStep(isIP: string -> bool, instances: Instances, entries: seq<Entry>, k: nat, format: Format,
      subOmit: bool)
    requires k < |entries|
    ensures entries[..k + 1] != [] && entries[..k + 1][..k] == entries[..k] && entries[..k + 1][k] == entries[k]
  {}

  lemma {:induction false} ItemsFail(
    isIP: string -> bool, instances: Instances, a: seq<Entry>, b: seq<Entry>, format: Format, subOmit: bool)
    requires Items(isIP, instances, a, format, subOmit).None?
    ensures Items(isIP, instances, a + b, format, subOmit).None?
  {
    hide Resolve;
    if b == [] {
      assert a + b == a;
    } else {
      assert (a + b)[..|a + b| - 1] == a + b[..|b| - 1];
      ItemsFail(isIP, instances, a, b[..|b| - 1], format, subOmit);
    }
  }

  // ---------- the feed parses back ----------

  // Byte counts are written with digits, letters, dots and minus signs.
  predicate UnitChar(c: char) {
    IsAlnum(c) || c == '.' || c == '-'
  }

  predicate UnitText(s: string) {
    s != "" && forall j :: 0 <= j < |s| ==> UnitChar(s[j])
  }

  ghost predicate WritesUnits(human: int -> string) {
    forall n :: UnitText(human(n))
  }

  // An item as `Items` makes it.
  predicate ItemOf(isIP: string -> bool, instances: Instances, i: Item, format: Format, subOmit: bool) {
    && Resolve(isIP, instances, i.entry, format, subOmit) == Included(i.uri)
    && i.source == if i.entry.source.Some? && i.entry.source.value in instances
       then Some(instances[i.entry.source.value]) else None
  }

  lemma {:induction false} ItemsIncluded(
    isIP: string -> bool, instances: Instances, entries: seq<Entry>, format: Format, subOmit: bool, items: seq<Item>)
    requires Items(isIP, instances, entries, format, subOmit) == Some(items)
    ensures forall k :: 0 <= k < |items| ==> ItemOf(isIP, instances, items[k], format, subOmit)
  {
    hide Resolve;
    if entries != [] {
      var init := Items(isIP, instances, entries[..|entries| - 1], format, subOmit);
      ItemsIncluded(isIP, instances, entries[..|entries| - 1], format, subOmit, init.value);
    }
  }

  lemma UnitPiece(s: string)
    requires UnitText(s)
    ensures T.Piece(s)
  {
    FramedTrimmed(s);
  }

  lemma UnitOf(human: int -> string, n: int)
    requires WritesUnits(human)
    ensures UnitText(human(n)) && T.Piece(human(n))
  {
    UnitPiece(human(n));
  }

  lemma QuotaPiece(a: string, b: string)
    requires UnitText(a) && UnitText(b)
    ensures T.Piece(a + "/" + b)
  {
    FramedTrimmed(a + "/" + b);
  }

  lemma UnlimitedPiece()
    ensures T.Piece(UNLIMITED)
  {
    UnitPiece(UNLIMITED);
  }

  lemma ShownTraffic(human: int -> string, i: Item)
    requires WritesUnits(human)
    ensures T.GoodTraffic(ShownItem(human, i))
  {
    UnlimitedPiece();
    if i.source.None? {
      if i.entry.manualUsed.Some? {
        UnitOf(human, i.entry.manualUsed.value);
      }
      if i.entry.manualAvailable.Some? {
        UnitOf(human, i.entry.manualAvailable.value);
      }
    } else {
      var quota, total := i.source.value.item.quotaBytes, i.source.value.total;
      UnitPiece(human(total));
      UnitPiece(human(AtLeastZero(quota - total)));
      QuotaPiece(human(total), human(quota));
    }
    hide T.Piece, UnitText;
  }

  predicate OneLine(items: seq<Item>) {
    forall k :: 0 <= k < |items| ==> '\n' !in items[k].uri
  }

  // The entry is part of the feed, with a URI that breaks over lines.
  predicate BreaksFeed(isIP: string -> bool, instances: Instances, e: Entry, format: Format) {
    e.enabled && BreaksLine(instances, e, format) && (e.source.None? ==> C.Accepts(isIP, TrimSpace(e.rawURI)))
  }

  predicate NoneBreaks(isIP: string -> bool, instances: Instances, sub: Subscription, format: Format) {
    forall k :: 0 <= k < |sub.entries| ==> !BreaksFeed(isIP, instances, sub.entries[k], format)
  }

  // The last included entry of a list.
  function LastIncluded(isIP: string -> bool, instances: Instances, entries: seq<Entry>, format: Format,
      subOmit: bool): Option<Entry> {
    if entries == [] then None
    else if Includes(isIP, instances, entries[|entries| - 1], format, subOmit) then Some(entries[|entries| - 1])
    else LastIncluded(isIP, instances, entries[..|entries| - 1], format, subOmit)
  }

  // The last text an entry shows.
  function LastText(e: Entry): string {
    if e.comment != "" then e.comment
    else if e.ip != "" then e.ip
    else if e.icon != "" then e.icon
    else if e.color != "" then e.color
    else e.name
  }

  // A manual entry without traffic whose last text is nothing but blanks.
  predicate EndsBlank(e: Entry) {
    && e.source.None? && e.manualUsed.None? && e.manualAvailable.None?
    && LastText(e) != "" && T.SafeLine(LastText(e)) == ""
  }

  predicate BlankAtEnd(isIP: string -> bool, instances: Instances, sub: Subscription, format: Format) {
    var last := LastIncluded(isIP, instances, sub.entries, format, sub.omitToken);
    last.Some? && EndsBlank(last.value)
  }

  /** A comment of one blank is such a text; it holds no line break, which is all that is asked of a comment. */
  lemma BlankComment(e: Entry)
    requires e.source.None? && e.manualUsed.None? && e.manualAvailable.None? && e.comment == " "
    ensures EndsBlank(e) && !ContainsAny(e.comment, {'\r', '\n'})
  {
    assert T.Spaced(" ") == " " && SpaceLen(" ") == 1;
    assert TrimLeft(" ") == TrimLeft("") == "";
  }

  /**
   A client that splits the feed at newlines recovers exactly the included entries, in order and
   with their metadata, if and only if no enabled entry is an accepted client URI entered with
   a line break, or links an OLCBOX URI to an instance whose printed QR-recovery text has
   one, and the last included entry is not a manual one without traffic whose last text is
   nothing but blanks.
   */
  lemma {:induction false} FeedRecovers(checks: Checks, isIP: string -> bool, human: int -> string,
      instances: Instances, sub: Subscription, format: Format, items: seq<Item>)
    requires AllStored(checks, instances) && WritesUnits(human)
    requires Items(isIP, instances, sub.entries, format, sub.omitToken) == Some(items)
    ensures T.Parse(FeedOf(human, sub, items)) == T.Expected(ShownItems(human, items))
            <==> NoneBreaks(isIP, instances, sub, format) && !BlankAtEnd(isIP, instances, sub, format)
  {
    var shown := ShownItems(human, items);
    var header := HeaderOf(human, sub, Sum(items, Used), Sum(items, Available), AllLimited(items));
    ShownGood(checks, isIP, human, instances, sub, format, items);
    HeaderGood(human, sub, Sum(items, Used), Sum(items, Available), AllLimited(items));
    T.FeedParsesBack(header, shown);
    hide *;
    SameLines(human, items);
    OneLineExactly(checks, isIP, instances, sub, format, items);
    BlankExactly(isIP, human, instances, sub, format, items);
    assert FeedOf(human, sub, items) == T.Feed(header, shown) by { FeedUnfolds(human, sub, items); }
  }

  lemma {:induction false} FeedUnfolds(human: int -> string, sub: Subscription, items: seq<Item>)
    ensures FeedOf(human, sub, items)
         == T.Feed(HeaderOf(human, sub, Sum(items, Used), Sum(items, Available), AllLimited(items)),
             ShownItems(human, items))
  {}

  lemma SameLines(human: int -> string, items: seq<Item>)
    ensures T.OneLine(ShownItems(human, items)) <==> OneLine(items)
  {
    var shown := ShownItems(human, items);
    assert forall k :: 0 <= k < |items| ==> shown[k].uri == items[k].uri;
  }

  lemma HeaderGood(human: int -> string, sub: Subscription, used: int, available: int, allLimited: bool)
    requires WritesUnits(human)
    ensures T.GoodHeader(HeaderOf(human, sub, used, available, allLimited))
  {
    UnitPiece(human(used));
    UnitPiece(human(available));
    UnlimitedPiece();
  }

  lemma {:induction false} ShownGood(checks: Checks, isIP: string -> bool, human: int -> string, instances: Instances,
      sub: Subscription, format: Format, items: seq<Item>)
    requires AllStored(checks, instances) && WritesUnits(human)
    requires Items(isIP, instances, sub.entries, format, sub.omitToken) == Some(items)
    ensures forall k :: 0 <= k < |items| ==> T.GoodEntry(ShownItems(human, items)[k])
  {
    ItemsIncluded(isIP, instances, sub.entries, format, sub.omitToken, items);
    var shown := ShownItems(human, items);
    hide Items, AllStored, WritesUnits, Resolve, T.GoodTraffic, T.UriShape, Cut, BreaksLine;
    forall k | 0 <= k < |items| ensures T.GoodEntry(shown[k]) {
      assert ItemOf(isIP, instances, items[k], format, sub.omitToken);
      IncludedShape(checks, isIP, instances, items[k].entry, format, sub.omitToken);
      ShownTraffic(human, items[k]);
    }
  }

  lemma {:induction false} LastItem(
    isIP: string -> bool, instances: Instances, entries: seq<Entry>, format: Format, subOmit: bool, items: seq<Item>)
    requires Items(isIP, instances, entries, format, subOmit) == Some(items)
    ensures LastIncluded(isIP, instances, entries, format, subOmit)
         == if items == [] then None else Some(items[|items| - 1].entry)
  {
    hide Resolve;
    if entries != [] {
      var init := entries[..|entries| - 1];
      LastItem(isIP, instances, init, format, subOmit, Items(isIP, instances, init, format, subOmit).value);
    }
  }

  lemma ItemEndsBlank(human: int -> string, i: Item)
    requires i.source.None? <==> i.entry.source.None?
    ensures T.EndsBlank(ShownItem(human, i)) <==> EndsBlank(i.entry)
  {
    hide T.SafeLine;
  }

  // The feed ends in a blank exactly when the last included entry says so.
  lemma {:induction false} BlankExactly(isIP: string -> bool, human: int -> string, instances: Instances,
      sub: Subscription, format: Format, items: seq<Item>)
    requires Items(isIP, instances, sub.entries, format, sub.omitToken) == Some(items)
    ensures T.BlankEnd(ShownItems(human, items)) <==> BlankAtEnd(isIP, instances, sub, format)
  {
    LastItem(isIP, instances, sub.entries, format, sub.omitToken, items);
    ItemsIncluded(isIP, instances, sub.entries, format, sub.omitToken, items);
    hide Items, EndsBlank, T.EndsBlank, ShownItem, LastIncluded;
    if items != [] {
      var i := items[|items| - 1];
      assert ItemOf(isIP, instances, i, format, sub.omitToken);
      assert i.source.None? <==> i.entry.source.None? by { SourceOf(isIP, instances, i, format, sub.omitToken); }
      hide ItemOf;
      ItemEndsBlank(human, i);
    }
  }

  lemma SourceOf(isIP: string -> bool, instances: Instances, i: Item, format: Format, subOmit: bool)
    requires ItemOf(isIP, instances, i, format, subOmit)
    ensures i.source.None? <==> i.entry.source.None?
  {
    hide LinkedUri, ManualUri, LacksToken;
  }

  // What an enabled entry with an included URI gives, and only such an entry gives an item.
  predicate Includes(isIP: string -> bool, instances: Instances, e: Entry, format: Format, subOmit: bool) {
    e.enabled && Resolve(isIP, instances, e, format, subOmit).Included?
  }

  predicate Gives(items: seq<Item>, e: Entry) {
    exists k :: 0 <= k < |items| && items[k].entry == e
  }

  lemma GivesSnoc(items: seq<Item>, i: Item, e: Entry)
    ensures Gives(items + [i], e) <==> Gives(items, e) || i.entry == e
  {
    var more := items + [i];
    assert more[|items|] == i;
    if k :| 0 <= k < |items| && items[k].entry == e {
      assert more[k].entry == e;
    }
    if k :| 0 <= k < |more| && more[k].entry == e {
      assert k < |items| ==> items[k].entry == e;
    }
  }

  lemma {:induction false} ItemsCover(
    isIP: string -> bool, instances: Instances, entries: seq<Entry>, format: Format, subOmit: bool, items: seq<Item>,
    e: Entry)
    requires Items(isIP, instances, entries, format, subOmit) == Some(items)
    ensures (e in entries && Includes(isIP, instances, e, format, subOmit)) <==> Gives(items, e)
  {
    hide Resolve, Includes;
    if entries == [] {
      assert items == [];
    } else {
      hide Gives, Items;
      ItemsLast(isIP, instances, entries, format, subOmit);
      var init, last := entries[..|entries| - 1], entries[|entries| - 1];
      var before := Items(isIP, instances, init, format, subOmit).value;
      ItemsCover(isIP, instances, init, format, subOmit, before, e);
      CoverStep(init, last, before, items, e, Includes(isIP, instances, e, format, subOmit),
          Includes(isIP, instances, last, format, subOmit));
      assert entries == init + [last];
    }
  }

  lemma CoverStep(init: seq<Entry>, last: Entry, before: seq<Item>, items: seq<Item>, e: Entry, eIn: bool, lastIn: bool)
    requires (e in init && eIn) <==> Gives(before, e)
    requires e == last ==> eIn == lastIn
    requires if lastIn then
               |items| == |before| + 1 && items == before + [items[|before|]] && items[|before|].entry == last
             else items == before
    ensures (e in init + [last] && eIn) <==> Gives(items, e)
  {
    hide Gives;
    if lastIn {
      GivesSnoc(before, items[|before|], e);
    }
  }

  // The last entry of a list adds its item exactly when it is included.
  lemma ItemsLast(isIP: string -> bool, instances: Instances, entries: seq<Entry>, format: Format, subOmit: bool)
    requires entries != [] && Items(isIP, instances, entries, format, subOmit).Some?
    ensures var init, last := entries[..|entries| - 1], entries[|entries| - 1];
            var before, items := Items(isIP, instances, init, format, subOmit),
                Items(isIP, instances, entries, format, subOmit).value;
            && before.Some?
            && (if Includes(isIP, instances, last, format, subOmit) then
                  |items| == |before.value| + 1 && items == before.value + [items[|before.value|]]
                  && items[|before.value|].entry == last
                else items == before.value)
  {
    hide Resolve;
  }

  // An entry that breaks a feed is included, unless it breaks nothing.
  lemma BreaksIncluded(checks: Checks, isIP: string -> bool, instances: Instances, e: Entry, format: Format,
      subOmit: bool)
    requires AllStored(checks, instances) && !(e.enabled && Resolve(isIP, instances, e, format, subOmit).Broken?)
    ensures BreaksFeed(isIP, instances, e, format)
            <==> (Includes(isIP, instances, e, format, subOmit)
                  && '\n' in Resolve(isIP, instances, e, format, subOmit).uri)
  {
    hide AllStored, T.UriShape, C.Accepts, S.Accepts, C.Print, S.Print, StripToken.Strip, Cut, TrimSpace,
         S.BrokenRecovery, LacksToken, C.ClientCompatible;
    if Includes(isIP, instances, e, format, subOmit) {
      IncludedShape(checks, isIP, instances, e, format, subOmit);
    }
  }

  lemma ItemBreaks(checks: Checks, isIP: string -> bool, instances: Instances, i: Item, format: Format, subOmit: bool)
    requires AllStored(checks, instances) && ItemOf(isIP, instances, i, format, subOmit) && i.entry.enabled
    ensures '\n' in i.uri <==> BreaksFeed(isIP, instances, i.entry, format)
  {
    hide AllStored, Resolve, BreaksFeed;
    BreaksIncluded(checks, isIP, instances, i.entry, format, subOmit);
  }

  lemma {:induction false} OneLineExactly(checks: Checks, isIP: string -> bool, instances: Instances,
      sub: Subscription, format: Format,
      items: seq<Item>)
    requires AllStored(checks, instances) && Items(isIP, instances, sub.entries, format, sub.omitToken) == Some(items)
    ensures OneLine(items) <==> NoneBreaks(isIP, instances, sub, format)
  {
    hide AllStored, Items, BreaksFeed, Resolve, ItemOf, Includes, Covers;
    ItemsCovers(isIP, instances, sub, format, items);
    if OneLine(items) {
      forall j | 0 <= j < |sub.entries| ensures !BreaksFeed(isIP, instances, sub.entries[j], format) {
        EntryListed(checks, isIP, instances, sub, format, items, j);
      }
    }
    if NoneBreaks(isIP, instances, sub, format) {
      forall k | 0 <= k < |items| ensures '\n' !in items[k].uri {
        ItemListed(checks, isIP, instances, sub, format, items, k);
      }
    }
  }

  ghost predicate Covers(isIP: string -> bool, instances: Instances, sub: Subscription, format: Format,
      items: seq<Item>) {
    && (forall k :: 0 <= k < |items| ==> ItemOf(isIP, instances, items[k], format, sub.omitToken))
    && (forall e :: (e in sub.entries && Includes(isIP, instances, e, format, sub.omitToken)) <==> Gives(items, e))
    && (forall e :: e in sub.entries && e.enabled ==> !Resolve(isIP, instances, e, format, sub.omitToken).Broken?)
  }

  lemma {:induction false} NoneBroken(
    isIP: string -> bool, instances: Instances, entries: seq<Entry>, format: Format, subOmit: bool)
    requires Items(isIP, instances, entries, format, subOmit).Some?
    ensures forall e :: e in entries && e.enabled ==> !Resolve(isIP, instances, e, format, subOmit).Broken?
  {
    hide Resolve;
    if entries != [] {
      var init, last := entries[..|entries| - 1], entries[|entries| - 1];
      NoneBroken(isIP, instances, init, format, subOmit);
      assert entries == init + [last];
    }
  }

  lemma {:induction false} ItemsCovers(isIP: string -> bool, instances: Instances, sub: Subscription, format: Format,
      items: seq<Item>)
    requires Items(isIP, instances, sub.entries, format, sub.omitToken) == Some(items)
    ensures Covers(isIP, instances, sub, format, items)
  {
    hide Items, Resolve, ItemOf, Includes, Gives;
    ItemsIncluded(isIP, instances, sub.entries, format, sub.omitToken, items);
    forall e ensures (e in sub.entries && Includes(isIP, instances, e, format, sub.omitToken)) <==> Gives(items, e) {
      ItemsCover(isIP, instances, sub.entries, format, sub.omitToken, items, e);
    }
    NoneBroken(isIP, instances, sub.entries, format, sub.omitToken);
  }

  // An item comes from an enabled entry, and breaks over lines exactly when the entry says so.
  lemma ItemListed(checks: Checks, isIP: string -> bool, instances: Instances, sub: Subscription, format: Format,
      items: seq<Item>, k: nat)
    requires AllStored(checks, instances) && Covers(isIP, instances, sub, format, items) && k < |items|
    ensures items[k].entry in sub.entries
            && ('\n' in items[k].uri <==> BreaksFeed(isIP, instances, items[k].entry, format))
  {
    hide AllStored, BreaksFeed, Resolve, ItemOf;
    var e := items[k].entry;
    assert Gives(items, e);
    assert e in sub.entries && Includes(isIP, instances, e, format, sub.omitToken);
    ItemBreaks(checks, isIP, instances, items[k], format, sub.omitToken);
  }

  // An entry that breaks the feed is behind an item that breaks over lines.
  lemma EntryListed(checks: Checks, isIP: string -> bool, instances: Instances, sub: Subscription, format: Format,
      items: seq<Item>, j: nat)
    requires AllStored(checks, instances) && Covers(isIP, instances, sub, format, items) && j < |sub.entries|
    ensures BreaksFeed(isIP, instances, sub.entries[j], format) ==> exists k :: 0 <= k < |items| && '\n' in items[k].uri
  {
    hide AllStored, BreaksFeed, Resolve, ItemOf;
    var e := sub.entries[j];
    if BreaksFeed(isIP, instances, e, format) {
      BreaksIncluded(checks, isIP, instances, e, format, sub.omitToken);
      assert e in sub.entries && Includes(isIP, instances, e, format, sub.omitToken);
      var k :| 0 <= k < |items| && items[k].entry == e;
      ItemListed(checks, isIP, instances, sub, format, items, k);
    }
  }
}
