/**
 What a client reads out of a subscription feed (internal/subscription/service.go): which entries
 are there, what their URIs carry, and what stands behind each tag.
 */
module FeedCarries {
  import opened Text
  import opened InstanceConfig
  import C = ClientUri
  import S = StandardUri
  import T = FeedText
  import StripToken
  import F = Feed

  // ---------- which entries are in a feed ----------

  const CLIENT_PAIRS: set<(string, string)> := {
    ("wbstream", "vp8channel"), ("telemost", "vp8channel"), ("jitsi", "datachannel") }

  predicate Tokenless(item: Plain) {
    item.provider == "wbstream" && item.authToken == "" && !item.omitClientAuthToken
  }

  /**
   The entry is not in the feed: a manual text the validator of the format refuses, a link to an
   instance that cannot be loaded, and in the client format a link to an instance the client does
   not support or, unless the subscription omits tokens, one that lacks its token.
   */
  predicate LeavesOut(isIP: string -> bool, instances: F.Instances, e: F.Entry, format: F.Format, subOmit: bool) {
    if e.source.None? then
      match format
      case Client => !C.Accepts(isIP, TrimSpace(e.rawURI))
      case Olcbox => !S.Accepts(TrimSpace(e.rawURI))
    else
      || e.source.value !in instances
      || (var item := instances[e.source.value].item;
          format.Client? && ((item.provider, item.transport) !in CLIENT_PAIRS || (Tokenless(item) && !subOmit)))
  }

  /** The entry is not left out, and its URI cannot be made. */
  predicate Fails(isIP: string -> bool, instances: F.Instances, e: F.Entry, format: F.Format, subOmit: bool) {
    && e.source.Some? && !LeavesOut(isIP, instances, e, format, subOmit)
    && var l := instances[e.source.value];
       !C.ValidKey(l.key) || (format.Client? && (Tokenless(l.item) || F.BadIdentity(l.item.clientID)))
  }

  lemma Compatible(provider: string, transport: string)
    ensures C.ClientCompatible(provider, transport) <==> (provider, transport) in CLIENT_PAIRS
  {}

  lemma ResolvedExactly(checks: Checks, isIP: string -> bool, instances: F.Instances, e: F.Entry, format: F.Format,
      subOmit: bool)
    requires F.AllStored(checks, instances)
    ensures var r := F.Resolve(isIP, instances, e, format, subOmit);
            && (r.LeftOut? <==> LeavesOut(isIP, instances, e, format, subOmit))
            && (r.Broken? <==> Fails(isIP, instances, e, format, subOmit))
  {
    hide F.LinkedUri, C.Accepts, S.Accepts, TrimSpace, C.ClientCompatible, CLIENT_PAIRS, F.Stored, C.ValidKey;
    hide F.BadIdentity;
    if e.source.Some? && e.source.value in instances {
      var l := instances[e.source.value];
      F.StoredAt(checks, instances, e.source.value);
      Compatible(l.item.provider, l.item.transport);
      F.BrokenExactly(checks, isIP, instances, e, format, subOmit);
      NeverLeftOut(l, format, subOmit);
    }
  }

  lemma NeverLeftOut(l: F.Linked, format: F.Format, subOmit: bool)
    ensures !F.LinkedUri(l, format, subOmit).LeftOut?
  {
    hide C.Print, S.Print, StripToken.Strip;
  }

  // The entries of a list that are in the feed.
  function Chosen(isIP: string -> bool, instances: F.Instances, entries: seq<F.Entry>, format: F.Format,
      subOmit: bool): seq<F.Entry> {
    if entries == [] then []
    else
      var init, e := Chosen(isIP, instances, entries[..|entries| - 1], format, subOmit), entries[|entries| - 1];
      if e.enabled && !LeavesOut(isIP, instances, e, format, subOmit) then init + [e] else init
  }

  function EntriesOf(items: seq<F.Item>): (r: seq<F.Entry>)
    ensures |r| == |items| && forall k :: 0 <= k < |r| ==> r[k] == items[k].entry
  {
    seq(|items|, k requires 0 <= k < |items| => items[k].entry)
  }

  /** A feed is made exactly when no enabled entry fails, and then holds exactly the enabled entries not left out. */
  lemma {:induction false} ItemsExactly(checks: Checks, isIP: string -> bool, instances: F.Instances,
      entries: seq<F.Entry>, format: F.Format, subOmit: bool)
    requires F.AllStored(checks, instances)
    ensures var items := F.Items(isIP, instances, entries, format, subOmit);
            && (items.None? <==> exists k :: 0 <= k < |entries| && entries[k].enabled
                                             && Fails(isIP, instances, entries[k], format, subOmit))
            && (items.Some? ==> EntriesOf(items.value) == Chosen(isIP, instances, entries, format, subOmit))
  {
    hide F.Resolve, LeavesOut, Fails, F.AllStored;
    if entries != [] {
      var n := |entries| - 1;
      ItemsExactly(checks, isIP, instances, entries[..n], format, subOmit);
      ResolvedExactly(checks, isIP, instances, entries[n], format, subOmit);
      assert forall k :: 0 <= k < n ==> entries[..n][k] == entries[k];
    }
  }

  // ---------- what an included entry carries ----------

  // The token a client URI shows: that of a WB instance, unless its own flag or the subscription's omits it.
  function ShownToken(item: Plain, subOmit: bool): Option<string> {
    if item.provider == "wbstream" && !item.omitClientAuthToken && !subOmit then Some(item.authToken) else None
  }

  // The client URI, cut by its validator and read under its names, is about the instance.
  predicate CarriesClient(uri: string, l: F.Linked, subOmit: bool) {
    && C.CutUri(uri).Some?
    && C.Shows(C.CutUri(uri).value, l.item, l.key, l.item.name, ShownToken(l.item, subOmit))
  }

  // The same of the OLCBOX URI, which shows no token at all.
  predicate CarriesOlcbox(uri: string, l: F.Linked) {
    && S.CutUri(uri).Some?
    && var f := S.CutUri(uri).value;
       && f.provider == l.item.provider && f.transport == l.item.transport && f.room == l.item.roomID && f.key == l.key
       && f.comment == S.StandardComment(l.item.name) && S.Gives(f.options, l.item.transport, l.item.options)
  }

  /**
   What an item of a feed carries: a manual one its trimmed text; a linked one the instance's own
   provider, room, key, name, options and identity, and the account token exactly when neither flag
   omits it.  Only a QR-recovery text that is not clean makes an OLCBOX URI say something else.
   */
  predicate Carries(instances: F.Instances, i: F.Item, format: F.Format, subOmit: bool) {
    if i.entry.source.None? then i.source.None? && i.uri == TrimSpace(i.entry.rawURI)
    else
      && i.entry.source.value in instances && i.source == Some(instances[i.entry.source.value])
      && (format.Client? ==> CarriesClient(i.uri, i.source.value, subOmit))
      && (format.Olcbox? && S.CleanRecovery(i.source.value.item) ==> CarriesOlcbox(i.uri, i.source.value))
  }

  lemma ClientCarries(isIP: string -> bool, l: F.Linked, subOmit: bool)
    requires C.Bytes(l.item, l.item.name) && F.LinkedUri(l, F.Client, subOmit).Included?
    ensures CarriesClient(F.LinkedUri(l, F.Client, subOmit).uri, l, subOmit)
  {
    hide C.Printable, C.Bytes, C.CutUri, C.Shows, C.Accepts, StripToken.Strip, C.Params, C.WithinClientLimits;
    var item, key, name := l.item, l.key, l.item.name;
    assert C.Printable(item, key) by { PrintedPrintable(item, key, name); }
    C.ClientRoundTrip(isIP, item, key, name);
    if item.provider == "wbstream" && subOmit {
      var omitted := item.(omitClientAuthToken := true);
      F.StrippedPrint(item, key, name);
      F.OmittedPrintable(item, key);
      OmittedBytes(item, name);
      C.ClientRoundTrip(isIP, omitted, key, name);
      OmittedShows(C.CutUri(C.Print(omitted, key, name).value).value, item, key, name);
    }
    hide C.Print;
  }

  lemma PrintedPrintable(item: Plain, key: string, name: string)
    requires C.Print(item, key, name).Some?
    ensures C.Printable(item, key)
  {
    hide C.Printable;
  }

  lemma OmittedBytes(item: Plain, name: string)
    requires C.Bytes(item, name)
    ensures C.Bytes(item.(omitClientAuthToken := true), name)
  {}

  // What is shown does not depend on the flag itself.
  lemma OmittedShows(f: C.ClientFields, item: Plain, key: string, name: string)
    requires C.Shows(f, item.(omitClientAuthToken := true), key, name, None)
    ensures C.Shows(f, item, key, name, None)
  {
    hide C.Parameter, C.ShowsToken, C.ShowsNumber;
  }

  lemma OlcboxCarries(checks: Checks, l: F.Linked)
    requires F.Stored(checks, l) && F.LinkedUri(l, F.Olcbox, false).Included? && S.CleanRecovery(l.item)
    ensures CarriesOlcbox(F.LinkedUri(l, F.Olcbox, false).uri, l)
  {
    var item, key := l.item, l.key;
    StoredRoom(checks, l);
    hide S.Printable, S.CleanRecovery, F.Stored, S.CutUri, S.Gives, S.StandardComment, S.Accepts, ValidTransport;
    S.StandardRoundTrip(item, key, item.name);
  }

  lemma StoredRoom(checks: Checks, l: F.Linked)
    requires F.Stored(checks, l)
    ensures TrimSpace(l.item.roomID) != "" && ValidTransport(l.item.transport, l.item.options)
  {
    hide TrimSpace, ContainsAny, RuneCount, ValidTransport;
  }

  lemma LinkedCarries(checks: Checks, isIP: string -> bool, l: F.Linked, format: F.Format, subOmit: bool)
    requires F.Stored(checks, l) && F.LinkedUri(l, format, subOmit).Included?
    ensures format.Client? ==> CarriesClient(F.LinkedUri(l, format, subOmit).uri, l, subOmit)
    ensures format.Olcbox? && S.CleanRecovery(l.item) ==> CarriesOlcbox(F.LinkedUri(l, format, subOmit).uri, l)
  {
    hide CarriesClient, CarriesOlcbox, S.CleanRecovery, C.Print, S.Print, StripToken.Strip, Validate, C.Bytes;
    if format.Client? {
      ClientCarries(isIP, l, subOmit);
    } else if S.CleanRecovery(l.item) {
      OlcboxCarries(checks, l);
    }
  }

  lemma ItemCarries(checks: Checks, isIP: string -> bool, instances: F.Instances, i: F.Item, format: F.Format,
      subOmit: bool)
    requires F.AllStored(checks, instances) && F.ItemOf(isIP, instances, i, format, subOmit)
    ensures Carries(instances, i, format, subOmit)
  {
    hide F.AllStored, F.LinkedUri, F.ManualUri, CarriesClient, CarriesOlcbox, S.CleanRecovery, TrimSpace;
    F.ResolvedOf(isIP, instances, i.entry, format, subOmit);
    if i.entry.source.Some? {
      F.StoredAt(checks, instances, i.entry.source.value);
      LinkedCarries(checks, isIP, instances[i.entry.source.value], format, subOmit);
    } else {
      ManualText(isIP, i.entry.rawURI, format);
    }
    hide F.Resolve;
  }

  lemma ManualText(isIP: string -> bool, text: string, format: F.Format)
    requires F.ManualUri(isIP, text, format).Included?
    ensures F.ManualUri(isIP, text, format).uri == TrimSpace(text)
  {
    hide C.Accepts, S.Accepts, TrimSpace;
  }

  /** Every item of a feed carries what it should, whatever was stored. */
  lemma {:induction false} FeedCarries(checks: Checks, isIP: string -> bool, instances: F.Instances,
      sub: F.Subscription, format: F.Format)
    requires F.AllStored(checks, instances)
    requires F.Items(isIP, instances, sub.entries, format, sub.omitToken).Some?
    ensures var items := F.Items(isIP, instances, sub.entries, format, sub.omitToken).value;
            && EntriesOf(items) == Chosen(isIP, instances, sub.entries, format, sub.omitToken)
            && forall k :: 0 <= k < |items| ==> Carries(instances, items[k], format, sub.omitToken)
  {
    hide Carries, F.AllStored, F.Items, F.ItemOf, Chosen, Fails;
    var items := F.Items(isIP, instances, sub.entries, format, sub.omitToken).value;
    ItemsExactly(checks, isIP, instances, sub.entries, format, sub.omitToken);
    F.ItemsIncluded(isIP, instances, sub.entries, format, sub.omitToken, items);
    forall k | 0 <= k < |items| ensures Carries(instances, items[k], format, sub.omitToken) {
      ItemCarries(checks, isIP, instances, items[k], format, sub.omitToken);
    }
  }

  // ---------- what a reader is told ----------

  /** Behind the tags of an entry: its own texts, the instance's name for want of one, and its traffic. */
  predicate Tells(human: int -> string, lines: seq<string>, i: F.Item) {
    var e, used, available := i.entry, T.Told(lines, "##used: "), T.Told(lines, "##available: ");
    && T.Told(lines, "##color: ") == T.SafeText(e.color) && T.Told(lines, "##icon: ") == T.SafeText(e.icon)
    && T.Told(lines, "##ip: ") == T.SafeText(e.ip) && T.Told(lines, "##comment: ") == T.SafeText(e.comment)
    && (e.name != "" || i.source.None? ==> T.Told(lines, "##name: ") == T.SafeText(e.name))
    && (e.name == "" && i.source.Some? ==> T.Told(lines, "##name: ") == T.SafeText(i.source.value.item.name))
    && (i.source.None? ==>
          && (e.manualUsed.None? ==> used == None)
          && (e.manualUsed.Some? ==> used == Some(human(e.manualUsed.value)))
          && (e.manualAvailable.None? ==> available == None)
          && (e.manualAvailable.Some? ==> available == Some(human(e.manualAvailable.value))))
    && (i.source.Some? ==>
          var quota, total := i.source.value.item.quotaBytes as int, i.source.value.total;
          && (quota <= 0 ==> used == Some(human(total)) && available == Some("unlimited"))
          && (quota > 0 ==> used == Some(human(total) + "/" + human(quota)))
          && (quota > total && quota > 0 ==> available == Some(human(quota - total)))
          && (0 < quota <= total ==> available == Some(human(0))))
  }

  lemma ItemTells(human: int -> string, i: F.Item)
    ensures Tells(human, T.Metadata(F.ShownItem(human, i)), i)
  {
    hide T.Metadata, T.Told, T.SafeText;
    T.MetadataTold(F.ShownItem(human, i));
  }

  // What the header says of the whole feed: the totals, and what is left when every entry is limited.
  predicate TellsHeader(human: int -> string, lines: seq<string>, sub: F.Subscription, items: seq<F.Item>) {
    && T.Told(lines, "#name: ") == Some(T.SafeLine(sub.name)) && T.Told(lines, "#update: ") == Some(Itoa(sub.updated))
    && T.Told(lines, "#refresh: ") == Some(T.SafeLine(sub.refresh))
    && T.Told(lines, "#color: ") == T.SafeText(sub.color) && T.Told(lines, "#icon: ") == T.SafeText(sub.icon)
    && T.Told(lines, "#used: ") == Some(human(F.Sum(items, F.Used)))
    && (F.AllLimited(items) ==> T.Told(lines, "#available: ") == Some(human(F.Sum(items, F.Available))))
    && (!F.AllLimited(items) ==> T.Told(lines, "#available: ") == Some("unlimited"))
  }

  lemma {:induction false} HeaderTells(checks: Checks, isIP: string -> bool, human: int -> string,
      instances: F.Instances, sub: F.Subscription, format: F.Format, items: seq<F.Item>)
    requires F.AllStored(checks, instances) && F.WritesUnits(human)
    requires F.Items(isIP, instances, sub.entries, format, sub.omitToken) == Some(items)
    requires F.NoneBreaks(isIP, instances, sub, format) && !F.BlankAtEnd(isIP, instances, sub, format)
    ensures TellsHeader(human, Split(F.FeedOf(human, sub, items), '\n'), sub, items)
  {
    hide T.Told, T.SafeText, T.SafeLine, Itoa, T.HeaderLines, T.GoodEntry, T.GoodHeader, T.OneLine, T.BlankEnd, T.Feed;
    hide F.AllStored, F.WritesUnits, F.Items, F.NoneBreaks, F.BlankAtEnd, F.ShownItem, F.Sum, F.AllLimited, Split;
    var shown := F.ShownItems(human, items);
    var header := F.HeaderOf(human, sub, F.Sum(items, F.Used), F.Sum(items, F.Available), F.AllLimited(items));
    F.ShownGood(checks, isIP, human, instances, sub, format, items);
    F.HeaderGood(human, sub, F.Sum(items, F.Used), F.Sum(items, F.Available), F.AllLimited(items));
    F.SameLines(human, items);
    F.OneLineExactly(checks, isIP, instances, sub, format, items);
    F.BlankExactly(isIP, human, instances, sub, format, items);
    forall tag | tag in T.HEADER_TAGS
      ensures T.Told(Split(F.FeedOf(human, sub, items), '\n'), tag) == T.Told(T.HeaderLines(header), tag)
    {
      assert T.HeaderTag(tag);
      T.FeedTellsHeader(header, shown, tag);
    }
    T.HeaderTold(header);
  }

  /**
   The whole feed, read back: the header with its totals, and one block for each enabled entry that
   is not left out, in order, whose URI carries what it should and whose tags tell what they should.
   */
  lemma {:induction false} FeedTells(checks: Checks, isIP: string -> bool, human: int -> string, instances: F.Instances,
      sub: F.Subscription, format: F.Format, items: seq<F.Item>)
    requires F.AllStored(checks, instances) && F.WritesUnits(human)
    requires F.Items(isIP, instances, sub.entries, format, sub.omitToken) == Some(items)
    requires F.NoneBreaks(isIP, instances, sub, format) && !F.BlankAtEnd(isIP, instances, sub, format)
    ensures var feed := F.FeedOf(human, sub, items);
            var read, chosen := T.Parse(feed), Chosen(isIP, instances, sub.entries, format, sub.omitToken);
            && TellsHeader(human, Split(feed, '\n'), sub, items)
            && |read| == |chosen| == |items|
            && forall k :: 0 <= k < |read| ==>
                 && read[k].0 == items[k].uri && items[k].entry == chosen[k]
                 && Carries(instances, items[k], format, sub.omitToken) && Tells(human, read[k].1, items[k])
  {
    hide F.AllStored, F.WritesUnits, F.Items, F.NoneBreaks, F.BlankAtEnd, F.ShownItem, F.FeedOf, T.Parse, T.Metadata;
    hide Carries, Tells, TellsHeader, Chosen, Split;
    HeaderTells(checks, isIP, human, instances, sub, format, items);
    F.FeedRecovers(checks, isIP, human, instances, sub, format, items);
    FeedCarries(checks, isIP, instances, sub, format);
    forall k | 0 <= k < |items| ensures Tells(human, T.Metadata(F.ShownItem(human, items[k])), items[k]) {
      ItemTells(human, items[k]);
    }
    var chosen := Chosen(isIP, instances, sub.entries, format, sub.omitToken);
    assert EntriesOf(items) == chosen;
    assert forall k :: 0 <= k < |items| ==> EntriesOf(items)[k] == items[k].entry;
    assert forall k :: 0 <= k < |items| ==> F.ShownItems(human, items)[k].uri == items[k].uri by {
      UrisShown(human, items);
    }
  }

  lemma UrisShown(human: int -> string, items: seq<F.Item>)
    ensures forall k :: 0 <= k < |items| ==> F.ShownItems(human, items)[k].uri == items[k].uri
  {}
}
