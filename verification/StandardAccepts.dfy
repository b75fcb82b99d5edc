/**
 Exactly which QR-recovery texts leave the OLCBOX URI of a video-channel instance accepted.
 The printer puts the text in as it is, so it may smuggle in further options, but nothing else.
 */
module StandardAccepts {
  import opened Text
  import opened InstanceConfig
  import opened StandardUri
  import C = ClientUri

  const VIDEO := "videochannel"
  const RECOVERY := "video-qr-recovery"

  // ---------- options in sequence ----------

  lemma {:induction false} CutExtends(parts: seq<string>, allowed: set<string>, seen: map<string, string>)
    requires CutOptions(parts, allowed, seen).Some?
    ensures seen.Keys <= CutOptions(parts, allowed, seen).value.Keys
  {
    hide Cut, TrimSpace, AcceptOption;
    if parts != [] {
      var cut := Cut(parts[0], '=');
      CutExtends(parts[1..], allowed, seen[TrimSpace(cut.0) := TrimSpace(cut.1)]);
    }
  }

  lemma {:induction false} CutConcat(a: seq<string>, b: seq<string>, allowed: set<string>, seen: map<string, string>)
    ensures var first := CutOptions(a, allowed, seen);
            CutOptions(a + b, allowed, seen) == if first.None? then None else CutOptions(b, allowed, first.value)
  {
    hide Cut, TrimSpace, AcceptOption;
    if a == [] {
      assert a + b == b;
    } else {
      assert (a + b)[0] == a[0] && (a + b)[1..] == a[1..] + b;
      var cut := Cut(a[0], '=');
      CutConcat(a[1..], b, allowed, seen[TrimSpace(cut.0) := TrimSpace(cut.1)]);
    }
  }

  // Options seen before only matter by their names.
  lemma {:induction false} CutBehind(parts: seq<string>, allowed: set<string>, before: map<string, string>,
      seen: map<string, string>)
    requires before.Keys !! seen.Keys
    ensures var alone, all := CutOptions(parts, allowed, seen), CutOptions(parts, allowed, before + seen);
            && (all.Some? <==> alone.Some? && before.Keys !! alone.value.Keys)
            && (all.Some? ==> all.value == before + alone.value)
  {
    hide Cut, TrimSpace, AcceptOption;
    if parts != [] {
      var cut := Cut(parts[0], '=');
      var name, value := TrimSpace(cut.0), TrimSpace(cut.1);
      if !cut.2 || !AcceptOption(allowed, name, value) || name in seen {
      } else if name in before {
        if CutOptions(parts[1..], allowed, seen[name := value]).Some? {
          CutExtends(parts[1..], allowed, seen[name := value]);
        }
      } else {
        assert before + seen[name := value] == (before + seen)[name := value];
        CutBehind(parts[1..], allowed, before, seen[name := value]);
      }
    }
  }

  /** A text between well-formed options: it must be options itself, with other names. */
  lemma {:induction false} CutBetween(allowed: set<string>, a: Pairs, parts: seq<string>, b: Pairs)
    requires GoodPairs(allowed, a + b)
    ensures var own := CutOptions(parts, allowed, map[]);
            var all := CutOptions(PairTexts(a) + parts + PairTexts(b), allowed, map[]);
            && (all.Some? <==> own.Some? && forall p :: p in a + b ==> p.0 !in own.value)
            && (all.Some? ==> all.value == MapOf(a) + own.value + MapOf(b))
  {
    hide CutOptions, GoodPairs, MapOf, PairTexts;
    var own := CutOptions(parts, allowed, map[]);
    GoodParts(allowed, a, b);
    CutOptionsRoundTrip(allowed, a, map[]);
    CutOptionsRoundTrip(allowed, b, map[]);
    Empties(MapOf(a));
    Empties(MapOf(b));
    CutConcat(PairTexts(a) + parts, PairTexts(b), allowed, map[]);
    CutConcat(PairTexts(a), parts, allowed, map[]);
    CutBehind(parts, allowed, MapOf(a), map[]);
    NamesApart(a, b, own);
    if own.Some? && MapOf(a).Keys !! own.value.Keys {
      var seen := MapOf(a) + own.value;
      Empties(seen);
      CutBehind(PairTexts(b), allowed, seen, map[]);
      KeysOfSum(MapOf(a), own.value);
    }
  }

  lemma Empties(m: map<string, string>)
    ensures map[] + m == m && m + map[] == m
  {}

  lemma KeysOfSum(a: map<string, string>, b: map<string, string>)
    ensures (a + b).Keys == a.Keys + b.Keys
  {}

  lemma {:induction false} GoodParts(allowed: set<string>, a: Pairs, b: Pairs)
    requires GoodPairs(allowed, a + b)
    ensures GoodPairs(allowed, a) && GoodPairs(allowed, b) && MapOf(a).Keys !! MapOf(b).Keys
  {
    hide GoodPair, MapOf;
    var all := a + b;
    assert forall i :: 0 <= i < |a| ==> all[i] == a[i];
    assert forall i :: 0 <= i < |b| ==> all[|a| + i] == b[i];
    MapOfKeys(a);
    MapOfKeys(b);
  }

  lemma {:induction false} NamesApart(a: Pairs, b: Pairs, own: Option<map<string, string>>)
    ensures own.Some? ==>
              ((forall p :: p in a + b ==> p.0 !in own.value)
               <==> MapOf(a).Keys !! own.value.Keys && MapOf(b).Keys !! own.value.Keys)
  {
    MapOfKeys(a);
    MapOfKeys(b);
    hide MapOf;
    if own.Some? {
      if n :| n in MapOf(a).Keys && n in own.value.Keys {
        var i :| 0 <= i < |a| && a[i].0 == n;
        assert a[i] in a + b;
      }
      if n :| n in MapOf(b).Keys && n in own.value.Keys {
        var i :| 0 <= i < |b| && b[i].0 == n;
        assert b[i] in a + b;
      }
    }
  }

  // ---------- which characters options hold ----------

  // A character that no trimming removes and no option holds.
  predicate Foreign(c: char) {
    c == '?' || c == '<' || c == '>' || c == '#' || c == '$'
  }

  lemma {:induction false} TrimLeftKeeps(s: string, c: char)
    requires c in s && Foreign(c)
    ensures c in TrimLeft(s)
    decreases |s|
  {
    var n := SpaceLen(s);
    if n > 0 {
      assert c !in s[..n] by { SpaceLacks(s, c); }
      assert s == s[..n] + s[n..];
      TrimLeftKeeps(s[n..], c);
    }
  }

  lemma SpaceLacks(s: string, c: char)
    requires Foreign(c)
    ensures c !in s[..SpaceLen(s)]
  {}

  lemma {:induction false} TrimRightKeeps(s: string, c: char)
    requires c in s && Foreign(c)
    ensures c in TrimRight(s)
    decreases |s|
  {
    var n := SpaceLenEnd(s);
    if n > 0 {
      assert c !in s[|s| - n..] by { SpaceEndLacks(s, c); }
      assert s == s[..|s| - n] + s[|s| - n..];
      TrimRightKeeps(s[..|s| - n], c);
    }
  }

  lemma SpaceEndLacks(s: string, c: char)
    requires Foreign(c)
    ensures c !in s[|s| - SpaceLenEnd(s)..]
  {}

  lemma TrimKeeps(s: string, c: char)
    requires c in s && Foreign(c)
    ensures c in TrimSpace(s)
  {
    hide TrimLeft, TrimRight;
    TrimLeftKeeps(s, c);
    TrimRightKeeps(TrimLeft(s), c);
  }

  lemma AllowedPlain(name: string, c: char)
    requires name in AllowedOptions(VIDEO) && Foreign(c)
    ensures c !in name
  {
    assert GoodName(name);
    hide AllowedOptions;
  }

  // Options that are accepted hold none of these characters.
  lemma {:induction false} CutLacks(parts: seq<string>, seen: map<string, string>, c: char)
    requires Foreign(c) && CutOptions(parts, AllowedOptions(VIDEO), seen).Some?
    ensures forall p :: p in parts ==> c !in p
  {
    hide Cut, TrimSpace, AllowedOptions;
    if parts != [] {
      var cut := Cut(parts[0], '=');
      CutLacks(parts[1..], seen[TrimSpace(cut.0) := TrimSpace(cut.1)], c);
      AllowedPlain(TrimSpace(cut.0), c);
      if c in cut.0 {
        TrimKeeps(cut.0, c);
      }
      if c in cut.1 {
        TrimKeeps(cut.1, c);
      }
      assert parts == [parts[0]] + parts[1..];
    }
  }

  lemma {:induction false} PartsHold(s: string, c: char)
    requires c != '&' && forall p :: p in Split(s, '&') ==> c !in p
    ensures c !in s
  {
    JoinSplit(s, '&');
    JoinLacks(Split(s, '&'), '&', c);
  }

  // ---------- the payload with a text in it ----------

  // The options an instance prints without its QR-recovery text.
  function Others(o: Options): Pairs {
    OptionList(VIDEO, o.(videoQRRecover := "low"))
  }

  // The text, read as the options it stands for.
  function Own(text: string): Option<map<string, string>> {
    CutOptions(Split(RECOVERY + "=" + text, '&'), AllowedOptions(VIDEO), map[])
  }

  /** The text is a value, possibly with further options behind it, of names the instance does not print itself. */
  predicate Fits(o: Options) {
    Own(o.videoQRRecover).Some? && forall p :: p in Others(o) ==> p.0 !in Own(o.videoQRRecover).value
  }

  lemma {:induction false} PrintedConcat(a: seq<Entry>, b: seq<Entry>)
    ensures Printed(a + b) == Printed(a) + Printed(b)
  {
    if a == [] {
      assert a + b == b;
    } else {
      assert (a + b)[0] == a[0] && (a + b)[1..] == a[1..] + b;
      PrintedConcat(a[1..], b);
    }
  }

  lemma OthersAround(o: Options) returns (a: Pairs, b: Pairs)
    requires o.videoQRRecover != "low"
    ensures OptionList(VIDEO, o) == a + [(RECOVERY, o.videoQRRecover)] + b && Others(o) == a + b
  {
    var entries, without := VideoList(o), VideoList(o.(videoQRRecover := "low"));
    a, b := Printed(entries[..3]), Printed(entries[4..]);
    VideoAround(o);
    hide VideoList, Printed, OptionList, Others;
    PrintedAround(entries[..3], entries[3], entries[4..]);
    PrintedAround(without[..3], without[3], without[4..]);
  }

  lemma {:induction false} PrintedAround(a: seq<Entry>, e: Entry, b: seq<Entry>)
    ensures Printed(a + ([e] + b))
         == if e.printed then Printed(a) + [(e.name, e.value)] + Printed(b) else Printed(a) + Printed(b)
  {
    PrintedConcat(a, [e] + b);
    PrintedConcat([e], b);
    PrintedOne(e);
    hide Printed;
    assert Printed(a) + ([(e.name, e.value)] + Printed(b)) == Printed(a) + [(e.name, e.value)] + Printed(b);
    assert [] + Printed(b) == Printed(b);
  }

  lemma PrintedOne(e: Entry)
    ensures Printed([e]) == if e.printed then [(e.name, e.value)] else []
  {
    assert Printed([e][1..]) == [];
  }

  lemma VideoAround(o: Options)
    ensures var entries, without := VideoList(o), VideoList(o.(videoQRRecover := "low"));
            && |entries| == |without| == 8
            && entries == entries[..3] + ([entries[3]] + entries[4..])
               && without == without[..3] + ([without[3]] + without[4..])
            && without[..3] == entries[..3] && without[4..] == entries[4..] && !without[3].printed
            && entries[3] == Entry(RECOVERY, o.videoQRRecover, o.videoQRRecover != "low")
    ensures OptionList(VIDEO, o) == Printed(VideoList(o))
    ensures Others(o) == Printed(VideoList(o.(videoQRRecover := "low")))
  {
    hide Itoa;
  }

  lemma {:induction false} JoinReplaced(a: seq<string>, parts: seq<string>, b: seq<string>)
    requires parts != []
    ensures Join(a + parts + b, '&') == Join(a + [Join(parts, '&')] + b, '&')
  {
    if a != [] {
      var rest := a[1..];
      JoinReplaced(rest, parts, b);
      assert a + parts + b == [a[0]] + (rest + parts + b);
      assert a + [Join(parts, '&')] + b == [a[0]] + (rest + [Join(parts, '&')] + b);
      JoinCons(a[0], rest + parts + b, '&');
      JoinCons(a[0], rest + [Join(parts, '&')] + b, '&');
    } else {
      assert a + parts + b == parts + b && a + [Join(parts, '&')] + b == [Join(parts, '&')] + b;
      JoinFront(parts, b);
    }
  }

  lemma {:induction false} JoinFront(parts: seq<string>, b: seq<string>)
    requires parts != []
    ensures Join(parts + b, '&') == Join([Join(parts, '&')] + b, '&')
  {
    if b == [] {
      assert parts + b == parts && [Join(parts, '&')] + b == [Join(parts, '&')];
    } else if |parts| == 1 {
      assert parts == [parts[0]];
    } else {
      JoinFront(parts[1..], b);
      assert parts + b == [parts[0]] + (parts[1..] + b);
      JoinCons(parts[0], parts[1..] + b, '&');
      JoinCons(Join(parts, '&'), b, '&');
      JoinCons(Join(parts[1..], '&'), b, '&');
      assert parts == [parts[0]] + parts[1..];
      JoinCons(parts[0], parts[1..], '&');
    }
  }

  lemma {:induction false} SplitBetween(a: seq<string>, text: string, b: seq<string>)
    requires forall p :: p in a + b ==> '&' !in p
    ensures Split(Join(a + [text] + b, '&'), '&') == a + Split(text, '&') + b
  {
    JoinSplit(text, '&');
    JoinReplaced(a, Split(text, '&'), b);
    var parts := a + Split(text, '&') + b;
    assert forall p :: p in parts ==> p in a + b || p in Split(text, '&');
    hide Join, Split;
    SplitJoin(parts, '&');
  }

  lemma {:induction false} TextsConcat(a: Pairs, b: Pairs)
    ensures PairTexts(a + b) == PairTexts(a) + PairTexts(b)
  {
    if a == [] {
      assert a + b == b;
    } else {
      assert (a + b)[0] == a[0] && (a + b)[1..] == a[1..] + b;
      TextsConcat(a[1..], b);
    }
  }

  // What is printed between the brackets.
  function Inner(o: Options): string {
    Join(PairTexts(OptionList(VIDEO, o)), '&')
  }

  lemma OthersGood(item: Plain)
    requires item.transport == VIDEO && item.transport in TRANSPORTS && ValidTransport(item.transport, item.options)
    ensures GoodPairs(AllowedOptions(VIDEO), Others(item.options))
  {
    var low := item.(options := item.options.(videoQRRecover := "low"));
    assert ValidTransport(low.transport, low.options) && CleanRecovery(low);
    hide ValidTransport, CleanRecovery;
    OptionListGood(low);
  }

  // The printed options are accepted exactly when the text fits between the others.
  lemma InnerFits(item: Plain)
    requires item.transport == VIDEO && item.transport in TRANSPORTS && ValidTransport(item.transport, item.options)
    requires item.options.videoQRRecover != "low"
    ensures CutOptions(Split(Inner(item.options), '&'), AllowedOptions(VIDEO), map[]).Some? <==> Fits(item.options)
    ensures Inner(item.options) != "" && forall c :: c in item.options.videoQRRecover ==> c in Inner(item.options)
    ensures forall c :: c in Inner(item.options) ==> c in item.options.videoQRRecover || PayloadChar(c)
  {
    var o := item.options;
    OthersGood(item);
    var a, b := OthersAround(o);
    hide GoodPairs, AllowedOptions, OptionList, CutOptions, PairTexts, Split, Join, Others, ValidTransport, Own;
    AroundFits(a, o.videoQRRecover, b);
    AroundChars(a, o.videoQRRecover, b);
  }

  lemma {:induction false} AroundFits(a: Pairs, text: string, b: Pairs)
    requires GoodPairs(AllowedOptions(VIDEO), a + b)
    ensures var inner := Join(PairTexts(a + [(RECOVERY, text)] + b), '&');
            CutOptions(Split(inner, '&'), AllowedOptions(VIDEO), map[]).Some?
            <==> Own(text).Some? && forall p :: p in a + b ==> p.0 !in Own(text).value
  {
    var part := RECOVERY + "=" + text;
    hide GoodPairs, AllowedOptions, CutOptions, PairTexts, Split, Join;
    InnerChars(AllowedOptions(VIDEO), a + b);
    TextsAround(a, text, b);
    TextsConcat(a, b);
    SplitBetween(PairTexts(a), part, PairTexts(b));
    CutBetween(AllowedOptions(VIDEO), a, Split(part, '&'), b);
  }

  lemma {:induction false} AroundChars(a: Pairs, text: string, b: Pairs)
    requires GoodPairs(AllowedOptions(VIDEO), a + b)
    ensures var inner := Join(PairTexts(a + [(RECOVERY, text)] + b), '&');
            && inner != "" && (forall c :: c in text ==> c in inner)
            && (forall c :: c in inner ==> c in text || PayloadChar(c))
  {
    var part := RECOVERY + "=" + text;
    InnerChars(AllowedOptions(VIDEO), a + b);
    hide GoodPairs, AllowedOptions, PairTexts, Join;
    TextsAround(a, text, b);
    JoinHolds(PairTexts(a), part, PairTexts(b));
    InnerFrom(a, text, b);
    assert forall c :: c in text ==> c in part;
  }

  lemma {:induction false} TextsAround(a: Pairs, text: string, b: Pairs)
    ensures PairTexts(a + [(RECOVERY, text)] + b) == PairTexts(a) + [RECOVERY + "=" + text] + PairTexts(b)
  {
    var q := (RECOVERY, text);
    TextsConcat(a + [q], b);
    TextsConcat(a, [q]);
    assert PairTexts([q]) == [PairText(q)];
    assert PairText(q) == RECOVERY + "=" + text;
    hide PairTexts;
  }

  lemma {:induction false} JoinHolds(a: seq<string>, text: string, b: seq<string>)
    requires text != ""
    ensures var s := Join(a + [text] + b, '&'); s != "" && forall c :: c in text && c != '&' ==> c in s
    ensures '&' in text ==> '&' in Join(a + [text] + b, '&')
  {
    var parts := a + [text] + b;
    assert parts[|a|] == text;
    forall c | c in text && c != '&' ensures c in Join(parts, '&') {
      JoinHas(parts, '&', c);
    }
    Holds(parts, |a|);
  }

  lemma {:induction false} Holds(parts: seq<string>, k: nat)
    requires k < |parts| && parts[k] != ""
    ensures Join(parts, '&') != ""
    ensures '&' in parts[k] ==> '&' in Join(parts, '&')
  {
    if |parts| > 1 && k > 0 {
      Holds(parts[1..], k - 1);
    }
  }

  lemma {:induction false} InnerFrom(a: Pairs, text: string, b: Pairs)
    requires PayloadText(Join(PairTexts(a + b), '&'))
    ensures forall c :: c in Join(PairTexts(a) + [RECOVERY + "=" + text] + PairTexts(b), '&') ==>
              c in text || PayloadChar(c)
  {
    TextsConcat(a, b);
    TagChars();
    forall c | c in Join(PairTexts(a) + [RECOVERY + "=" + text] + PairTexts(b), '&')
        && c !in text ensures PayloadChar(c) {
      if c != '&' {
        hide Join, PairTexts, PayloadChar;
        FromOthers(PairTexts(a), RECOVERY + "=" + text, PairTexts(b), c);
        assert c in RECOVERY + "=" + text ==> c in RECOVERY + "=" || c in text;
      }
    }
  }

  lemma TagChars()
    ensures forall c :: c in RECOVERY + "=" ==> PayloadChar(c)
  {
    var word: string := RECOVERY + "=";
    assert forall i :: 0 <= i < |word| ==> PayloadChar(word[i]);
  }

  lemma {:induction false} FromOthers(a: seq<string>, text: string, b: seq<string>, c: char)
    requires c != '&' && c in Join(a + [text] + b, '&')
    ensures c in text || c in Join(a + b, '&')
  {
    var parts, others := a + [text] + b, a + b;
    JoinHas(parts, '&', c);
    JoinHas(others, '&', c);
    hide Join;
    var k :| 0 <= k < |parts| && c in parts[k];
    if k != |a| {
      assert parts[k] == others[if k < |a| then k else k - 1];
    }
  }

  // ---------- the whole URI ----------

  // A bracketed payload is cut from its transport exactly when it holds no bracket and is a list of options.
  lemma {:induction false} TokenExactly(inner: string)
    requires inner != ""
    ensures var cut := CutTransport(VIDEO + (['<'] + inner + ['>']));
            && (cut.Some? <==>
                  ('<' !in inner && '>' !in inner
                   && CutOptions(Split(inner, '&'), AllowedOptions(VIDEO), map[]).Some?))
            && (cut.Some? ==> cut.value.0 == VIDEO)
  {
    hide CutOptions, Split, AllowedOptions, CountChar, Index, TrimSpace, ContainsAny, CutTransport;
    VideoWord();
    hide GoodName;
    var token := VIDEO + (['<'] + inner + ['>']);
    TransportName(VIDEO);
    NonEmptyName(VIDEO);
    assert token == VIDEO + ['<'] + (inner + ['>']);
    IndexAt(VIDEO, '<', inner + ['>']);
    Brackets(VIDEO, inner);
    assert token[|VIDEO| + 1..|token| - 1] == inner && token[..|VIDEO|] == VIDEO && token[|token| - 1] == '>';
    Bracketed(token, VIDEO, inner);
  }

  // What CutTransport does with a bracketed token.
  lemma {:induction false} Bracketed(token: string, transport: string, inner: string)
    requires Index(token, '<') == |transport| && |token| >= |transport| + 2 && token[|token| - 1] == '>'
    requires token[..|transport|] == transport && token[|transport| + 1..|token| - 1] == inner
    requires transport != "" && inner != "" && TrimSpace(transport) == transport
    requires !ContainsAny(transport, {'<', '>', '@', '#', '$', '?', '&', '=', '\r', '\n'})
    ensures var options := CutOptions(Split(inner, '&'), AllowedOptions(transport), map[]);
            CutTransport(token)
            == if CountChar(token, '<') == 1 && CountChar(token, '>') == 1 && options.Some?
               then Some((transport, options.value)) else None
  {
    hide CutOptions, Split, AllowedOptions, TrimSpace, CountChar, ContainsAny, Index;
  }

  lemma Brackets(transport: string, inner: string)
    requires GoodName(transport)
    ensures var token := transport + (['<'] + inner + ['>']);
            CountChar(token, '<') == 1 && CountChar(token, '>') == 1 <==> '<' !in inner && '>' !in inner
  {
    assert '<' !in transport && '>' !in transport;
    hide GoodName, CountChar;
    CountAbsent(transport, '<');
    CountAbsent(transport, '>');
    CountFramed(transport, inner, '<');
    CountFramed(transport, inner, '>');
    CountSome(inner, '<');
    CountSome(inner, '>');
    OneCount();
  }

  lemma {:induction false} CountFramed(a: string, inner: string, c: char)
    ensures CountChar(a + (['<'] + inner + ['>']), c)
         == CountChar(a, c) + CountChar(['<'], c) + CountChar(inner, c) + CountChar(['>'], c)
  {
    hide CountChar;
    CountConcat(a, ['<'] + inner + ['>'], c);
    CountConcat(['<'] + inner, ['>'], c);
    CountConcat(['<'], inner, c);
  }

  lemma OneCount()
    ensures CountChar(['<'], '<') == 1 && CountChar(['>'], '<') == 0
    ensures CountChar(['<'], '>') == 0 && CountChar(['>'], '>') == 1
  {
    assert CountChar("", '<') == 0 && CountChar("", '>') == 0;
    assert ['<'][1..] == "" && ['>'][1..] == "";
  }

  lemma {:induction false} CountSome(s: string, c: char)
    ensures CountChar(s, c) == 0 <==> c !in s
  {
    if s != "" {
      CountSome(s[1..], c);
    }
  }

  // The part behind the first '@' holds no other.
  lemma RoomLacksAt(provider: string, transport: string, options: map<string, string>, rest: string)
    requires CutRoom(provider, transport, options, rest).Some?
    ensures '@' !in rest
  {
    hide TrimSpace, Cut, C.ValidKey, PlainText;
    var cut := Cut(rest, '#');
    var last := Cut(cut.1, '$');
    assert rest == cut.0 + ['#'] + cut.1;
    assert cut.1 == if last.2 then last.0 + ['$'] + last.1 else last.0;
    assert '@' !in cut.0 by { PlainLacksAt(cut.0); }
    assert '@' !in last.0 by { KeyLacksAt(last.0); }
    assert '@' !in last.1;
  }

  lemma PlainLacksAt(s: string)
    requires PlainText(s)
    ensures '@' !in s
  {}

  lemma KeyLacksAt(key: string)
    requires C.ValidKey(key)
    ensures '@' !in key
  {}

  // A second '@' in front of the room is never accepted.
  lemma AtRejected(provider: string, token: string, tail: string)
    requires '?' !in provider && '@' !in provider && '@' in token
    ensures CutBody(Body(provider, token, tail)).None?
  {
    hide CutTransport, CutRoom, Cut, TrimSpace, Index, CutBody;
    var body := Body(provider, token, tail);
    IndexAt(provider, '?', token + ['@'] + tail);
    var cut := Cut(token, '@');
    var rest := cut.1 + ['@'] + tail;
    assert body == (provider + ['?'] + cut.0) + ['@'] + rest;
    assert '@' !in provider + ['?'] + cut.0;
    IndexAt(provider + ['?'] + cut.0, '@', rest);
    assert rest[|cut.1|] == '@';
    hide Body;
    BodyLacksAt(body, rest);
  }

  // An accepted body has one '@'.
  lemma {:induction false} BodyLacksAt(body: string, rest: string)
    requires Index(body, '@') >= 0 && body[Index(body, '@') + 1..] == rest && '@' in rest
    ensures CutBody(body).None?
  {
    hide CutTransport, CutRoom, TrimSpace, Index;
    if CutBody(body).Some? {
      var question, at := Index(body, '?'), Index(body, '@');
      var transport := CutTransport(TrimSpace(body[question + 1..at]));
      RoomLacksAt(TrimSpace(body[..question]), transport.value.0, transport.value.1, rest);
    }
  }

  // Without one, the token decides.
  lemma TokenDecides(provider: string, token: string, room: string, key: string, comment: string)
    requires provider in PROVIDERS && '?' !in provider && '@' !in provider && TrimSpace(provider) == provider
             && provider != ""
    requires '@' !in token && TrimSpace(token) == token
    requires CutTransport(token).Some? ==> CutTransport(token).value.0 in TRANSPORTS
    requires C.ValidKey(key) && TrimSpace(room) != "" && PlainText(room) && PlainText(comment)
    ensures var body := Body(provider, token, Tail(room, key, comment));
            BodyFormat(body) == Olcbox && (CutBody(body).Some? <==> CutTransport(token).Some?)
  {
    hide CutTransport, CutRoom, TrimSpace, Index, Tail, PlainText, C.ValidKey, CutBody, BodyFormat;
    var tail := Tail(room, key, comment);
    var body := Body(provider, token, tail);
    IndexAt(provider, '?', token + ['@'] + tail);
    assert body == (provider + ['?'] + token) + ['@'] + tail;
    IndexAt(provider + ['?'] + token, '@', tail);
    assert body[..|provider|] == provider;
    assert body[|provider| + 1..|provider| + 1 + |token|] == token;
    assert body[|provider| + 1 + |token| + 1..] == tail;
    if CutTransport(token).Some? {
      CutRoomRoundTrip(provider, CutTransport(token).value.0, CutTransport(token).value.1, room, key, comment);
    }
    hide Body;
    BodyOf(body, provider, token, tail);
  }

  // What CutBody does with the two delimiters in place.
  lemma {:induction false} BodyOf(body: string, provider: string, token: string, tail: string)
    requires Index(body, '?') == |provider| && Index(body, '@') == |provider| + 1 + |token|
    requires |body| == |provider| + |token| + 2 + |tail| && body[..|provider|] == provider
    requires body[|provider| + 1..|provider| + 1 + |token|] == token && body[|provider| + 1 + |token| + 1..] == tail
    requires provider in PROVIDERS && provider != "" && TrimSpace(provider) == provider && TrimSpace(token) == token
    ensures BodyFormat(body) == Olcbox
    ensures var cut := CutTransport(token);
            CutBody(body)
            == if cut.Some? && cut.value.0 in TRANSPORTS then CutRoom(provider, cut.value.0, cut.value.1, tail)
                else None
  {
    hide CutTransport, CutRoom, TrimSpace, Index;
  }

  // The URI is accepted exactly when its body is and nothing in it breaks lines.
  lemma UriExactly(raw: string, body: string)
    requires raw == PREFIX + body && TrimSpace(raw) == raw
    ensures CutUri(raw).Some? <==> BodyFormat(body) == Olcbox && Unbroken(body) && CutBody(body).Some?
  {
    hide TrimSpace, CutBody, BodyFormat, HasScheme;
    PrefixScheme(body);
    assert forall i :: 0 <= i < |body| ==> raw[|PREFIX| + i] == body[i];
    assert forall i :: 0 <= i < |PREFIX| ==> raw[i] == PREFIX[i];
    assert forall i :: |PREFIX| <= i < |raw| ==> raw[i] == body[i - |PREFIX|];
  }

  lemma WholeBody(provider: string, token: string, room: string, key: string, comment: string)
    requires Unbroken(provider) && PlainText(room) && C.ValidKey(key) && PlainText(comment)
    ensures Unbroken(Body(provider, token, Tail(room, key, comment))) <==> Unbroken(token)
  {
    TailUnbroken(room, key, comment);
    var tail := Tail(room, key, comment);
    hide Tail, PlainText, C.ValidKey;
    var body := Body(provider, token, tail);
    assert forall i :: 0 <= i < |token| ==> body[|provider| + 1 + i] == token[i];
    if Unbroken(token) {
      BodyUnbroken(provider, token, tail);
    }
  }

  // The token of an instance that prints its text: bracketed, trimmed, and broken only by the text.
  lemma TokenOf(item: Plain)
    requires item.transport == VIDEO && item.transport in TRANSPORTS && ValidTransport(item.transport, item.options)
    requires item.options.videoQRRecover != "low"
    ensures var token := item.transport + StandardPayload(item);
            && token == VIDEO + (['<'] + Inner(item.options) + ['>']) && TrimSpace(token) == token
  {
    var a, b := OthersAround(item.options);
    assert OptionList(VIDEO, item.options) != [];
    hide OptionList, ValidTransport;
    PayloadShape(OptionList(VIDEO, item.options));
    var token := VIDEO + (['<'] + Inner(item.options) + ['>']);
    assert token[0] == 'v' && token[|token| - 1] == '>';
    FramedTrimmed(token);
    TrimmedFixed(token);
  }

  lemma VideoWord()
    ensures GoodName(VIDEO)
  {}

  lemma TokenHolds(inner: string, c: char)
    requires c == '@' || c == '\r' || c == '\n'
    ensures c in VIDEO + (['<'] + inner + ['>']) <==> c in inner
  {
    assert GoodName(VIDEO);
    assert c !in VIDEO;
  }

  // For a plain text the brackets hold nothing foreign; any other text has something no list of options holds.
  lemma PlainDecides(o: Options)
    requires forall c :: c in o.videoQRRecover ==> c in Inner(o)
    requires forall c :: c in Inner(o) ==> c in o.videoQRRecover || PayloadChar(c)
    ensures PlainText(o.videoQRRecover) ==>
              Unbroken(Inner(o)) && '@' !in Inner(o) && '<' !in Inner(o) && '>' !in Inner(o)
    ensures !PlainText(o.videoQRRecover) && Unbroken(Inner(o)) && '@' !in Inner(o) ==>
              CutOptions(Split(Inner(o), '&'), AllowedOptions(VIDEO), map[]).None?
  {
    var text, inner := o.videoQRRecover, Inner(o);
    hide Inner;
    if PlainText(text) {
      assert forall c :: c in text ==> PlainChar(c);
      assert forall i :: 0 <= i < |inner| ==> inner[i] in inner;
      assert forall c :: c in inner ==> PlainChar(c);
    } else {
      var i :| 0 <= i < |text| && !PlainChar(text[i]);
      var c := text[i];
      assert c in inner;
      if Unbroken(inner) && '@' !in inner && CutOptions(Split(inner, '&'), AllowedOptions(VIDEO), map[]).Some? {
        assert Foreign(c);
        CutLacks(Split(inner, '&'), map[], c);
        PartsHold(inner, c);
      }
    }
  }

  /**
   Exactly which texts leave the URI accepted.  The URI of a video-channel instance that prints its
   QR-recovery text is cut if and only if the text holds no delimiter of the format and no
   line break, and, read where it stands, is a value with possibly further options behind it,
   all acceptable and none of them printed by the instance itself.
   */
  lemma AcceptsExactly(item: Plain, key: string, comment: string)
    requires Printable(item, key) && TrimSpace(item.roomID) != "" && ValidTransport(item.transport, item.options)
    requires item.transport == VIDEO && item.options.videoQRRecover != "low"
    ensures var uri := Print(item, key, comment).value;
            && (CutUri(uri).Some? <==> PlainText(item.options.videoQRRecover) && Fits(item.options))
            && (Accepts(uri) <==> |uri| <= C.MAX_URI && PlainText(item.options.videoQRRecover) && Fits(item.options))
  {
    assert item.transport in TRANSPORTS;
    var uri := Print(item, key, comment).value;
    hide Printable, ValidTransport, Print, CutUri, Accepts, Inner, Fits, PlainText, CutOptions, Split, AllowedOptions,
        Unbroken;
    InnerFits(item);
    PlainDecides(item.options);
    UriOfInner(item, key, comment);
    AcceptsIs(uri);
  }

  lemma AcceptsIs(raw: string)
    ensures Accepts(raw) <==> |raw| <= C.MAX_URI && CutUri(raw).Some?
  {
    hide CutUri;
  }

  // The URI is cut exactly when what stands between the brackets is unbroken, holds no '@' or bracket, and is options.
  lemma UriOfInner(item: Plain, key: string, comment: string)
    requires Printable(item, key) && TrimSpace(item.roomID) != "" && ValidTransport(item.transport, item.options)
    requires item.transport == VIDEO && item.options.videoQRRecover != "low" && Inner(item.options) != ""
    ensures var inner := Inner(item.options);
            CutUri(Print(item, key, comment).value).Some?
            <==> (Unbroken(inner) && '@' !in inner && '<' !in inner && '>' !in inner
                  && CutOptions(Split(inner, '&'), AllowedOptions(VIDEO), map[]).Some?)
  {
    assert item.provider in PROVIDERS && item.transport in TRANSPORTS && C.ValidKey(key) && PlainText(item.roomID);
    hide Printable, Inner, CutOptions, Split, AllowedOptions, CutUri, CutBody, BodyFormat, CutTransport, Body, Tail,
        PlainText,
         C.ValidKey, Unbroken, TrimSpace, ValidTransport, StandardPayload, Print, StandardComment, GoodName;
    var inner, text := Inner(item.options), StandardComment(comment);
    var token := item.transport + StandardPayload(item);
    var body := Body(item.provider, token, Tail(item.roomID, key, text));
    CommentIsClean(comment);
    ProviderWord(item.provider);
    NameText(item.provider);
    TokenOf(item);
    PrintShape(item, key, comment);
    RawTrimmed(PREFIX + item.provider + ['?'] + token + ['@'] + item.roomID + ['#'] + key, text);
    UriExactly(Print(item, key, comment).value, body);
    WholeBody(item.provider, token, item.roomID, key, text);
    TokenUnbroken(inner);
    TokenHolds(inner, '@');
    TokenExactly(inner);
    if '@' in token {
      AtRejected(item.provider, token, Tail(item.roomID, key, text));
    } else {
      TokenDecides(item.provider, token, item.roomID, key, text);
    }
  }

  lemma TokenUnbroken(inner: string)
    ensures Unbroken(VIDEO + (['<'] + inner + ['>'])) <==> Unbroken(inner)
  {
    var token := VIDEO + (['<'] + inner + ['>']);
    assert GoodName(VIDEO);
    assert forall i :: 0 <= i < |inner| ==> token[|VIDEO| + 1 + i] == inner[i];
    assert forall i :: 0 <= i < |VIDEO| ==> token[i] == VIDEO[i];
    assert forall i :: |VIDEO| < i < |token| - 1 ==> token[i] == inner[i - |VIDEO| - 1];
  }

  // ---------- an option smuggled in ----------

  const BITRATE := "video-bitrate"

  lemma OtherNames(o: Options, p: (string, string))
    requires p in Others(o)
    ensures p.0 != RECOVERY && p.0 != BITRATE
  {
    var without := VideoList(o.(videoQRRecover := "low"));
    VideoAround(o);
    hide Printed;
    PrintedMembers(without, p);
    var i :| 0 <= i < |without| && without[i].printed && (without[i].name, without[i].value) == p;
    hide Itoa;
    VideoNameAt(o.(videoQRRecover := "low"), i);
  }

  lemma VideoNameAt(o: Options, i: nat)
    requires i < |VideoList(o)|
    ensures var name := VideoList(o)[i].name;
            |name| > 6 && (i != 3 ==> name != RECOVERY) && name != BITRATE
  {
    hide Itoa;
    var name := VideoList(o)[i].name;
    assert RECOVERY[6] == 'q' && RECOVERY[9] == 'r' && BITRATE[6] == 'b';
    match i
    case 0 => assert name[6] == 'c';
    case 1 => assert name[6] == 'f';
    case 2 => assert name[6] == 'h';
    case 3 => assert name[6] == 'q';
    case 4 => assert name[6] == 'q' && name[9] == 's';
    case 5 => assert name[6] == 't';
    case 6 => assert name[6] == 't';
    case _ => assert name[6] == 'w';
  }

  /** Any clean value with a bit rate behind it is such a text: the URI carries an option no instance prints. */
  lemma BitrateInjected(item: Plain, key: string, comment: string, v: string, w: string)
    requires Printable(item, key) && TrimSpace(item.roomID) != "" && ValidTransport(item.transport, item.options)
    requires item.transport == VIDEO && CleanValue(v) && CleanValue(w)
    requires item.options.videoQRRecover == v + "&" + (BITRATE + "=" + w)
    ensures !CleanRecovery(item) && CutUri(Print(item, key, comment).value).Some?
  {
    var text := item.options.videoQRRecover;
    var o := item.options;
    assert text[|v|] == '&' && !ValueChar('&');
    assert !CleanValue(text);
    assert text != "low" by { assert '&' !in "low"; }
    InjectedFits(o, v, w);
    InjectedPlain(v, w);
    hide ValidTransport, Printable, Fits, CleanValue, Print, CutUri, PlainText, TrimSpace;
    AcceptsExactly(item, key, comment);
  }

  lemma InjectedPlain(v: string, w: string)
    requires CleanValue(v) && CleanValue(w)
    ensures PlainText(v + "&" + (BITRATE + "=" + w))
  {
    var word: string := BITRATE;
    assert forall i :: 0 <= i < |word| ==> PlainChar(word[i]);
    var s := v + "&" + (word + "=" + w);
    forall i | 0 <= i < |s| ensures PlainChar(s[i]) {
      assert s[i] in v || s[i] == '&' || s[i] in word || s[i] == '=' || s[i] in w;
    }
  }

  lemma InjectedFits(o: Options, v: string, w: string)
    requires CleanValue(v) && CleanValue(w) && o.videoQRRecover == v + "&" + (BITRATE + "=" + w)
    ensures Fits(o)
  {
    var pairs: Pairs := [(RECOVERY, v), (BITRATE, w)];
    hide GoodPairs, AllowedOptions, CutOptions, Split, Join, Others, PairTexts, CleanValue, MapOf;
    InjectedPairs(v, w);
    InjectedTexts(v, w);
    InjectedJoin(v, w);
    InnerChars(AllowedOptions(VIDEO), pairs);
    SplitJoin(PairTexts(pairs), '&');
    CutOptionsRoundTrip(AllowedOptions(VIDEO), pairs, map[]);
    Empties(MapOf(pairs));
    MapOfKeys(pairs);
    forall p | p in Others(o) ensures p.0 !in MapOf(pairs) {
      OtherNames(o, p);
    }
  }

  lemma InjectedTexts(v: string, w: string)
    ensures PairTexts([(RECOVERY, v), (BITRATE, w)]) == [RECOVERY + "=" + v, BITRATE + "=" + w]
  {
    var pairs: Pairs := [(RECOVERY, v), (BITRATE, w)];
    assert PairText(pairs[0]) == RECOVERY + "=" + v && PairText(pairs[1]) == BITRATE + "=" + w;
  }

  lemma InjectedJoin(v: string, w: string)
    ensures Join([RECOVERY + "=" + v, BITRATE + "=" + w], '&') == RECOVERY + "=" + (v + "&" + (BITRATE + "=" + w))
  {
    assert [RECOVERY + "=" + v, BITRATE + "=" + w][1..] == [BITRATE + "=" + w];
  }

  lemma InjectedPairs(v: string, w: string)
    requires CleanValue(v) && CleanValue(w)
    ensures GoodPairs(AllowedOptions(VIDEO), [(RECOVERY, v), (BITRATE, w)])
  {
    assert GoodName(RECOVERY) && GoodName(BITRATE) && RECOVERY !in NUMERIC && BITRATE !in NUMERIC;
    assert RECOVERY[6] == 'q' && BITRATE[6] == 'b';
    hide GoodName;
  }
}
