/**
 The OLCBOX URI (internal/instance/uri.go): `olcrtc://provider?transport<options>@room#key$comment`.
 The printer joins text with delimiters; the validator cuts at the first one it finds.
 */
module StandardUri {
  import opened Text
  import opened InstanceConfig
  import opened Sorting
  import C = ClientUri

  // ---------- the comment ----------

  predicate Separator(c: char) {
    c == '?' || c == '<' || c == '>' || c == '@' || c == '#' || c == '$'
  }

  predicate LineBreak(c: char) {
    c == '\r' || c == '\n'
  }

  function CommentChar(c: char): char {
    if Separator(c) then '-' else if LineBreak(c) then ' ' else c
  }

  function MapComment(s: string): (r: string)
    ensures |r| == |s| && forall i :: 0 <= i < |s| ==> r[i] == CommentChar(s[i])
  {
    if s == "" then "" else [CommentChar(s[0])] + MapComment(s[1..])
  }

  // strings.Fields: `word` is the piece of text since the last white space.
  function FieldsFrom(s: string, word: string): seq<string>
    decreases |s|
  {
    var done := if word == "" then [] else [word];
    if s == "" then done
    else if SpaceLen(s) > 0 then done + FieldsFrom(s[SpaceLen(s)..], "")
    else FieldsFrom(s[1..], word + [s[0]])
  }

  function StandardComment(comment: string): string {
    Join(FieldsFrom(MapComment(comment), ""), ' ')
  }

  /** The builder loop of standardComment. */
  method BuildComment(comment: string) returns (out: string)
    ensures out == StandardComment(comment)
  {
    var builder := "";
    for i := 0 to |comment|
      invariant |builder| == i
      invariant forall j :: 0 <= j < i ==> builder[j] == CommentChar(comment[j])
    {
      var c := comment[i];
      if Separator(c) {
        builder := builder + "-";
      } else if LineBreak(c) {
        builder := builder + " ";
      } else {
        builder := builder + [c];
      }
    }
    assert builder == MapComment(comment);
    out := Join(FieldsFrom(builder, ""), ' ');
  }

  predicate PlainChar(c: char) {
    !Separator(c) && !LineBreak(c)
  }

  predicate PlainText(s: string) {
    forall i :: 0 <= i < |s| ==> PlainChar(s[i])
  }

  // No white-space rune starts anywhere in the word.
  predicate Solid(w: string) {
    forall j :: 0 <= j < |w| ==> SpaceLen(w[j..]) == 0
  }

  lemma SpaceLenGrows(w: string, more: string)
    requires SpaceLen(w + more) == 0
    ensures SpaceLen(w) == 0
  {}

  lemma {:induction false} FieldsSolid(s: string, word: string)
    requires PlainText(s) && PlainText(word)
    requires forall j :: 0 <= j < |word| ==> SpaceLen(word[j..] + s) == 0
    ensures forall w :: w in FieldsFrom(s, word) ==> w != "" && PlainText(w) && Solid(w)
    decreases |s|
  {
    forall j | 0 <= j < |word|
      ensures SpaceLen(word[j..]) == 0
    {
      SpaceLenGrows(word[j..], s);
    }
    assert Solid(word);
    if s != "" {
      if SpaceLen(s) > 0 {
        FieldsSolid(s[SpaceLen(s)..], "");
      } else {
        var word' := word + [s[0]];
        forall j | 0 <= j < |word'|
          ensures SpaceLen(word'[j..] + s[1..]) == 0
        {
          if j < |word| {
            assert word'[j..] + s[1..] == word[j..] + s;
          } else {
            assert word'[j..] + s[1..] == s;
          }
        }
        FieldsSolid(s[1..], word');
      }
    }
  }

  // A white-space rune that ends a word starts inside it.
  lemma SolidEnd(w: string)
    requires Solid(w) && w != ""
    ensures SpaceLenEnd(w) == 0
  {
    var k := |w|;
    assert SpaceLen(w[k - 1..]) == 0 && w[k - 1..] == [w[k - 1]];
    if k >= 2 {
      assert SpaceLen(w[k - 2..]) == 0 && w[k - 2..] == [w[k - 2], w[k - 1]];
    }
    if k >= 3 {
      assert SpaceLen(w[k - 3..]) == 0 && w[k - 3..] == [w[k - 3], w[k - 2], w[k - 1]];
    }
    LastRunes(w);
    hide Solid, SpaceLenEnd;
  }

  lemma LastRunes(w: string)
    requires w != "" && SpaceLen([w[|w| - 1]]) == 0
    requires |w| >= 2 ==> SpaceLen([w[|w| - 2], w[|w| - 1]]) == 0
    requires |w| >= 3 ==> SpaceLen([w[|w| - 3], w[|w| - 2], w[|w| - 1]]) == 0
    ensures SpaceLenEnd(w) == 0
  {}

  lemma SolidThenBlank(w: string, rest: string)
    requires Solid(w) && w != ""
    ensures SpaceLen(w + [' '] + rest) == 0
  {
    assert w[0..] == w;
    assert SpaceLen(w) == 0;
  }

  lemma BlankThenTrimmed(w: string, rest: string)
    requires rest != "" && Trimmed(rest)
    ensures SpaceLenEnd(w + [' '] + rest) == 0
  {
    var s := w + [' '] + rest;
    assert s[|s| - 1] == rest[|rest| - 1];
    if |rest| >= 2 {
      assert s[|s| - 2] == rest[|rest| - 2];
    }
    if |rest| >= 3 {
      assert s[|s| - 3] == rest[|rest| - 3];
    }
  }

  lemma {:induction false} JoinedTrimmed(words: seq<string>)
    requires forall w :: w in words ==> w != "" && PlainText(w) && Solid(w)
    ensures var s := Join(words, ' '); Trimmed(s) && PlainText(s) && (words != [] ==> s != "")
  {
    if |words| == 1 {
      SolidEnd(words[0]);
      assert words[0][0..] == words[0];
    } else if |words| > 1 {
      var rest := Join(words[1..], ' ');
      assert forall w :: w in words[1..] ==> w in words;
      assert words[0] in words;
      JoinedTrimmed(words[1..]);
      SolidThenBlank(words[0], rest);
      BlankThenTrimmed(words[0], rest);
    }
  }

  /** Any display text becomes a comment that holds no delimiter and no outer white space. */
  lemma CommentIsClean(comment: string)
    ensures PlainText(StandardComment(comment)) && Trimmed(StandardComment(comment))
  {
    FieldsSolid(MapComment(comment), "");
    JoinedTrimmed(FieldsFrom(MapComment(comment), ""));
  }

  // A word of a comment: no white space in it.
  predicate Word(w: string) {
    w != "" && Solid(w) && forall i :: 0 <= i < |w| ==> !LineBreak(w[i])
  }

  // The words are kept, but each of the six delimiters has become a dash.
  ghost predicate Dashed(words: seq<string>, out: seq<string>) {
    |out| == |words| && forall i :: 0 <= i < |words| ==> DashedWord(words[i], out[i])
  }

  predicate DashedWord(w: string, v: string) {
    |v| == |w| && forall j :: 0 <= j < |w| ==>
      v[j] == if w[j] in {'?', '<', '>', '@', '#', '$'} then '-' else w[j]
  }

  function MapWords(words: seq<string>): (out: seq<string>)
    ensures |out| == |words| && forall i :: 0 <= i < |words| ==> out[i] == MapComment(words[i])
  {
    if words == [] then [] else [MapComment(words[0])] + MapWords(words[1..])
  }

  lemma {:induction false} MapConcat(a: string, b: string)
    ensures MapComment(a + b) == MapComment(a) + MapComment(b)
  {}

  lemma {:induction false} SpaceMapped(w: string)
    requires SpaceLen(w) == 0 && forall i :: 0 <= i < |w| ==> !LineBreak(w[i])
    ensures SpaceLen(MapComment(w)) == 0
  {
    if |w| >= 1 {
      MappedByte(w[0]);
    }
    if |w| >= 2 {
      MappedByte(w[1]);
    }
    if |w| >= 3 {
      MappedByte(w[2]);
    }
    hide CommentChar;
  }

  // A byte outside of ASCII stays, and comes from nothing else.
  lemma MappedByte(c: char)
    ensures CommentChar(c) == c || (CommentChar(c) as int < 0x80 && c as int < 0x80)
    ensures CommentChar(c) == c || LineBreak(c) || (CommentChar(c) == '-' && !IsAsciiSpace(c))
  {}

  lemma {:induction false} WordMapped(w: string)
    requires Word(w)
    ensures Word(MapComment(w)) && DashedWord(w, MapComment(w))
  {
    var v := MapComment(w);
    forall j | 0 <= j < |v| ensures SpaceLen(v[j..]) == 0 {
      SpaceMapped(w[j..]);
      assert MapComment(w[j..]) == v[j..];
    }
  }

  lemma {:induction false} MapJoined(words: seq<string>)
    ensures MapComment(Join(words, ' ')) == Join(MapWords(words), ' ')
  {
    if |words| > 1 {
      MapJoined(words[1..]);
      MapConcat(words[0] + [' '], Join(words[1..], ' '));
      MapConcat(words[0], [' ']);
      assert MapWords(words)[1..] == MapWords(words[1..]);
    }
  }

  lemma {:induction false} FieldsWord(w: string, k: nat, rest: string)
    requires Solid(w) && k <= |w| && (rest == "" || rest[0] == ' ')
    ensures FieldsFrom(w[k..] + rest, w[..k]) == FieldsFrom(rest, w)
    decreases |w| - k
  {
    if k < |w| {
      var s := w[k..] + rest;
      SolidThenRest(w, k, rest);
      assert s[1..] == w[k + 1..] + rest && w[..k] + [s[0]] == w[..k + 1];
      FieldsWord(w, k + 1, rest);
    } else {
      assert w[k..] + rest == rest && w[..k] == w;
    }
  }

  lemma SolidThenRest(w: string, k: nat, rest: string)
    requires Solid(w) && k < |w| && (rest == "" || rest[0] == ' ')
    ensures SpaceLen(w[k..] + rest) == 0
  {
    assert SpaceLen(w[k..]) == 0;
  }

  lemma {:induction false} FieldsJoined(words: seq<string>)
    requires forall w :: w in words ==> Word(w)
    ensures FieldsFrom(Join(words, ' '), "") == words
  {
    hide SpaceLen, Solid, FieldsFrom, LineBreak;
    if words == [] {
      NoFields();
    } else {
      var w, rest := words[0], Join(words[1..], ' ');
      assert Word(w) by {
        assert words[0] in words;
      }
      assert forall v :: v in words[1..] ==> v in words;
      FieldsJoined(words[1..]);
      if |words| == 1 {
        FieldsWord(w, 0, "");
        assert w[0..] + "" == w && w[..0] == "";
        FieldsEnd(w);
      } else {
        var tail := [' '] + rest;
        FieldsWord(w, 0, tail);
        assert w[0..] + tail == w + [' '] + rest && w[..0] == "";
        FieldsBlank(w, rest);
      }
    }
  }

  lemma {:induction false} FieldsBlank(w: string, rest: string)
    requires w != ""
    ensures FieldsFrom([' '] + rest, w) == [w] + FieldsFrom(rest, "")
  {
    var tail := [' '] + rest;
    assert SpaceLen(tail) == 1 && tail[1..] == rest;
  }

  lemma {:induction false} FieldsEnd(w: string)
    requires w != ""
    ensures FieldsFrom("", w) == [w]
  {}

  lemma {:induction false} NoFields()
    ensures FieldsFrom("", "") == [] && Join([], ' ') == ""
  {}

  /** The words of a display text are its comment, delimiters turned into dashes. */
  lemma {:induction false} CommentWords(words: seq<string>)
    requires forall w :: w in words ==> Word(w)
    ensures exists out :: Dashed(words, out) && StandardComment(Join(words, ' ')) == Join(out, ' ')
  {
    var out := MapWords(words);
    forall i | 0 <= i < |words| ensures Word(out[i]) && DashedWord(words[i], out[i]) {
      WordMapped(words[i]);
    }
    MapJoined(words);
    FieldsJoined(out);
    assert Dashed(words, out);
  }

  // ---------- the option list ----------

  type Pairs = seq<(string, string)>

  // One option of a transport: its name, its text, and whether it differs from the default.
  datatype Entry = Entry(name: string, value: string, printed: bool)

  function Entries(transport: string, o: Options): seq<Entry> {
    match transport
    case "vp8channel" => [
      Entry("vp8-batch", Itoa(o.vp8Batch), o.vp8Batch != 64),
      Entry("vp8-fps", Itoa(o.vp8FPS), o.vp8FPS != 30)]
    case "seichannel" => [
      Entry("ack-ms", Itoa(o.seiAckMS), o.seiAckMS != 2000),
      Entry("batch", Itoa(o.seiBatch), o.seiBatch != 64),
      Entry("fps", Itoa(o.seiFPS), o.seiFPS != 30),
      Entry("frag", Itoa(o.seiFragment), o.seiFragment != 900)]
    case "videochannel" => VideoList(o)
    case _ => []
  }

  function VideoList(o: Options): seq<Entry> {
    [ Entry("video-codec", o.videoCodec, o.videoCodec != "qrcode"),
      Entry("video-fps", Itoa(o.videoFPS), o.videoFPS != 30),
      Entry("video-h", Itoa(o.videoHeight), o.videoHeight != 1080),
      Entry("video-qr-recovery", o.videoQRRecover, o.videoQRRecover != "low"),
      Entry("video-qr-size", Itoa(o.videoQRSize), o.videoQRSize != 0),
      Entry("video-tile-module", Itoa(o.videoTile), o.videoCodec == "tile" && o.videoTile != 4),
      Entry("video-tile-rs", Itoa(o.videoTileRS), o.videoCodec == "tile" && o.videoTileRS != 20),
      Entry("video-w", Itoa(o.videoWidth), o.videoWidth != 1920)]
  }

  function Printed(entries: seq<Entry>): Pairs {
    if entries == [] then []
    else (if entries[0].printed then [(entries[0].name, entries[0].value)] else []) + Printed(entries[1..])
  }

  /** The non-default options of an instance, in the order of their names. */
  function OptionList(transport: string, o: Options): Pairs {
    Printed(Entries(transport, o))
  }

  function PairText(p: (string, string)): string {
    p.0 + ['='] + p.1
  }

  function PairTexts(pairs: Pairs): (parts: seq<string>)
    ensures |parts| == |pairs| && forall i :: 0 <= i < |pairs| ==> parts[i] == PairText(pairs[i])
  {
    if pairs == [] then [] else [PairText(pairs[0])] + PairTexts(pairs[1..])
  }

  function Payload(pairs: Pairs): string {
    if pairs == [] then "" else ['<'] + Join(PairTexts(pairs), '&') + ['>']
  }

  /** standardPayload of an instance. */
  function StandardPayload(item: Plain): string {
    Payload(OptionList(item.transport, item.options))
  }

  // ---------- printing ----------

  predicate Printable(item: Plain, key: string) {
    && C.ValidKey(key)
    && item.provider in PROVIDERS && item.transport in TRANSPORTS
    && PlainText(item.roomID)
  }

  /** StandardURI: None is its error.  The comment is cleaned first, so it never fails the check. */
  function Print(item: Plain, key: string, comment: string): Option<string> {
    if !Printable(item, key) then None
    else Some("olcrtc://" + item.provider + "?" + item.transport + StandardPayload(item)
              + "@" + item.roomID + "#" + key + "$" + StandardComment(comment))
  }

  // ---------- cutting and accepting ----------

  datatype UriKind = Client | Olcbox | UnknownKind

  const SCHEME_LENGTH := 9

  predicate HasScheme(raw: string) {
    |raw| >= SCHEME_LENGTH && ToLower(raw[..SCHEME_LENGTH]) == "olcrtc://"
  }

  function BodyFormat(body: string): UriKind {
    var question, at := Index(body, '?'), Index(body, '@');
    if question > 0 && at > question then Olcbox
    else if at > 0 && question > at && HasPrefix(body[at + 1..], "r/") then Client
    else UnknownKind
  }

  function UriFormat(raw: string): UriKind {
    var raw := TrimSpace(raw);
    if HasScheme(raw) then BodyFormat(raw[SCHEME_LENGTH..]) else UnknownKind
  }

  predicate ValueChar(c: char) {
    PlainChar(c) && c != '&'
  }

  predicate CleanValue(v: string) {
    v != "" && Trimmed(v) && forall i :: 0 <= i < |v| ==> ValueChar(v[i])
  }

  function AllowedOptions(transport: string): set<string> {
    match transport
    case "vp8channel" => {"vp8-fps", "vp8-batch"}
    case "seichannel" => {"fps", "batch", "frag", "ack-ms"}
    case "videochannel" =>
      {"video-w", "video-h", "video-fps", "video-bitrate", "video-hw", "video-codec", "video-qr-size",
       "video-qr-recovery", "video-tile-module", "video-tile-rs"}
    case _ => {}
  }

  const NUMERIC: set<string> := {
    "fps", "batch", "frag", "ack-ms", "video-w", "video-h", "video-fps", "video-qr-size", "video-tile-module",
        "video-tile-rs" }

  predicate AcceptOption(allowed: set<string>, name: string, value: string) {
    && name != "" && name in allowed
    && value != "" && (forall i :: 0 <= i < |value| ==> ValueChar(value[i]))
    && (name in NUMERIC ==> Atoi(value).Some?)
  }

  /** The options of a payload, after those already seen; None when a part is malformed, unknown or repeated. */
  function CutOptions(parts: seq<string>, allowed: set<string>,
      seen: map<string, string>): Option<map<string, string>> {
    if parts == [] then Some(seen)
    else
      var (rawName, rawValue, found) := Cut(parts[0], '=');
      var name, value := TrimSpace(rawName), TrimSpace(rawValue);
      if !found || !AcceptOption(allowed, name, value) || name in seen then None
      else CutOptions(parts[1..], allowed, seen[name := value])
  }

  /** The loop of validateStandardTransport. */
  method ValidateOptions(payload: string, allowed: set<string>) returns (options: Option<map<string, string>>)
    ensures options == CutOptions(Split(payload, '&'), allowed, map[])
  {
    hide AcceptOption, TrimSpace, Cut;
    var seen: map<string, string> := map[];
    var parts := Split(payload, '&');
    for i := 0 to |parts|
      invariant CutOptions(parts[i..], allowed, seen) == CutOptions(parts, allowed, map[])
    {
      var (rawName, rawValue, found) := Cut(parts[i], '=');
      var name, value := TrimSpace(rawName), TrimSpace(rawValue);
      assert parts[i..][1..] == parts[i + 1..];
      if !found || !AcceptOption(allowed, name, value) || name in seen {
        return None;
      }
      seen := seen[name := value];
    }
    options := Some(seen);
  }

  function CountChar(s: string, c: char): nat {
    if s == "" then 0 else (if s[0] == c then 1 else 0) + CountChar(s[1..], c)
  }

  /** validateStandardTransport: the transport and its options. */
  function CutTransport(token: string): Option<(string, map<string, string>)> {
    var start := Index(token, '<');
    if start >= 0 && (!HasSuffix(token, ">") || CountChar(token, '<') != 1 || CountChar(token, '>') != 1
        || start == 0) then None
    else
      var transport := if start >= 0 then TrimSpace(token[..start]) else token;
      var payload := if start >= 0 then token[start + 1..|token| - 1] else "";
      if transport == "" || ContainsAny(transport, {'<', '>', '@', '#', '$', '?', '&', '=', '\r', '\n'}) then None
      else if payload == "" then Some((transport, map[]))
      else
        var options := CutOptions(Split(payload, '&'), AllowedOptions(transport), map[]);
        if options.None? then None else Some((transport, options.value))
  }

  datatype Fields = Fields(provider: string, transport: string, options: map<string, string>, room: string,
      key: string, comment: string)

  // The part of the body behind '@'.
  function CutRoom(provider: string, transport: string, options: map<string, string>, rest: string): Option<Fields> {
    var (room, tail, found) := Cut(rest, '#');
    var (key, comment, _) := Cut(tail, '$');
    if !found || room == "" || !C.ValidKey(key) || TrimSpace(room) == "" || !PlainText(room)
       || (exists i :: 0 <= i < |comment| && !PlainChar(comment[i]) && comment[i] != '?') then None
    else Some(Fields(provider, transport, options, room, key, comment))
  }

  function CutBody(body: string): Option<Fields> {
    var question, at := Index(body, '?'), Index(body, '@');
    if question <= 0 || at <= question then None
    else
      var provider := TrimSpace(body[..question]);
      var transport := CutTransport(TrimSpace(body[question + 1..at]));
      if provider !in PROVIDERS || transport.None? || transport.value.0 !in TRANSPORTS then None
      else CutRoom(provider, transport.value.0, transport.value.1, body[at + 1..])
  }

  function CutUri(raw: string): Option<Fields> {
    var raw := TrimSpace(raw);
    if !HasScheme(raw) || BodyFormat(raw[SCHEME_LENGTH..]) != Olcbox
        || (exists i :: 0 <= i < |raw| && LineBreak(raw[i])) then None
    else CutBody(raw[SCHEME_LENGTH..])
  }

  /** ValidateStandardURI returns nil. */
  predicate Accepts(raw: string) {
    |raw| <= C.MAX_URI && CutUri(raw).Some?
  }

  // ---------- options come back ----------

  function MapOf(pairs: Pairs): map<string, string> {
    if pairs == [] then map[] else MapOf(pairs[1..])[pairs[0].0 := pairs[0].1]
  }

  // A printed option: its name is a word with dashes.
  predicate NameChar(c: char) {
    IsDigit(c) || 'a' <= c <= 'z' || c == '-'
  }

  predicate GoodName(name: string) {
    name != "" && forall i :: 0 <= i < |name| ==> NameChar(name[i])
  }

  predicate GoodPair(allowed: set<string>, p: (string, string)) {
    GoodName(p.0) && CleanValue(p.1) && AcceptOption(allowed, p.0, p.1)
  }

  ghost predicate GoodPairs(allowed: set<string>, pairs: Pairs) {
    && (forall i :: 0 <= i < |pairs| ==> GoodPair(allowed, pairs[i]))
    && (forall i, j :: 0 <= i < j < |pairs| ==> pairs[i].0 != pairs[j].0)
  }

  lemma {:induction false} MapOfKeys(pairs: Pairs)
    ensures forall n :: n in MapOf(pairs) <==> exists i :: 0 <= i < |pairs| && pairs[i].0 == n
  {
    if pairs != [] {
      MapOfKeys(pairs[1..]);
      assert pairs == [pairs[0]] + pairs[1..];
    }
  }

  lemma {:induction false} MapOfHas(pairs: Pairs, i: nat)
    requires i < |pairs|
    requires forall a, b :: 0 <= a < b < |pairs| ==> pairs[a].0 != pairs[b].0
    ensures pairs[i].0 in MapOf(pairs) && MapOf(pairs)[pairs[i].0] == pairs[i].1
  {
    if i > 0 {
      assert pairs[1..][i - 1] == pairs[i];
      MapOfHas(pairs[1..], i - 1);
    }
  }

  lemma PairCuts(allowed: set<string>, p: (string, string))
    requires GoodPair(allowed, p)
    ensures Cut(PairText(p), '=') == (p.0, p.1, true)
    ensures TrimSpace(p.0) == p.0 && TrimSpace(p.1) == p.1
  {
    hide AcceptOption;
    assert '=' !in p.0;
    CutAt(p.0, '=', p.1);
    FramedTrimmed(p.0);
    TrimmedFixed(p.0);
    TrimmedFixed(p.1);
  }

  lemma MapMerge(seen: map<string, string>, name: string, value: string, rest: map<string, string>)
    requires name !in rest
    ensures seen[name := value] + rest == seen + rest[name := value]
  {}

  lemma {:induction false} CutOptionsRoundTrip(allowed: set<string>, pairs: Pairs, seen: map<string, string>)
    requires GoodPairs(allowed, pairs)
    requires forall i :: 0 <= i < |pairs| ==> pairs[i].0 !in seen
    ensures CutOptions(PairTexts(pairs), allowed, seen) == Some(seen + MapOf(pairs))
  {
    hide TrimSpace, Cut, PairText, GoodName, CleanValue, AcceptOption;
    if pairs != [] {
      var p := pairs[0];
      assert GoodPair(allowed, p);
      PairCuts(allowed, p);
      assert PairTexts(pairs)[1..] == PairTexts(pairs[1..]);
      CutOptionsRoundTrip(allowed, pairs[1..], seen[p.0 := p.1]);
      MapOfKeys(pairs[1..]);
      MapMerge(seen, p.0, p.1, MapOf(pairs[1..]));
    } else {
      assert seen + MapOf(pairs) == seen;
    }
  }

  // Whatever is accepted, every option value is clean.
  lemma {:induction false} CutOptionsClean(parts: seq<string>, allowed: set<string>, seen: map<string, string>)
    requires CutOptions(parts, allowed, seen).Some?
    requires forall n :: n in seen ==> CleanValue(seen[n])
    ensures var m := CutOptions(parts, allowed, seen).value; forall n :: n in m ==> CleanValue(m[n])
  {
    hide Cut, TrimSpace;
    if parts != [] {
      var cut := Cut(parts[0], '=');
      TrimSpaceTrims(cut.1);
      CutOptionsClean(parts[1..], allowed, seen[TrimSpace(cut.0) := TrimSpace(cut.1)]);
    }
  }

  predicate PayloadChar(c: char) {
    ValueChar(c) || c == '&'
  }

  predicate PayloadText(s: string) {
    forall i :: 0 <= i < |s| ==> PayloadChar(s[i])
  }

  lemma PairTextChars(allowed: set<string>, p: (string, string))
    requires GoodPair(allowed, p)
    ensures forall i :: 0 <= i < |PairText(p)| ==> ValueChar(PairText(p)[i])
  {
    hide AcceptOption;
  }

  lemma {:induction false} InnerChars(allowed: set<string>, pairs: Pairs)
    requires GoodPairs(allowed, pairs)
    ensures PayloadText(Join(PairTexts(pairs), '&'))
    ensures forall p :: p in PairTexts(pairs) ==> '&' !in p
  {
    var parts := PairTexts(pairs);
    forall p, i | p in parts && 0 <= i < |p|
      ensures ValueChar(p[i])
    {
      var k :| 0 <= k < |parts| && parts[k] == p;
      PairTextChars(allowed, pairs[k]);
    }
    JoinChars(parts, '&', PayloadChar);
  }

  lemma {:induction false} CountConcat(a: string, b: string, c: char)
    ensures CountChar(a + b, c) == CountChar(a, c) + CountChar(b, c)
  {
    if a == "" {
      assert a + b == b;
    } else {
      assert (a + b)[1..] == a[1..] + b;
      CountConcat(a[1..], b, c);
    }
  }

  lemma {:induction false} CountAbsent(s: string, c: char)
    requires c !in s
    ensures CountChar(s, c) == 0
  {
    if s != "" {
      CountAbsent(s[1..], c);
    }
  }

  lemma {:induction false} CountOne(a: string, c: char, b: string)
    requires c !in a && c !in b
    ensures CountChar(a + [c] + b, c) == 1
  {
    CountConcat(a + [c], b, c);
    CountConcat(a, [c], c);
    CountAbsent(a, c);
    CountAbsent(b, c);
    assert CountChar([c], c) == 1 + CountChar("", c);
  }

  lemma TokenShape(transport: string, inner: string)
    requires GoodName(transport)
    requires PayloadText(inner)
    ensures var token := transport + (['<'] + inner + ['>']);
            && Index(token, '<') == |transport| && HasSuffix(token, ">")
            && CountChar(token, '<') == 1 && CountChar(token, '>') == 1
            && token[..|transport|] == transport && token[|transport| + 1..|token| - 1] == inner
  {
    assert '<' !in transport && '>' !in transport && '<' !in inner && '>' !in inner;
    hide GoodName, PayloadText, CountChar, Index;
    var token := transport + (['<'] + inner + ['>']);
    assert token == transport + ['<'] + (inner + ['>']);
    IndexAt(transport, '<', inner + ['>']);
    CountOne(transport, '<', inner + ['>']);
    assert token == (transport + ['<'] + inner) + ['>'] + "";
    CountOne(transport + ['<'] + inner, '>', "");
  }

  lemma TransportName(transport: string)
    requires GoodName(transport)
    ensures !ContainsAny(transport, {'<', '>', '@', '#', '$', '?', '&', '=', '\r', '\n'})
    ensures TrimSpace(transport) == transport && '<' !in transport
  {
    FramedTrimmed(transport);
    TrimmedFixed(transport);
  }

  lemma {:induction false} InnerNonEmpty(pairs: Pairs)
    requires pairs != []
    ensures Join(PairTexts(pairs), '&') != ""
  {
    assert PairTexts(pairs)[0] == PairText(pairs[0]);
  }

  lemma {:induction false} CutTransportRoundTrip(transport: string, pairs: Pairs)
    requires GoodName(transport) && GoodPairs(AllowedOptions(transport), pairs)
    ensures CutTransport(transport + Payload(pairs)) == Some((transport, MapOf(pairs)))
  {
    if pairs == [] {
      hide GoodName, AllowedOptions, CutTransport, ContainsAny;
      TransportName(transport);
      NonEmptyName(transport);
      BareTransport(transport);
      assert transport + Payload(pairs) == transport;
    } else {
      hide *;
      PayloadShape(pairs);
      PairsCut(transport, pairs);
      InnerChars(AllowedOptions(transport), pairs);
      var inner := Join(PairTexts(pairs), '&');
      InnerNonEmpty(pairs);
      TransportName(transport);
      NonEmptyName(transport);
      TokenShape(transport, inner);
      TokenCuts(transport, inner, MapOf(pairs));
    }
  }

  lemma {:induction false} PairsCut(transport: string, pairs: Pairs)
    requires GoodPairs(AllowedOptions(transport), pairs) && pairs != []
    ensures CutOptions(Split(Join(PairTexts(pairs), '&'), '&'), AllowedOptions(transport), map[]) == Some(MapOf(pairs))
  {
    hide *;
    InnerChars(AllowedOptions(transport), pairs);
    SplitJoin(PairTexts(pairs), '&');
    CutOptionsRoundTrip(AllowedOptions(transport), pairs, map[]);
    assert map[] + MapOf(pairs) == MapOf(pairs);
  }

  lemma BareTransport(transport: string)
    requires '<' !in transport && transport != ""
             && !ContainsAny(transport, {'<', '>', '@', '#', '$', '?', '&', '=', '\r', '\n'})
    ensures CutTransport(transport) == Some((transport, map[]))
  {
    hide ContainsAny;
  }

  lemma {:induction false} PayloadShape(pairs: Pairs)
    requires pairs != []
    ensures Payload(pairs) == ['<'] + Join(PairTexts(pairs), '&') + ['>']
  {}

  // A transport with a bracketed payload is cut into the two.
  lemma {:induction false} TokenCuts(transport: string, inner: string, options: map<string, string>)
    requires var token := transport + (['<'] + inner + ['>']);
             && Index(token, '<') == |transport| && HasSuffix(token, ">") && CountChar(token, '<') == 1
                && CountChar(token, '>') == 1
             && token[..|transport|] == transport && token[|transport| + 1..|token| - 1] == inner
    requires transport != "" && inner != "" && TrimSpace(transport) == transport
    requires !ContainsAny(transport, {'<', '>', '@', '#', '$', '?', '&', '=', '\r', '\n'})
    requires CutOptions(Split(inner, '&'), AllowedOptions(transport), map[]) == Some(options)
    ensures CutTransport(transport + (['<'] + inner + ['>'])) == Some((transport, options))
  {
    hide CutOptions, Split, AllowedOptions, TrimSpace, CountChar, HasSuffix, ContainsAny, Index;
  }

  lemma NonEmptyName(name: string)
    requires GoodName(name)
    ensures name != ""
  {}

  // ---------- the options of an instance ----------

  predicate CleanRecovery(item: Plain) {
    item.transport == "videochannel" && item.options.videoQRRecover != "low" ==> CleanValue(item.options.videoQRRecover)
  }

  ghost predicate Increasing(entries: seq<Entry>) {
    forall i, j :: 0 <= i < j < |entries| ==>
          TextLeq(entries[i].name, entries[j].name) && entries[i].name != entries[j].name
  }

  predicate GoodEntry(allowed: set<string>, e: Entry) {
    GoodName(e.name) && (e.printed ==> GoodPair(allowed, (e.name, e.value)))
  }

  lemma {:induction false} PrintedMembers(entries: seq<Entry>, q: (string, string))
    ensures q in Printed(entries)
            <==> exists i :: 0 <= i < |entries| && entries[i].printed && (entries[i].name, entries[i].value) == q
  {
    if entries != [] {
      PrintedMembers(entries[1..], q);
      assert entries == [entries[0]] + entries[1..];
    }
  }

  lemma {:induction false} PrintedGood(allowed: set<string>, entries: seq<Entry>)
    requires Increasing(entries)
    requires forall i :: 0 <= i < |entries| ==> GoodEntry(allowed, entries[i])
    ensures GoodPairs(allowed, Printed(entries))
    ensures forall i, j :: 0 <= i < j < |Printed(entries)| ==> TextLeq(Printed(entries)[i].0, Printed(entries)[j].0)
  {
    hide GoodPair, TextLeq;
    if entries != [] {
      var rest := Printed(entries[1..]);
      PrintedGood(allowed, entries[1..]);
      forall k | 0 <= k < |rest|
        ensures TextLeq(entries[0].name, rest[k].0) && entries[0].name != rest[k].0
      {
        PrintedMembers(entries[1..], rest[k]);
      }
      assert GoodEntry(allowed, entries[0]);
    }
  }

  lemma NumberClean(n: int64)
    ensures CleanValue(Itoa(n)) && Atoi(Itoa(n)).Some?
    ensures Itoa(n) != "" && forall i :: 0 <= i < |Itoa(n)| ==> ValueChar(Itoa(n)[i])
  {
    AtoiItoa(n);
    NumberChars(n);
    hide Itoa, Atoi;
    FramedTrimmed(Itoa(n));
    TrimmedFixed(Itoa(n));
  }

  lemma NumberChars(n: int)
    ensures Itoa(n) != "" && forall i :: 0 <= i < |Itoa(n)| ==> IsDigit(Itoa(n)[i]) || Itoa(n)[i] == '-'
  {
    hide Digits;
  }

  lemma Vp8Entries(o: Options)
    ensures Increasing(Entries("vp8channel", o))
    ensures forall i :: 0 <= i < |Entries("vp8channel", o)| ==>
              GoodEntry(AllowedOptions("vp8channel"), Entries("vp8channel", o)[i])
  {
    NumberClean(o.vp8Batch);
    NumberClean(o.vp8FPS);
    hide Itoa, Atoi, CleanValue;
  }

  lemma SeiEntries(o: Options)
    ensures Increasing(Entries("seichannel", o))
    ensures forall i :: 0 <= i < |Entries("seichannel", o)| ==>
              GoodEntry(AllowedOptions("seichannel"), Entries("seichannel", o)[i])
  {
    NumberClean(o.seiAckMS);
    NumberClean(o.seiBatch);
    NumberClean(o.seiFPS);
    NumberClean(o.seiFragment);
    hide Itoa, Atoi, CleanValue;
  }

  ghost predicate Before(a: string, b: string) {
    TextLeq(a, b) && a != b
  }

  lemma {:induction false} AdjacentIncreasing(entries: seq<Entry>)
    requires forall i :: 0 <= i < |entries| - 1 ==> Before(entries[i].name, entries[i + 1].name)
    ensures Increasing(entries)
  {
    hide TextLeq;
    if |entries| > 1 {
      var rest := entries[1..];
      forall i | 0 <= i < |rest| - 1
        ensures Before(rest[i].name, rest[i + 1].name)
      {
        assert rest[i] == entries[i + 1] && rest[i + 1] == entries[i + 2];
        assert Before(entries[i + 1].name, entries[i + 1 + 1].name);
      }
      AdjacentIncreasing(rest);
      TextOrder();
      assert Before(entries[0].name, entries[0 + 1].name);
      forall i, j | 0 <= i < j < |entries|
        ensures Before(entries[i].name, entries[j].name)
      {
        assert entries[j] == rest[j - 1];
        if i > 0 {
          assert entries[i] == rest[i - 1];
        } else if j > 1 {
          assert Before(rest[0].name, rest[j - 1].name);
        }
      }
    }
  }

  lemma {:induction false} BeforeAt(a: string, b: string, k: nat)
    requires k < |a| && k < |b| && a[k] < b[k]
    requires forall i :: 0 <= i < k ==> a[i] == b[i]
    ensures Before(a, b)
  {
    if k > 0 {
      BeforeAt(a[1..], b[1..], k - 1);
    }
  }

  lemma VideoOrder()
    ensures Before("video-codec", "video-fps")
    ensures Before("video-fps", "video-h")
    ensures Before("video-h", "video-qr-recovery")
    ensures Before("video-qr-recovery", "video-qr-size")
    ensures Before("video-qr-size", "video-tile-module")
    ensures Before("video-tile-module", "video-tile-rs")
    ensures Before("video-tile-rs", "video-w")
  {
    hide Before;
    BeforeAt("video-codec", "video-fps", 6);
    BeforeAt("video-fps", "video-h", 6);
    BeforeAt("video-h", "video-qr-recovery", 6);
    BeforeAt("video-qr-recovery", "video-qr-size", 9);
    BeforeAt("video-qr-size", "video-tile-module", 6);
    BeforeAt("video-tile-module", "video-tile-rs", 11);
    BeforeAt("video-tile-rs", "video-w", 6);
  }

  lemma VideoIncreasing(o: Options)
    ensures Increasing(Entries("videochannel", o))
  {
    VideoOrder();
    hide Before, Itoa, TextLeq;
    AdjacentIncreasing(VideoList(o));
  }

  lemma VideoName(name: string)
    requires name == "video-fps" || name == "video-h" || name == "video-qr-size" || name == "video-tile-module"
             || name == "video-tile-rs" || name == "video-w"
    ensures GoodName(name) && name in AllowedOptions("videochannel")
  {}

  lemma VideoNumber(name: string, n: int64, printed: bool)
    requires name == "video-fps" || name == "video-h" || name == "video-qr-size" || name == "video-tile-module"
             || name == "video-tile-rs" || name == "video-w"
    ensures GoodEntry(AllowedOptions("videochannel"), Entry(name, Itoa(n), printed))
  {
    NumberClean(n);
    VideoName(name);
    hide Itoa, Atoi, GoodName, AllowedOptions;
  }

  lemma VideoText(name: string, value: string, printed: bool)
    requires name == "video-codec" || name == "video-qr-recovery"
    requires printed ==> CleanValue(value)
    ensures GoodEntry(AllowedOptions("videochannel"), Entry(name, value, printed))
  {
    assert GoodName(name) && name !in NUMERIC;
    hide GoodName, Atoi;
  }

  lemma VideoEntries(item: Plain)
    requires item.transport == "videochannel"
    requires ValidTransport(item.transport, item.options) && CleanRecovery(item)
    ensures var entries := Entries("videochannel", item.options);
            forall i :: 0 <= i < |entries| ==> GoodEntry(AllowedOptions("videochannel"), entries[i])
  {
    var o := item.options;
    assert CleanValue("tile");
    assert o.videoCodec == "qrcode" || o.videoCodec == "tile";
    hide GoodEntry, AllowedOptions, CleanValue, VideoList, ValidTransport;
    forall i: nat | i < |VideoList(o)| ensures GoodEntry(AllowedOptions("videochannel"), VideoList(o)[i]) {
      VideoEntry(o, i);
    }
  }

  lemma VideoEntry(o: Options, i: nat)
    requires o.videoCodec == "qrcode" || CleanValue(o.videoCodec)
    requires o.videoQRRecover == "low" || CleanValue(o.videoQRRecover)
    requires i < |VideoList(o)|
    ensures GoodEntry(AllowedOptions("videochannel"), VideoList(o)[i])
  {
    hide GoodEntry, AllowedOptions, CleanValue, Itoa;
    match i
    case 0 => VideoText("video-codec", o.videoCodec, o.videoCodec != "qrcode");
    case 1 => VideoNumber("video-fps", o.videoFPS, o.videoFPS != 30);
    case 2 => VideoNumber("video-h", o.videoHeight, o.videoHeight != 1080);
    case 3 => VideoText("video-qr-recovery", o.videoQRRecover, o.videoQRRecover != "low");
    case 4 => VideoNumber("video-qr-size", o.videoQRSize, o.videoQRSize != 0);
    case 5 => VideoNumber("video-tile-module", o.videoTile, o.videoCodec == "tile" && o.videoTile != 4);
    case 6 => VideoNumber("video-tile-rs", o.videoTileRS, o.videoCodec == "tile" && o.videoTileRS != 20);
    case _ => VideoNumber("video-w", o.videoWidth, o.videoWidth != 1920);
  }

  ghost predicate NamesSorted(pairs: Pairs) {
    forall i, j :: 0 <= i < j < |pairs| ==> TextLeq(pairs[i].0, pairs[j].0)
  }

  lemma OptionListGood(item: Plain)
    requires item.transport in TRANSPORTS && ValidTransport(item.transport, item.options) && CleanRecovery(item)
    ensures var pairs := OptionList(item.transport, item.options);
            GoodPairs(AllowedOptions(item.transport), pairs) && NamesSorted(pairs)
  {
    if item.transport == "vp8channel" {
      Vp8Entries(item.options);
    } else if item.transport == "seichannel" {
      SeiEntries(item.options);
    } else if item.transport == "videochannel" {
      VideoIncreasing(item.options);
      VideoEntries(item);
    }
    hide AllowedOptions, GoodEntry, CleanRecovery, ValidTransport, Entries;
    assert item.transport == "datachannel" ==> Entries(item.transport, item.options) == []
        by { NoEntries(item.options); }
    PrintedGood(AllowedOptions(item.transport), Entries(item.transport, item.options));
  }

  lemma NoEntries(o: Options)
    ensures Entries("datachannel", o) == []
  {}

  // ---------- the payload loop ----------

  lemma DistinctMultiset(a: seq<string>, b: seq<string>)
    requires forall i, j :: 0 <= i < j < |a| ==> a[i] != a[j]
    requires forall i, j :: 0 <= i < j < |b| ==> b[i] != b[j]
    requires forall x :: x in a <==> x in b
    ensures multiset(a) == multiset(b)
  {
    forall x
      ensures multiset(a)[x] == multiset(b)[x]
    {
      DistinctCount(a, x);
      DistinctCount(b, x);
    }
  }

  lemma {:induction false} DistinctCount(a: seq<string>, x: string)
    requires forall i, j :: 0 <= i < j < |a| ==> a[i] != a[j]
    ensures multiset(a)[x] == if x in a then 1 else 0
  {
    if a != [] {
      DistinctCount(a[1..], x);
      assert a == [a[0]] + a[1..];
    }
  }

  function Names(pairs: Pairs): (names: seq<string>)
    ensures |names| == |pairs| && forall i :: 0 <= i < |pairs| ==> names[i] == pairs[i].0
  {
    if pairs == [] then [] else [pairs[0].0] + Names(pairs[1..])
  }

  /**
   The second half of standardPayload: collect the map's keys in any order, sort them, and
   print.  Whatever order the map is walked in, the text is the one of the sorted list.
   */
  method RenderValues(values: map<string, string>, ghost pairs: Pairs) returns (payload: string)
    requires values == MapOf(pairs) && NamesSorted(pairs)
    requires forall i, j :: 0 <= i < j < |pairs| ==> pairs[i].0 != pairs[j].0
    ensures payload == Payload(pairs)
  {
    assert pairs == [] ==> values == map[];
    hide TextLeq, Join, MapOf;
    if values == map[] {
      assert pairs == [] by {
        if pairs != [] { MapOfHas(pairs, 0); }
      }
      return "";
    }
    var keys := KeysOf(values);
    keys := SortKeys(keys, pairs);
    var parts: seq<string> := [];
    for i := 0 to |keys|
      invariant |parts| == i
      invariant forall j :: 0 <= j < i ==> parts[j] == PairText(pairs[j])
    {
      MapOfHas(pairs, i);
      parts := parts + [keys[i] + ['='] + values[keys[i]]];
    }
    assert parts == PairTexts(pairs);
    payload := ['<'] + Join(parts, '&') + ['>'];
  }

  // The walk over the map, in any order.
  method KeysOf(values: map<string, string>) returns (keys: seq<string>)
    ensures forall x :: x in keys <==> x in values
    ensures forall i, j :: 0 <= i < j < |keys| ==> keys[i] != keys[j]
  {
    keys := [];
    var rest := values.Keys;
    while rest != {}
      invariant rest <= values.Keys
      invariant forall x :: x in keys <==> x in values.Keys - rest
      invariant forall i, j :: 0 <= i < j < |keys| ==> keys[i] != keys[j]
      decreases rest
    {
      var key :| key in rest;
      assert key !in keys;
      keys := keys + [key];
      rest := rest - {key};
    }
  }

  method SortKeys(keys: seq<string>, ghost pairs: Pairs) returns (sorted: seq<string>)
    requires NamesSorted(pairs) && forall i, j :: 0 <= i < j < |pairs| ==> pairs[i].0 != pairs[j].0
    requires forall x :: x in keys <==> x in MapOf(pairs)
    requires forall i, j :: 0 <= i < j < |keys| ==> keys[i] != keys[j]
    ensures sorted == Names(pairs)
  {
    sorted := Sort(TextLeq, keys);
    TextOrder();
    SortSorts(TextLeq, keys);
    MapOfKeys(pairs);
    DistinctMultiset(keys, Names(pairs));
    SortedUnique(TextLeq, sorted, Names(pairs));
  }

  // ---------- the whole URI comes back ----------

  function Tail(room: string, key: string, comment: string): string {
    room + ['#'] + (key + ['$'] + comment)
  }

  function Body(provider: string, token: string, tail: string): string {
    provider + ['?'] + (token + ['@'] + tail)
  }

  lemma CutRoomRoundTrip(provider: string, transport: string, options: map<string, string>, room: string, key: string,
      comment: string)
    requires C.ValidKey(key) && TrimSpace(room) != "" && PlainText(room) && PlainText(comment)
    ensures CutRoom(provider, transport, options, Tail(room, key, comment))
         == Some(Fields(provider, transport, options, room, key, comment))
  {
    assert '#' !in room && '$' !in key;
    CutAt(room, '#', key + ['$'] + comment);
    CutAt(key, '$', comment);
    assert room != "";
  }

  lemma BodyIndices(provider: string, token: string, tail: string)
    requires '?' !in provider && '@' !in provider && '?' !in token && '@' !in token
    ensures var body := Body(provider, token, tail);
            && Index(body, '?') == |provider| && Index(body, '@') == |provider| + 1 + |token|
            && body[..|provider|] == provider
            && body[|provider| + 1..|provider| + 1 + |token|] == token
            && body[|provider| + 1 + |token| + 1..] == tail
  {
    var body := Body(provider, token, tail);
    IndexAt(provider, '?', token + ['@'] + tail);
    assert body == (provider + ['?'] + token) + ['@'] + tail;
    IndexAt(provider + ['?'] + token, '@', tail);
  }

  lemma CutBodyRoundTrip(provider: string, token: string, tail: string, transport: string,
      options: map<string, string>, fields: Fields)
    requires provider in PROVIDERS && transport in TRANSPORTS
    requires '?' !in provider && '@' !in provider && '?' !in token && '@' !in token
    requires TrimSpace(provider) == provider && provider != "" && TrimSpace(token) == token
    requires CutTransport(token) == Some((transport, options))
    requires CutRoom(provider, transport, options, tail) == Some(fields)
    ensures CutBody(Body(provider, token, tail)) == Some(fields)
    ensures BodyFormat(Body(provider, token, tail)) == Olcbox
  {
    hide CutTransport, CutRoom, TrimSpace, Index, Body;
    BodyIndices(provider, token, tail);
  }

  predicate Unbroken(s: string) {
    forall i :: 0 <= i < |s| ==> !LineBreak(s[i])
  }

  lemma TokenChars(transport: string, inner: string)
    requires GoodName(transport) && PayloadText(inner)
    ensures var token := transport + (['<'] + inner + ['>']);
            Unbroken(token) && '?' !in token && '@' !in token && Trimmed(token)
  {
    FramedTrimmed(transport + (['<'] + inner + ['>']));
  }

  lemma TokenText(transport: string, pairs: Pairs)
    requires GoodName(transport) && GoodPairs(AllowedOptions(transport), pairs)
    ensures var token := transport + Payload(pairs);
            Unbroken(token) && '?' !in token && '@' !in token && TrimSpace(token) == token
  {
    hide AllowedOptions, GoodPairs, GoodName, TrimSpace, PayloadText, Unbroken, Trimmed;
    var token := transport + Payload(pairs);
    if pairs == [] {
      assert token == transport;
      NameText(transport);
    } else {
      InnerChars(AllowedOptions(transport), pairs);
      TokenChars(transport, Join(PairTexts(pairs), '&'));
      TrimmedFixed(token);
    }
  }

  lemma TransportWord(transport: string)
    requires transport in TRANSPORTS
    ensures GoodName(transport)
  {}

  lemma ProviderWord(provider: string)
    requires provider in PROVIDERS
    ensures GoodName(provider)
  {}

  const PREFIX: string := "olcrtc://"

  lemma PrefixScheme(body: string)
    ensures HasScheme(PREFIX + body) && (PREFIX + body)[SCHEME_LENGTH..] == body
    ensures Unbroken(PREFIX)
  {
    assert (PREFIX + body)[..SCHEME_LENGTH] == PREFIX;
    ToLowerId(PREFIX);
  }

  lemma RawTrimmed(front: string, comment: string)
    requires front != "" && front[0] == 'o' && Trimmed(comment)
    ensures TrimSpace(front + ['$'] + comment) == front + ['$'] + comment
  {
    TailTrimmed(front, '$', comment);
    TrimmedFixed(front + ['$'] + comment);
  }

  lemma CutUriOf(raw: string, body: string, fields: Fields)
    requires raw == PREFIX + body && TrimSpace(raw) == raw && Unbroken(body)
    requires BodyFormat(body) == Olcbox && CutBody(body) == Some(fields)
    ensures CutUri(raw) == Some(fields) && UriFormat(raw) == Olcbox
  {
    hide TrimSpace, CutBody, BodyFormat, HasScheme;
    PrefixScheme(body);
    forall i | 0 <= i < |raw|
      ensures !LineBreak(raw[i])
    {
      assert raw[i] == if i < |PREFIX| then PREFIX[i] else body[i - |PREFIX|];
    }
  }

  lemma PrintShape(item: Plain, key: string, comment: string)
    requires Printable(item, key)
    ensures var front := PREFIX + item.provider + ['?'] + (item.transport + StandardPayload(item)) + ['@']
            + item.roomID + ['#'] + key;
            && Print(item, key, comment) == Some(front + ['$'] + StandardComment(comment))
            && Print(item, key, comment)
            == Some(PREFIX + Body(item.provider, item.transport
                + StandardPayload(item), Tail(item.roomID, key, StandardComment(comment))))
  {
    hide StandardPayload, StandardComment, Printable;
    PrintedText(item.provider, item.transport, StandardPayload(item), item.roomID, key, StandardComment(comment));
  }

  lemma PrintedText(provider: string, transport: string, payload: string, room: string, key: string, comment: string)
    ensures "olcrtc://" + provider + "?" + transport + payload + "@" + room + "#" + key + "$" + comment
         == PREFIX + Body(provider, transport + payload, Tail(room, key, comment))
         == (PREFIX + provider + ['?'] + (transport + payload) + ['@'] + room + ['#'] + key) + ['$'] + comment
  {}

  // What the URI of an instance says.
  function Expected(item: Plain, key: string, comment: string): Fields {
    Fields(item.provider, item.transport, MapOf(OptionList(item.transport, item.options)), item.roomID, key,
        StandardComment(comment))
  }

  lemma TailUnbroken(room: string, key: string, comment: string)
    requires PlainText(room) && C.ValidKey(key) && PlainText(comment)
    ensures Unbroken(Tail(room, key, comment))
  {}

  lemma BodyUnbroken(provider: string, token: string, tail: string)
    requires Unbroken(provider) && Unbroken(token) && Unbroken(tail)
    ensures Unbroken(Body(provider, token, tail))
  {}

  lemma NameText(name: string)
    requires GoodName(name)
    ensures Unbroken(name) && '?' !in name && '@' !in name && TrimSpace(name) == name && name != ""
  {
    FramedTrimmed(name);
    TrimmedFixed(name);
  }

  lemma PrintedCuts(item: Plain, key: string, comment: string)
    requires Printable(item, key) && TrimSpace(item.roomID) != "" && ValidTransport(item.transport, item.options)
    requires CleanRecovery(item)
    ensures CutUri(Print(item, key, comment).value) == Some(Expected(item, key, comment))
    ensures UriFormat(Print(item, key, comment).value) == Olcbox
  {
    hide C.ValidKey, PlainText, ValidTransport, CleanRecovery, GoodPairs, AllowedOptions, OptionList, StandardComment,
        TrimSpace,
         CutTransport, CutRoom, CutBody, BodyFormat, Body, Tail, GoodName, Payload, MapOf, Unbroken, Trimmed;
    var pairs, text := OptionList(item.transport, item.options), StandardComment(comment);
    var token, tail := item.transport + Payload(pairs), Tail(item.roomID, key, text);
    var fields := Expected(item, key, comment);
    TransportWord(item.transport);
    ProviderWord(item.provider);
    NameText(item.provider);
    OptionListGood(item);
    CommentIsClean(comment);
    TokenText(item.transport, pairs);
    CutTransportRoundTrip(item.transport, pairs);
    CutRoomRoundTrip(item.provider, item.transport, MapOf(pairs), item.roomID, key, text);
    CutBodyRoundTrip(item.provider, token, tail, item.transport, MapOf(pairs), fields);
    TailUnbroken(item.roomID, key, text);
    BodyUnbroken(item.provider, token, tail);
    PrintShape(item, key, comment);
    RawTrimmed(PREFIX + item.provider + ['?'] + token + ['@'] + item.roomID + ['#'] + key, text);
    CutUriOf(Print(item, key, comment).value, Body(item.provider, token, tail), fields);
  }

  lemma CutBodyClean(body: string)
    requires CutBody(body).Some?
    ensures forall n :: n in CutBody(body).value.options ==> CleanValue(CutBody(body).value.options[n])
  {
    hide TrimSpace, CutTransport, Index, CleanValue, CutRoom;
    var question, at := Index(body, '?'), Index(body, '@');
    var transport := CutTransport(TrimSpace(body[question + 1..at]));
    RoomKeepsOptions(TrimSpace(body[..question]), transport.value.0, transport.value.1, body[at + 1..]);
    CutTransportClean(TrimSpace(body[question + 1..at]));
  }

  lemma RoomKeepsOptions(provider: string, transport: string, options: map<string, string>, rest: string)
    ensures CutRoom(provider, transport, options, rest).Some? ==>
              CutRoom(provider, transport, options, rest).value.options == options
  {
    hide Cut, TrimSpace, PlainText, C.ValidKey, PlainChar;
  }

  // Every accepted URI carries clean option values only.
  lemma CutUriClean(raw: string)
    requires CutUri(raw).Some?
    ensures forall n :: n in CutUri(raw).value.options ==> CleanValue(CutUri(raw).value.options[n])
  {
    hide TrimSpace, CutBody, CleanValue, BodyFormat;
    CutBodyClean(TrimSpace(raw)[SCHEME_LENGTH..]);
  }

  lemma CutTransportClean(token: string)
    requires CutTransport(token).Some?
    ensures forall n :: n in CutTransport(token).value.1 ==> CleanValue(CutTransport(token).value.1[n])
  {
    hide CutOptions, CleanValue, TrimSpace, ContainsAny, CountChar, Index, Split, AllowedOptions;
    var start := Index(token, '<');
    var payload := if start >= 0 then token[start + 1..|token| - 1] else "";
    var transport := if start >= 0 then TrimSpace(token[..start]) else token;
    if payload != "" {
      CutOptionsClean(Split(payload, '&'), AllowedOptions(transport), map[]);
    }
  }

  lemma RecoveryPrinted(o: Options)
    requires o.videoQRRecover != "low"
    ensures var m := MapOf(OptionList("videochannel", o));
            "video-qr-recovery" in m && m["video-qr-recovery"] == o.videoQRRecover
  {
    hide TextLeq, Itoa;
    var entries := Entries("videochannel", o);
    VideoIncreasing(o);
    assert entries[3].printed && entries[3].name == "video-qr-recovery";
    hide Entries;
    PrintedMembers(entries, (entries[3].name, o.videoQRRecover));
    PrintedDistinct(entries);
    var i :| 0 <= i < |Printed(entries)| && Printed(entries)[i] == (entries[3].name, o.videoQRRecover);
    MapOfHas(Printed(entries), i);
  }

  lemma {:induction false} PrintedDistinct(entries: seq<Entry>)
    requires Increasing(entries)
    ensures forall a, b :: 0 <= a < b < |Printed(entries)| ==> Printed(entries)[a].0 != Printed(entries)[b].0
  {
    hide TextLeq;
    if entries != [] {
      PrintedDistinct(entries[1..]);
      var rest := Printed(entries[1..]);
      forall k | 0 <= k < |rest|
        ensures entries[0].name != rest[k].0
      {
        PrintedMembers(entries[1..], rest[k]);
      }
    }
  }

  // ---------- reading the options ----------

  // What a reader takes for an option: its text if it is there, else the default of the format.
  function TextOf(options: map<string, string>, name: string, default: string): string {
    if name in options then options[name] else default
  }

  function NumberOf(options: map<string, string>, name: string, default: int): Option<int> {
    if name in options then Atoi(options[name]) else Some(default)
  }

  // The option is read as the value, and is absent exactly when the value is the default.
  predicate GivesText(options: map<string, string>, name: string, value: string, default: string) {
    TextOf(options, name, default) == value && (name !in options <==> value == default)
  }

  predicate GivesNumber(options: map<string, string>, name: string, value: int64, default: int) {
    NumberOf(options, name, default) == Some(value as int) && (name !in options <==> value as int == default)
  }

  const VP8_OPTIONS: set<string> := {"vp8-fps", "vp8-batch"}
  const SEI_OPTIONS: set<string> := {"fps", "batch", "frag", "ack-ms"}
  const VIDEO_OPTIONS: set<string> := {
    "video-w", "video-h", "video-fps", "video-codec", "video-qr-size", "video-qr-recovery", "video-tile-module",
    "video-tile-rs" }

  predicate GivesVideo(options: map<string, string>, o: Options) {
    && options.Keys <= VIDEO_OPTIONS
    && GivesNumber(options, "video-w", o.videoWidth, 1920) && GivesNumber(options, "video-h", o.videoHeight, 1080)
    && GivesNumber(options, "video-fps", o.videoFPS, 30) && GivesText(options, "video-codec", o.videoCodec, "qrcode")
    && GivesNumber(options, "video-qr-size", o.videoQRSize, 0)
    && GivesText(options, "video-qr-recovery", o.videoQRRecover, "low")
    && (if o.videoCodec == "tile" then
          GivesNumber(options, "video-tile-module", o.videoTile, 4)
          && GivesNumber(options, "video-tile-rs", o.videoTileRS, 20)
        else "video-tile-module" !in options && "video-tile-rs" !in options)
  }

  /** Reading the options of a transport by their names gives those of the instance. */
  predicate Gives(options: map<string, string>, transport: string, o: Options) {
    match transport
    case "vp8channel" =>
      && options.Keys <= VP8_OPTIONS
      && GivesNumber(options, "vp8-fps", o.vp8FPS, 30) && GivesNumber(options, "vp8-batch", o.vp8Batch, 64)
    case "seichannel" =>
      && options.Keys <= SEI_OPTIONS
      && GivesNumber(options, "fps", o.seiFPS, 30) && GivesNumber(options, "batch", o.seiBatch, 64)
      && GivesNumber(options, "frag", o.seiFragment, 900) && GivesNumber(options, "ack-ms", o.seiAckMS, 2000)
    case "videochannel" => GivesVideo(options, o)
    case _ => options == map[]
  }

  lemma {:induction false} EntryGiven(entries: seq<Entry>, i: nat)
    requires Increasing(entries) && i < |entries|
    ensures var m := MapOf(Printed(entries));
            && (entries[i].name in m <==> entries[i].printed)
            && (entries[i].printed ==> m[entries[i].name] == entries[i].value)
  {
    hide TextLeq, MapOf, Printed;
    var e, pairs := entries[i], Printed(entries);
    PrintedDistinct(entries);
    MapOfKeys(pairs);
    if e.printed {
      PrintedMembers(entries, (e.name, e.value));
      var k :| 0 <= k < |pairs| && pairs[k] == (e.name, e.value);
      MapOfHas(pairs, k);
    } else if e.name in MapOf(pairs) {
      var k :| 0 <= k < |pairs| && pairs[k].0 == e.name;
      PrintedMembers(entries, pairs[k]);
    }
  }

  lemma {:induction false} OnlyGiven(entries: seq<Entry>)
    ensures forall n :: n in MapOf(Printed(entries)) ==> exists i :: 0 <= i < |entries| && entries[i].name == n
  {
    hide MapOf, Printed;
    var pairs := Printed(entries);
    MapOfKeys(pairs);
    forall n | n in MapOf(pairs) ensures exists i :: 0 <= i < |entries| && entries[i].name == n {
      var k :| 0 <= k < |pairs| && pairs[k].0 == n;
      PrintedMembers(entries, pairs[k]);
    }
  }

  lemma {:induction false} NumberGiven(entries: seq<Entry>, i: nat, name: string, value: int64, default: int)
    requires Increasing(entries) && i < |entries|
    requires entries[i] == Entry(name, Itoa(value), value as int != default)
    ensures GivesNumber(MapOf(Printed(entries)), name, value, default)
  {
    hide Itoa, Atoi, Increasing;
    EntryGiven(entries, i);
    AtoiItoa(value);
  }

  lemma {:induction false} TextGiven(entries: seq<Entry>, i: nat, name: string, value: string, default: string)
    requires Increasing(entries) && i < |entries|
    requires entries[i] == Entry(name, value, value != default)
    ensures GivesText(MapOf(Printed(entries)), name, value, default)
  {
    hide Increasing;
    EntryGiven(entries, i);
  }

  lemma Vp8Given(o: Options)
    ensures Gives(MapOf(OptionList("vp8channel", o)), "vp8channel", o)
  {
    Vp8Entries(o);
    var entries := Entries("vp8channel", o);
    OnlyGiven(entries);
    hide Increasing, Itoa, MapOf, Printed, GivesNumber;
    NumberGiven(entries, 0, "vp8-batch", o.vp8Batch, 64);
    NumberGiven(entries, 1, "vp8-fps", o.vp8FPS, 30);
  }

  lemma SeiGiven(o: Options)
    ensures Gives(MapOf(OptionList("seichannel", o)), "seichannel", o)
  {
    SeiEntries(o);
    var entries := Entries("seichannel", o);
    OnlyGiven(entries);
    hide Increasing, Itoa, MapOf, Printed, GivesNumber;
    NumberGiven(entries, 0, "ack-ms", o.seiAckMS, 2000);
    NumberGiven(entries, 1, "batch", o.seiBatch, 64);
    NumberGiven(entries, 2, "fps", o.seiFPS, 30);
    NumberGiven(entries, 3, "frag", o.seiFragment, 900);
  }

  lemma VideoGiven(o: Options)
    ensures GivesVideo(MapOf(OptionList("videochannel", o)), o)
  {
    VideoIncreasing(o);
    VideoNames(o);
    hide Increasing, Itoa, MapOf, Printed, VIDEO_OPTIONS;
    VideoNumbers(VideoList(o), o);
    VideoTexts(VideoList(o), o);
    hide GivesNumber, GivesText, VideoList;
  }

  lemma {:induction false} VideoNumbers(entries: seq<Entry>, o: Options)
    requires Increasing(entries) && |entries| == 8
    requires entries[1] == Entry("video-fps", Itoa(o.videoFPS), o.videoFPS != 30)
    requires entries[2] == Entry("video-h", Itoa(o.videoHeight), o.videoHeight != 1080)
    requires entries[4] == Entry("video-qr-size", Itoa(o.videoQRSize), o.videoQRSize != 0)
    requires entries[7] == Entry("video-w", Itoa(o.videoWidth), o.videoWidth != 1920)
    ensures var m := MapOf(Printed(entries));
            && GivesNumber(m, "video-fps", o.videoFPS, 30) && GivesNumber(m, "video-h", o.videoHeight, 1080)
            && GivesNumber(m, "video-qr-size", o.videoQRSize, 0) && GivesNumber(m, "video-w", o.videoWidth, 1920)
  {
    hide Increasing, Itoa, MapOf, Printed, GivesNumber;
    NumberGiven(entries, 1, "video-fps", o.videoFPS, 30);
    NumberGiven(entries, 2, "video-h", o.videoHeight, 1080);
    NumberGiven(entries, 4, "video-qr-size", o.videoQRSize, 0);
    NumberGiven(entries, 7, "video-w", o.videoWidth, 1920);
  }

  lemma {:induction false} VideoTexts(entries: seq<Entry>, o: Options)
    requires Increasing(entries) && |entries| == 8
    requires entries[0] == Entry("video-codec", o.videoCodec, o.videoCodec != "qrcode")
    requires entries[3] == Entry("video-qr-recovery", o.videoQRRecover, o.videoQRRecover != "low")
    requires entries[5] == Entry("video-tile-module", Itoa(o.videoTile), o.videoCodec == "tile" && o.videoTile != 4)
    requires entries[6] == Entry("video-tile-rs", Itoa(o.videoTileRS), o.videoCodec == "tile" && o.videoTileRS != 20)
    ensures var m := MapOf(Printed(entries));
            && GivesText(m, "video-codec", o.videoCodec, "qrcode")
            && GivesText(m, "video-qr-recovery", o.videoQRRecover, "low")
            && (if o.videoCodec == "tile" then
                  GivesNumber(m, "video-tile-module", o.videoTile, 4)
                  && GivesNumber(m, "video-tile-rs", o.videoTileRS, 20)
                else "video-tile-module" !in m && "video-tile-rs" !in m)
  {
    hide Increasing, Itoa, MapOf, Printed, GivesNumber, GivesText;
    TextGiven(entries, 0, "video-codec", o.videoCodec, "qrcode");
    TextGiven(entries, 3, "video-qr-recovery", o.videoQRRecover, "low");
    if o.videoCodec == "tile" {
      NumberGiven(entries, 5, "video-tile-module", o.videoTile, 4);
      NumberGiven(entries, 6, "video-tile-rs", o.videoTileRS, 20);
    } else {
      EntryGiven(entries, 5);
      EntryGiven(entries, 6);
    }
  }

  lemma VideoNames(o: Options)
    ensures MapOf(Printed(VideoList(o))).Keys <= VIDEO_OPTIONS
  {
    hide MapOf, Printed, Itoa;
    OnlyGiven(VideoList(o));
  }

  lemma OptionsGiven(transport: string, o: Options)
    requires transport in TRANSPORTS
    ensures Gives(MapOf(OptionList(transport, o)), transport, o)
  {
    Vp8Given(o);
    SeiGiven(o);
    VideoGiven(o);
    NoEntries(o);
    hide Entries, GivesVideo, GivesNumber, VP8_OPTIONS, SEI_OPTIONS;
  }

  /**
   The round trip.  The URI of a validated instance is cut into exactly its provider,
   transport, non-default options, room, key and cleaned comment if and only if the
   QR-recovery text, the one printed field that `Validate` never looks at, is either the
   default or a clean value.  The validator accepts such a URI up to its size limit.
   */
  lemma StandardRoundTrip(item: Plain, key: string, comment: string)
    requires Printable(item, key) && TrimSpace(item.roomID) != "" && ValidTransport(item.transport, item.options)
    ensures var uri := Print(item, key, comment).value;
            && (CutUri(uri) == Some(Expected(item, key, comment)) <==> CleanRecovery(item))
            && (CleanRecovery(item) ==> (Accepts(uri) <==> |uri| <= C.MAX_URI))
            && (CleanRecovery(item) ==>
                  CutUri(uri).Some? && Gives(CutUri(uri).value.options, item.transport, item.options))
  {
    OptionsGiven(item.transport, item.options);
    var uri := Print(item, key, comment).value;
    if CleanRecovery(item) {
      PrintedCuts(item, key, comment);
    } else if CutUri(uri) == Some(Expected(item, key, comment)) {
      CutUriClean(uri);
      RecoveryPrinted(item.options);
    }
    hide *;
  }

  // ---------- line breaks ----------

  lemma {:induction false} JoinHas(parts: seq<string>, c: char, d: char)
    requires c != d
    ensures d in Join(parts, c) <==> exists k :: 0 <= k < |parts| && d in parts[k]
  {
    if |parts| > 1 {
      JoinHas(parts[1..], c, d);
      assert parts == [parts[0]] + parts[1..];
      if k :| 0 <= k < |parts| && d in parts[k] {
        assert k > 0 ==> d in parts[1..][k - 1];
      }
    }
  }

  predicate PairBreaks(pairs: Pairs) {
    exists k :: 0 <= k < |pairs| && '\n' in PairText(pairs[k])
  }

  lemma PayloadBreaks(pairs: Pairs)
    ensures '\n' in Payload(pairs) <==> PairBreaks(pairs)
  {
    hide Join;
    JoinHas(PairTexts(pairs), '&', '\n');
    assert forall k :: 0 <= k < |pairs| ==> PairTexts(pairs)[k] == PairText(pairs[k]);
  }

  // The QR-recovery text is printed and holds a line break.
  predicate BrokenRecovery(transport: string, o: Options) {
    transport == "videochannel" && '\n' in o.videoQRRecover
  }

  predicate EntryBreaks(e: Entry, transport: string, o: Options) {
    '\n' !in e.name && ('\n' in e.value ==> e.printed && BrokenRecovery(transport, o))
  }

  lemma NumberUnbroken(n: int64)
    ensures '\n' !in Itoa(n)
  {
    NumberClean(n);
    hide Itoa;
  }

  lemma VideoBreaks(o: Options)
    requires ValidTransport("videochannel", o)
    ensures forall i :: 0 <= i < |Entries("videochannel", o)| ==>
              EntryBreaks(Entries("videochannel", o)[i], "videochannel", o)
  {
    assert '\n' !in "qrcode" && '\n' !in "tile" && '\n' !in "low";
    assert '\n' !in o.videoCodec;
    hide VideoList, ValidTransport, EntryBreaks;
    forall i: nat | i < |VideoList(o)| ensures EntryBreaks(VideoList(o)[i], "videochannel", o) {
      VideoEntryBreaks(o, i);
    }
  }

  lemma VideoEntryBreaks(o: Options, i: nat)
    requires '\n' !in o.videoCodec && '\n' !in "low" && i < |VideoList(o)|
    ensures EntryBreaks(VideoList(o)[i], "videochannel", o)
  {
    hide Itoa, EntryBreaks;
    match i
    case 0 => TextEntryBreaks("video-codec", o.videoCodec, o.videoCodec != "qrcode", o);
    case 1 => NumberEntryBreaks("video-fps", o.videoFPS, o.videoFPS != 30, o);
    case 2 => NumberEntryBreaks("video-h", o.videoHeight, o.videoHeight != 1080, o);
    case 3 => TextEntryBreaks("video-qr-recovery", o.videoQRRecover, o.videoQRRecover != "low", o);
    case 4 => NumberEntryBreaks("video-qr-size", o.videoQRSize, o.videoQRSize != 0, o);
    case 5 => NumberEntryBreaks("video-tile-module", o.videoTile, o.videoCodec == "tile" && o.videoTile != 4, o);
    case 6 => NumberEntryBreaks("video-tile-rs", o.videoTileRS, o.videoCodec == "tile" && o.videoTileRS != 20, o);
    case _ => NumberEntryBreaks("video-w", o.videoWidth, o.videoWidth != 1920, o);
  }

  lemma NumberEntryBreaks(name: string, n: int64, printed: bool, o: Options)
    requires name == "video-fps" || name == "video-h" || name == "video-qr-size" || name == "video-tile-module"
             || name == "video-tile-rs" || name == "video-w"
    ensures EntryBreaks(Entry(name, Itoa(n), printed), "videochannel", o)
  {
    VideoName(name);
    NameUnbroken(name);
    NumberUnbroken(n);
    hide Itoa, GoodName;
  }

  lemma TextEntryBreaks(name: string, value: string, printed: bool, o: Options)
    requires name == "video-codec" || name == "video-qr-recovery"
    requires '\n' in value ==> printed && value == o.videoQRRecover
    ensures EntryBreaks(Entry(name, value, printed), "videochannel", o)
  {
    assert GoodName(name);
    NameUnbroken(name);
    hide GoodName;
  }

  lemma NumbersUnbroken(transport: string, o: Options)
    requires transport != "videochannel"
    ensures forall i :: 0 <= i < |Entries(transport, o)| ==> EntryBreaks(Entries(transport, o)[i], transport, o)
  {
    NumberUnbroken(o.vp8Batch);
    NumberUnbroken(o.vp8FPS);
    NumberUnbroken(o.seiAckMS);
    NumberUnbroken(o.seiBatch);
    NumberUnbroken(o.seiFPS);
    NumberUnbroken(o.seiFragment);
    hide Itoa;
  }

  lemma OptionsBreak(transport: string, o: Options)
    requires ValidTransport(transport, o)
    ensures PairBreaks(OptionList(transport, o)) <==> BrokenRecovery(transport, o)
  {
    hide Itoa;
    var entries := Entries(transport, o);
    if transport == "videochannel" {
      VideoBreaks(o);
    } else {
      NumbersUnbroken(transport, o);
    }
    var pairs := Printed(entries);
    if BrokenRecovery(transport, o) {
      RecoveryEntry(o);
      var q := (entries[3].name, entries[3].value);
      hide Entries, ValidTransport;
      PrintedMembers(entries, q);
      var k :| 0 <= k < |pairs| && pairs[k] == q;
      assert '\n' in PairText(pairs[k]);
    }
    hide Entries, ValidTransport;
    if k :| 0 <= k < |pairs| && '\n' in PairText(pairs[k]) {
      PrintedMembers(entries, pairs[k]);
      var i :| 0 <= i < |entries| && entries[i].printed && (entries[i].name, entries[i].value) == pairs[k];
      assert EntryBreaks(entries[i], transport, o);
    }
  }

  lemma RecoveryEntry(o: Options)
    requires '\n' in o.videoQRRecover
    ensures var entries := Entries("videochannel", o);
            |entries| == 8 && entries[3].printed && entries[3].value == o.videoQRRecover
  {
    assert '\n' !in "low";
    hide Itoa;
  }

  lemma PiecesBreak(provider: string, transport: string, payload: string, room: string, key: string, comment: string)
    requires '\n' !in provider && '\n' !in transport && '\n' !in room && '\n' !in key && '\n' !in comment
    ensures '\n' in "olcrtc://" + provider + "?" + transport + payload + "@" + room + "#" + key + "$" + comment
            <==> '\n' in payload
  {
    var scheme: string := "olcrtc://";
    assert forall i :: 0 <= i < |scheme| ==> scheme[i] != '\n';
  }

  lemma NameUnbroken(name: string)
    requires GoodName(name)
    ensures '\n' !in name
  {}

  /** The URI of a stored instance breaks over lines exactly when it prints a QR-recovery text with a line break. */
  lemma {:induction false} PrintBreaks(item: Plain, key: string, comment: string)
    requires Printable(item, key) && ValidTransport(item.transport, item.options)
    ensures '\n' in Print(item, key, comment).value <==> BrokenRecovery(item.transport, item.options)
  {
    hide StandardComment, OptionList, Payload, GoodName, ValidTransport, BrokenRecovery, PlainText, C.ValidKey,
        PairBreaks;
    CommentIsClean(comment);
    TransportWord(item.transport);
    ProviderWord(item.provider);
    NameUnbroken(item.transport);
    NameUnbroken(item.provider);
    OptionsBreak(item.transport, item.options);
    PayloadBreaks(OptionList(item.transport, item.options));
    PlainUnbroken(item.roomID);
    PlainUnbroken(StandardComment(comment));
    KeyUnbroken(key);
    PiecesBreak(item.provider, item.transport, StandardPayload(item), item.roomID, key, StandardComment(comment));
  }

  lemma KeyUnbroken(key: string)
    requires C.ValidKey(key)
    ensures '\n' !in key
  {}

  lemma PlainUnbroken(s: string)
    requires PlainText(s)
    ensures '\n' !in s
  {}
}
