/**
 Instance records, their defaults, their validation and the configuration file rendered
 from them (internal/instance/config.go).
 */
module InstanceConfig {
  import opened Text
  import opened GoUrl
  import opened Percent

  datatype Options = Options(
    vp8FPS: int64, vp8Batch: int64,
    seiFPS: int64, seiBatch: int64, seiFragment: int64, seiAckMS: int64,
    videoWidth: int64, videoHeight: int64, videoFPS: int64,
    videoBitrate: string, videoHW: string, videoCodec: string,
    videoQRSize: int64, videoQRRecover: string, videoTile: int64, videoTileRS: int64)

  datatype Liveness = Liveness(interval: string, timeout: string, failures: int64)

  datatype Shaping = Shaping(maxPayloadSize: int64, minDelay: string, maxDelay: string)

  // S is the form of the two secrets: plain text, or ciphertext in a stored row.
  datatype Instance<S> = Instance(
    id: int, clientID: string, name: string, provider: string, authToken: S, transport: string,
    roomID: string, roomChannel: string, dns: string, outboundProxy: S,
    options: Options, liveness: Liveness, maxSessionDuration: string, traffic: Shaping,
    debug: bool, omitClientAuthToken: bool, resetPolicy: string, quotaBytes: int64, expiresAt: Option<int>)

  type Plain = Instance<string>

  const PROVIDERS: set<string> := {"jitsi", "telemost", "wbstream"}
  const TRANSPORTS: set<string> := {"datachannel", "vp8channel", "seichannel", "videochannel"}

  // ---------- defaults ----------

  function RemoveBlanks(s: string): string {
    if s == "" then "" else (if s[0] == ' ' then "" else [s[0]]) + RemoveBlanks(s[1..])
  }

  const HTTPS := "https"
  const TELEMOST_HOST := "telemost.yandex.ru"

  /** The room number of a Telemost link `https://telemost.yandex.ru/j/<number>`. */
  function TelemostLink(value: string): Option<string> {
    var parsed := ParseAbsolute(value, true);
    if parsed.None? then None
    else
      var u := parsed.value;
      if u.scheme == HTTPS && ToLower(u.host) == TELEMOST_HOST && u.user.None?
         && u.rawQuery == "" && u.fragment == "" && HasPrefix(u.path, "/j/") && u.path[3..] != "" && '/' !in u.path[3..]
      then Some(u.path[3..])
      else None
  }

  function NormalizeTrimmed(value: string): string {
    var link := TelemostLink(value);
    var compact := RemoveBlanks(if link.Some? then link.value else value);
    if compact == "" || !AllDigits(compact) then value else compact
  }

  function NormalizeRoomID(provider: string, room: string): string {
    if provider != "telemost" then room else NormalizeTrimmed(TrimSpace(room))
  }

  lemma {:induction false} RemoveBlanksDigits(s: string)
    requires AllDigits(s)
    ensures RemoveBlanks(s) == s
  {
    if s != "" {
      RemoveBlanksDigits(s[1..]);
    }
  }

  lemma DigitsAreNoLink(s: string)
    requires AllDigits(s)
    ensures TelemostLink(s).None?
  {}

  /** A normalised room stays as it is, so a stored room never drifts. */
  lemma NormalizeIdempotent(provider: string, room: string)
    ensures NormalizeRoomID(provider, NormalizeRoomID(provider, room)) == NormalizeRoomID(provider, room)
  {
    hide TelemostLink, TrimSpace;
    if provider == "telemost" {
      var value := TrimSpace(room);
      var out := NormalizeTrimmed(value);
      TrimSpaceTrims(room);
      if out != value {
        RemoveBlanksDigits(out);
        DigitsAreNoLink(out);
        FramedTrimmed(out);
        TrimmedFixed(out);
      }
    }
  }

  // The text is these digits, in this order, with blanks between them.
  predicate Spread(text: string, digits: string) {
    if text == "" then digits == ""
    else if text[0] == ' ' then Spread(text[1..], digits)
    else digits != "" && text[0] == digits[0] && Spread(text[1..], digits[1..])
  }

  lemma {:induction false} SpreadBlanks(text: string, digits: string)
    ensures Spread(text, RemoveBlanks(text))
    ensures Spread(text, digits) ==> RemoveBlanks(text) == digits
  {
    if text != "" {
      if text[0] == ' ' {
        SpreadBlanks(text[1..], digits);
        assert RemoveBlanks(text) == RemoveBlanks(text[1..]);
      } else {
        SpreadBlanks(text[1..], if digits == "" then "" else digits[1..]);
        assert RemoveBlanks(text)[1..] == RemoveBlanks(text[1..]);
      }
    }
  }

  function LinkTo(room: string): string {
    HTTPS + [':'] + ("//" + (TELEMOST_HOST + ['/'] + ("j/" + room)))
  }

  predicate HostLetters(s: string) {
    forall i :: 0 <= i < |s| ==> 'a' <= s[i] <= 'z' || s[i] == '.'
  }

  lemma {:induction false} HostParses(host: string)
    requires HostLetters(host)
    ensures ParseAuthority(host) == Some((None, host)) && '/' !in host && ToLower(host) == host
  {
    HostValid(host);
    ToLowerId(host);
    hide HostLetters, ValidHost, ParseUserinfo, ToLower, LastIndex;
    assert host[LastIndex(host, '@') + 1..] == host;
  }

  lemma HostValid(host: string)
    requires HostLetters(host)
    ensures ValidHost(host) && '@' !in host && '/' !in host
    ensures forall i :: 0 <= i < |host| ==> !('A' <= host[i] <= 'Z')
  {
    hide Index;
    assert ':' !in host;
    forall i | 0 <= i < |host| ensures HostAt(host, i) {
      assert HostChar(host[i]) && host[i] != '%';
    }
    hide HostAt;
  }

  predicate PlainPath(path: string) {
    forall c :: c in path ==> 0x20 <= c as int < 0x7f && c != '%' && c != '?'
  }

  lemma {:induction false} LinkParses(scheme: string, host: string, path: string)
    requires ValidScheme(scheme) && ToLower(scheme) == scheme && HostLetters(host) && PlainPath(path)
    requires ':' !in scheme
    ensures ParseAbsolute(scheme + [':'] + ("//" + (host + ['/'] + path)), true)
         == Some(Url(scheme, None, host, ['/'] + path, "", ""))
  {
    hide Unescape, ParseAuthority, ParseHierarchy, ValidScheme, HasControl, ToLower;
    var hier := "//" + (host + ['/'] + path);
    LinkHierarchy(scheme, host, path);
    CutAt(scheme, ':', hier);
    assert Cut(hier, '?') == (hier, "", false);
    LinkPlain(scheme, hier);
    UnescapeNothing("");
    hide Cut;
  }

  lemma LinkHierarchy(scheme: string, host: string, path: string)
    requires HostLetters(host) && PlainPath(path)
    ensures var hier := "//" + (host + ['/'] + path);
            && ParseHierarchy(scheme, hier, "", "") == Some(Url(scheme, None, host, ['/'] + path, "", ""))
            && '?' !in hier && forall c :: c in hier ==> 0x20 <= c as int < 0x7f
  {
    hide ParseAuthority, Unescape, SplitAuthority, ToLower, HostLetters, PlainPath;
    var hier := "//" + (host + ['/'] + path);
    assert hier[0] == '/';
    HierarchyPlain(host, path);
    HostParses(host);
    UnescapeNothing(['/'] + path);
    SplitAuthorityAt(host, path);
  }

  lemma HierarchyPlain(host: string, path: string)
    requires HostLetters(host) && PlainPath(path)
    ensures '%' !in ['/'] + path
    ensures forall c :: c in "//" + (host + ['/'] + path) ==> 0x20 <= c as int < 0x7f && c != '?'
  {}

  lemma LinkPlain(scheme: string, hier: string)
    requires ValidScheme(scheme)
    requires forall c :: c in hier ==> 0x20 <= c as int < 0x7f
    ensures !HasControl(scheme + [':'] + hier)
  {
    var s := scheme + [':'] + hier;
    forall i | 0 <= i < |s| ensures !(s[i] as int < 0x20 || s[i] as int == 0x7f) {
      if i < |scheme| {
        assert s[i] == scheme[i] && SchemeChar(scheme[i]);
      } else if i > |scheme| {
        assert s[i] == hier[i - |scheme| - 1] && hier[i - |scheme| - 1] in hier;
      }
    }
  }

  /** The forms a room may be given in: of Telemost its digits, grouped by blanks or not, or the link to it. */
  lemma {:induction false} RoomForms(provider: string, room: string, digits: string)
    requires AllDigits(digits) && digits != ""
    ensures provider != "telemost" ==> NormalizeRoomID(provider, room) == room
    ensures Spread(TrimSpace(room), digits) ==> NormalizeRoomID("telemost", room) == digits
    ensures NormalizeRoomID("telemost", LinkTo(digits)) == digits
  {
    var value := TrimSpace(room);
    SpreadBlanks(value, digits);
    if Spread(value, digits) {
      SpreadNoLink(value, digits);
    }
    RemoveBlanksDigits(digits);
    SpreadBlanks(digits, digits);
    LinkIsDigits(digits);
    hide TelemostLink, TrimSpace;
  }

  lemma {:induction false} SpreadLacks(text: string, digits: string, c: char)
    requires Spread(text, digits) && AllDigits(digits) && c != ' ' && !IsDigit(c)
    ensures c !in text
  {
    if text != "" && text[0] == ' ' {
      SpreadLacks(text[1..], digits, c);
    } else if text != "" {
      SpreadLacks(text[1..], digits[1..], c);
    }
  }

  lemma {:induction false} SpreadNoLink(text: string, digits: string)
    requires Spread(text, digits) && AllDigits(digits)
    ensures TelemostLink(text).None?
  {
    SpreadLacks(text, digits, ':');
  }

  lemma LinkIsDigits(digits: string)
    requires AllDigits(digits) && digits != ""
    ensures TrimSpace(LinkTo(digits)) == LinkTo(digits) && TelemostLink(LinkTo(digits)) == Some(digits)
  {
    hide HTTPS, TELEMOST_HOST, TrimSpace, ParseAbsolute, HostLetters, ToLower, AllDigits, ValidScheme, PlainPath;
    LinkTrimmed(digits);
    LinkHost();
    LinkPath(digits);
    var path := "j/" + digits;
    LinkParses(HTTPS, TELEMOST_HOST, path);
    assert LinkTo(digits) == HTTPS + [':'] + ("//" + (TELEMOST_HOST + ['/'] + path));
    hide LinkTo;
    assert ['/'] + path != "";
  }

  lemma LinkTrimmed(digits: string)
    requires AllDigits(digits) && digits != ""
    ensures TrimSpace(LinkTo(digits)) == LinkTo(digits)
  {
    var link := LinkTo(digits);
    assert link[|link| - 1] == digits[|digits| - 1];
    assert HTTPS[0] == 'h' && link[0] == 'h';
    hide HTTPS, TELEMOST_HOST, LinkTo;
    FramedTrimmed(link);
    TrimmedFixed(link);
  }

  lemma LinkHost()
    ensures HostLetters(TELEMOST_HOST) && ToLower(TELEMOST_HOST) == TELEMOST_HOST && ToLower(HTTPS) == HTTPS
    ensures ValidScheme(HTTPS) && ':' !in HTTPS
  {
    SchemeParses();
    hide HTTPS, ValidScheme;
    HostParses(TELEMOST_HOST);
  }

  lemma SchemeParses()
    ensures ToLower(HTTPS) == HTTPS && ValidScheme(HTTPS) && ':' !in HTTPS
  {
    hide TELEMOST_HOST;
    ToLowerId(HTTPS);
  }

  lemma LinkPath(digits: string)
    requires AllDigits(digits)
    ensures var path := ['/'] + ("j/" + digits); HasPrefix(path, "/j/") && path[3..] == digits && '/' !in digits
    ensures PlainPath("j/" + digits)
  {
    var path := ['/'] + ("j/" + digits);
    assert path[..3] == "/j/";
  }

  /** Everything else stays, but for blanks around it. */
  lemma RoomOther(room: string)
    ensures var held := NormalizeRoomID("telemost", room);
            held == TrimSpace(room) ||
            (&& AllDigits(held) && held != ""
             && (|| Spread(TrimSpace(room), held)
                 || (TelemostLink(TrimSpace(room)).Some? && Spread(TelemostLink(TrimSpace(room)).value, held))))
  {
    var value := TrimSpace(room);
    SpreadBlanks(value, "");
    if TelemostLink(value).Some? {
      SpreadBlanks(TelemostLink(value).value, "");
    }
  }

  function OrText(value: string, default: string): string {
    if value == "" then default else value
  }

  function OrNumber(value: int64, default: int64): int64 {
    if value == 0 then default else value
  }

  function DefaultOptions(o: Options): Options {
    Options(
      OrNumber(o.vp8FPS, 30), OrNumber(o.vp8Batch, 64),
      OrNumber(o.seiFPS, 30), OrNumber(o.seiBatch, 64), OrNumber(o.seiFragment, 900), OrNumber(o.seiAckMS, 2000),
      OrNumber(o.videoWidth, 1920), OrNumber(o.videoHeight, 1080), OrNumber(o.videoFPS, 30),
      OrText(o.videoBitrate, "2M"), OrText(o.videoHW, "none"), OrText(o.videoCodec, "qrcode"),
      o.videoQRSize, OrText(o.videoQRRecover, "low"), OrNumber(o.videoTile, 4), OrNumber(o.videoTileRS, 20))
  }

  function ApplyDefaults<S>(item: Instance<S>): Instance<S> {
    item.(
      roomID := NormalizeRoomID(item.provider, item.roomID),
      dns := OrText(item.dns, "8.8.8.8:53"),
      resetPolicy := OrText(item.resetPolicy, "never"),
      liveness := Liveness(OrText(item.liveness.interval, "10s"), OrText(item.liveness.timeout, "5s"),
          OrNumber(item.liveness.failures, 3)),
      options := DefaultOptions(item.options))
  }

  predicate Defaulted<S(==)>(item: Instance<S>) {
    ApplyDefaults(item) == item
  }

  /** Defaults are applied once and for all, whatever the secrets are. */
  lemma DefaultsIdempotent<S, T(!new)>(item: Instance<S>)
    ensures Defaulted(ApplyDefaults(item))
    ensures forall i: Instance<T> :: SamePublic(ApplyDefaults(item), i) ==> Defaulted(i)
  {
    NormalizeIdempotent(item.provider, item.roomID);
  }

  // The two records agree on every field that is neither a secret nor the client identity.
  ghost predicate SamePublic<S, T>(a: Instance<S>, b: Instance<T>) {
    && a.id == b.id && a.name == b.name && a.provider == b.provider && a.transport == b.transport
    && a.roomID == b.roomID && a.roomChannel == b.roomChannel && a.dns == b.dns && a.options == b.options
    && a.liveness == b.liveness && a.maxSessionDuration == b.maxSessionDuration && a.traffic == b.traffic
    && a.debug == b.debug && a.omitClientAuthToken == b.omitClientAuthToken && a.resetPolicy == b.resetPolicy
    && a.quotaBytes == b.quotaBytes && a.expiresAt == b.expiresAt
  }

  // ---------- validation ----------

  datatype Proxy = Proxy(addr: string, port: int, user: string, pass: string)

  // Standard-library verdicts on one field each: net/url on a Jitsi room and on a proxy,
  // net.SplitHostPort on the DNS address, time.ParseDuration on a duration.
  datatype Checks = Checks(
    jitsiRoom: string -> bool, hostPort: string -> bool,
    parseProxy: string -> Option<Proxy>, duration: (string, bool) -> bool)

  predicate Continuation(c: char) {
    0x80 <= c as int < 0xC0
  }

  /** The number of runes of a UTF-8 string: the bytes that do not continue a rune. */
  function RuneCount(s: string): nat {
    if s == "" then 0 else (if Continuation(s[0]) then 0 else 1) + RuneCount(s[1..])
  }

  predicate ValidTransport(transport: string, o: Options) {
    match transport
    case "vp8channel" => 1 <= o.vp8FPS <= 240 && 1 <= o.vp8Batch <= 4096
    case "seichannel" =>
      1 <= o.seiFPS <= 240 && 1 <= o.seiBatch <= 4096 && 128 <= o.seiFragment <= 65535 && 100 <= o.seiAckMS <= 120000
    case "videochannel" =>
      && o.videoBitrate != "" && (forall i :: 0 <= i < |o.videoBitrate| ==>
           IsDigit(o.videoBitrate[i]) || o.videoBitrate[i] in {'k', 'K', 'm', 'M'})
      && (o.videoCodec == "qrcode" || o.videoCodec == "tile")
      && 64 <= o.videoWidth <= 7680 && 64 <= o.videoHeight <= 4320 && 1 <= o.videoFPS <= 240
      && (o.videoHW == "none" || o.videoHW == "nvenc")
      && (o.videoCodec == "tile" ==>
            o.videoWidth == 1080 && o.videoHeight == 1080 && 1 <= o.videoTile <= 270 && 0 <= o.videoTileRS <= 200)
    case _ => true
  }

  predicate Validate(checks: Checks, item: Plain) {
    && TrimSpace(item.name) != "" && RuneCount(item.name) <= 80 && !ContainsAny(item.name, {'\r', '\n'})
    && item.provider in PROVIDERS && item.transport in TRANSPORTS
    && TrimSpace(item.roomID) != "" && !ContainsAny(item.roomID, {'\r', '\n', '?', '<', '>', '@', '#', '$', '\0'})
    && (item.provider == "jitsi" ==> checks.jitsiRoom(item.roomID))
    && checks.hostPort(item.dns)
    && (item.outboundProxy != "" ==> checks.parseProxy(item.outboundProxy).Some?)
    && checks.duration(item.liveness.interval, true) && checks.duration(item.liveness.timeout, true)
    && 1 <= item.liveness.failures <= 100
    && (item.maxSessionDuration != "" ==> checks.duration(item.maxSessionDuration, true))
    && (item.traffic.minDelay != "" ==> checks.duration(item.traffic.minDelay, false))
    && (item.traffic.maxDelay != "" ==> checks.duration(item.traffic.maxDelay, false))
    && item.quotaBytes >= 0
    && item.resetPolicy in {"never", "daily", "weekly", "monthly", "manual"}
    && ValidTransport(item.transport, item.options)
  }

  // ---------- what a record holds after the defaults ----------

  // A text or number that was given stays; one that was not holds the default.
  predicate TextGranted(given: string, held: string, default: string) {
    (given != "" ==> held == given) && (given == "" ==> held == default)
  }

  predicate NumberGranted(given: int64, held: int64, default: int64) {
    (given != 0 ==> held == given) && (given == 0 ==> held == default)
  }

  predicate OptionsGranted(given: Options, held: Options) {
    && NumberGranted(given.vp8FPS, held.vp8FPS, 30) && NumberGranted(given.vp8Batch, held.vp8Batch, 64)
    && NumberGranted(given.seiFPS, held.seiFPS, 30) && NumberGranted(given.seiBatch, held.seiBatch, 64)
    && NumberGranted(given.seiFragment, held.seiFragment, 900) && NumberGranted(given.seiAckMS, held.seiAckMS, 2000)
    && NumberGranted(given.videoWidth, held.videoWidth, 1920)
    && NumberGranted(given.videoHeight, held.videoHeight, 1080)
    && NumberGranted(given.videoFPS, held.videoFPS, 30) && TextGranted(given.videoBitrate, held.videoBitrate, "2M")
    && TextGranted(given.videoHW, held.videoHW, "none") && TextGranted(given.videoCodec, held.videoCodec, "qrcode")
    && held.videoQRSize == given.videoQRSize && TextGranted(given.videoQRRecover, held.videoQRRecover, "low")
    && NumberGranted(given.videoTile, held.videoTile, 4) && NumberGranted(given.videoTileRS, held.videoTileRS, 20)
  }

  /** The record holds what the request asked for: every public field as given, or its documented default. */
  predicate Granted<S, T>(item: Instance<S>, held: Instance<T>) {
    && held.name == item.name && held.provider == item.provider && held.transport == item.transport
    && held.roomID == NormalizeRoomID(item.provider, item.roomID) && held.roomChannel == item.roomChannel
    && TextGranted(item.dns, held.dns, "8.8.8.8:53") && OptionsGranted(item.options, held.options)
    && TextGranted(item.liveness.interval, held.liveness.interval, "10s")
    && TextGranted(item.liveness.timeout, held.liveness.timeout, "5s")
    && NumberGranted(item.liveness.failures, held.liveness.failures, 3)
    && held.maxSessionDuration == item.maxSessionDuration && held.traffic == item.traffic
    && held.debug == item.debug && held.omitClientAuthToken == item.omitClientAuthToken
    && TextGranted(item.resetPolicy, held.resetPolicy, "never")
    && held.quotaBytes == item.quotaBytes && held.expiresAt == item.expiresAt
  }

  lemma DefaultsGrant<S>(item: Instance<S>)
    ensures Granted(item, ApplyDefaults(item))
    ensures var d := ApplyDefaults(item);
            && d.id == item.id && d.clientID == item.clientID
            && d.authToken == item.authToken && d.outboundProxy == item.outboundProxy
  {
    hide NormalizeRoomID;
  }

  // A request that leaves the options and the optional texts to the defaults.
  predicate LeavesDefaults(item: Plain) {
    && item.options == Options(0, 0, 0, 0, 0, 0, 0, 0, 0, "", "", "", 0, "", 0, 0)
    && item.dns == "" && item.liveness == Liveness("", "", 0) && item.resetPolicy == "" && item.quotaBytes == 0
    && item.outboundProxy == "" && item.maxSessionDuration == "" && item.traffic == Shaping(0, "", "")
  }

  // The name and the room can be stored, and the standard library takes the default texts.
  predicate Named(checks: Checks, item: Plain) {
    && TrimSpace(item.name) != "" && RuneCount(item.name) <= 80 && !ContainsAny(item.name, {'\r', '\n'})
    && TrimSpace(item.roomID) != "" && (item.provider == "jitsi" ==> checks.jitsiRoom(item.roomID))
    && !ContainsAny(item.roomID, {'\r', '\n', '?', '<', '>', '@', '#', '$', '\0'})
    && checks.hostPort("8.8.8.8:53") && checks.duration("10s", true) && checks.duration("5s", true)
  }

  /** Such a request is valid for every provider and transport once the room is normalised. */
  lemma DefaultsValid(checks: Checks, item: Plain)
    requires LeavesDefaults(item) && item.provider in PROVIDERS && item.transport in TRANSPORTS
    requires Named(checks, item.(roomID := NormalizeRoomID(item.provider, item.roomID)))
    ensures Validate(checks, ApplyDefaults(item))
  {
    hide NormalizeRoomID, TrimSpace, RuneCount, ContainsAny;
    var bitrate := "2M";
    assert bitrate[0] == '2' && bitrate[1] == 'M';
  }

  /** With the tile codec the width must be given, the height need not: the picture is 1080 by 1080. */
  lemma TileNeedsWidth(o: Options)
    requires o.videoCodec == "tile" && ValidTransport("videochannel", DefaultOptions(o))
    ensures o.videoWidth == 1080 && (o.videoHeight == 1080 || o.videoHeight == 0)
  {}

  // ---------- rendering ----------

  // The paths of the configuration document, such as auth.provider and vp8.batch_size.
  datatype Key =
    | Mode | AuthProvider | AuthToken | RoomId | RoomChannel | CryptoKeyOf | NetTransport | NetDns
    | SocksProxyAddr | SocksProxyPort | SocksProxyUser | SocksProxyPass
    | Vp8Fps | Vp8BatchSize
    | SeiFps | SeiBatchSize | SeiFragmentSize | SeiAckTimeoutMs
    | VideoCodec | VideoWidth | VideoHeight | VideoFps | VideoBitrate | VideoHw
    | VideoQrSize | VideoQrRecovery | VideoTileModule | VideoTileRs
    | LivenessInterval | LivenessTimeout | LivenessFailures | LifecycleMaxSessionDuration
    | TrafficMaxPayloadSize | TrafficMinDelay | TrafficMaxDelay | DataPath | Debug

  datatype Scalar = Word(text: string) | Number(value: int) | Flag(on: bool)

  // The document; its text is an injective encoding of this map.
  type Yaml = map<Key, Scalar>

  // A field with `omitempty` is left out when it is empty.
  function WordUnlessEmpty(key: Key, text: string): Yaml {
    if text == "" then map[] else map[key := Word(text)]
  }

  function NumberUnlessZero(key: Key, value: int): Yaml {
    if value == 0 then map[] else map[key := Number(value)]
  }

  function RenderProxy(proxy: Proxy): Yaml {
    map[SocksProxyAddr := Word(proxy.addr), SocksProxyPort := Number(proxy.port)]
    + WordUnlessEmpty(SocksProxyUser, proxy.user) + WordUnlessEmpty(SocksProxyPass, proxy.pass)
  }

  function RenderOptions(transport: string, o: Options): Yaml {
    match transport
    case "vp8channel" => map[Vp8Fps := Number(o.vp8FPS), Vp8BatchSize := Number(o.vp8Batch)]
    case "seichannel" =>
      map[SeiFps := Number(o.seiFPS), SeiBatchSize := Number(o.seiBatch),
          SeiFragmentSize := Number(o.seiFragment), SeiAckTimeoutMs := Number(o.seiAckMS)]
    case "videochannel" => RenderVideo(o)
    case _ => map[]
  }

  function RenderVideo(o: Options): Yaml {
    RenderFrame(o) + RenderTiles(o)
  }

  function RenderFrame(o: Options): Yaml {
    map[VideoCodec := Word(o.videoCodec), VideoWidth := Number(o.videoWidth), VideoHeight := Number(o.videoHeight),
        VideoFps := Number(o.videoFPS), VideoBitrate := Word(o.videoBitrate), VideoHw := Word(o.videoHW),
        VideoQrRecovery := Word(o.videoQRRecover)]
  }

  function RenderTiles(o: Options): Yaml {
    NumberUnlessZero(VideoQrSize, o.videoQRSize)
    + NumberUnlessZero(VideoTileModule, o.videoTile) + NumberUnlessZero(VideoTileRs, o.videoTileRS)
  }

  function RenderLiveness(item: Plain): Yaml {
    map[LivenessInterval := Word(item.liveness.interval), LivenessTimeout := Word(item.liveness.timeout),
        LivenessFailures := Number(item.liveness.failures), Debug := Flag(item.debug)]
  }

  function RenderTraffic(traffic: Shaping): Yaml {
    NumberUnlessZero(TrafficMaxPayloadSize, traffic.maxPayloadSize)
    + WordUnlessEmpty(TrafficMinDelay, traffic.minDelay) + WordUnlessEmpty(TrafficMaxDelay, traffic.maxDelay)
  }

  function RenderRun(item: Plain, dataPath: string): Yaml {
    WordUnlessEmpty(LifecycleMaxSessionDuration, item.maxSessionDuration) + WordUnlessEmpty(DataPath, dataPath)
  }

  function RenderIdentity(item: Plain): Yaml {
    map[Mode := Word("srv"), AuthProvider := Word(item.provider), RoomId := Word(item.roomID),
        CryptoKeyOf := Number(item.id), NetTransport := Word(item.transport), NetDns := Word(item.dns)]
    + WordUnlessEmpty(AuthToken, item.authToken) + WordUnlessEmpty(RoomChannel, item.roomChannel)
  }

  // Blanks alone are a proxy text that stands for none, with empty fields.
  function ProxyOf(checks: Checks, item: Plain): Yaml {
    if item.outboundProxy == "" || checks.parseProxy(item.outboundProxy).None? then map[]
    else RenderProxy(checks.parseProxy(item.outboundProxy).value)
  }

  function Together(parts: seq<Yaml>): Yaml {
    if parts == [] then map[] else parts[0] + Together(parts[1..])
  }

  /** RenderYAML: None is its validation error. */
  function RenderYaml(checks: Checks, item: Plain, dataPath: string): Option<Yaml> {
    if !Validate(checks, item) then None
    else Some(Together([RenderIdentity(item), ProxyOf(checks, item), RenderOptions(item.transport, item.options),
                        RenderLiveness(item), RenderTraffic(item.traffic), RenderRun(item, dataPath)]))
  }

  // ---------- what the document says ----------

  // What is read at a path; an absent text is empty and an absent number zero.
  function WordAt(doc: Yaml, key: Key): string {
    if key in doc && doc[key].Word? then doc[key].text else ""
  }

  function NumberAt(doc: Yaml, key: Key): int {
    if key in doc && doc[key].Number? then doc[key].value else 0
  }

  const VP8_KEYS: set<Key> := {Vp8Fps, Vp8BatchSize}
  const SEI_KEYS: set<Key> := {SeiFps, SeiBatchSize, SeiFragmentSize, SeiAckTimeoutMs}
  const VIDEO_KEYS: set<Key> := {VideoCodec, VideoWidth, VideoHeight, VideoFps, VideoBitrate, VideoHw, VideoQrSize,
                                 VideoQrRecovery, VideoTileModule, VideoTileRs}
  const PROXY_KEYS: set<Key> := {SocksProxyAddr, SocksProxyPort, SocksProxyUser, SocksProxyPass}

  predicate SaysIdentity(doc: Yaml, item: Plain) {
    && WordAt(doc, Mode) == "srv" && WordAt(doc, AuthProvider) == item.provider
    && WordAt(doc, AuthToken) == item.authToken && WordAt(doc, RoomId) == item.roomID
    && WordAt(doc, RoomChannel) == item.roomChannel && NumberAt(doc, CryptoKeyOf) == item.id
    && WordAt(doc, NetTransport) == item.transport && WordAt(doc, NetDns) == item.dns
  }

  // The proxy block is there exactly when a proxy is set, with its four fields.
  predicate SaysProxy(checks: Checks, doc: Yaml, text: string) {
    if text == "" then doc.Keys !! PROXY_KEYS
    else
      var proxy := checks.parseProxy(text);
      && proxy.Some?
      && WordAt(doc, SocksProxyAddr) == proxy.value.addr && NumberAt(doc, SocksProxyPort) == proxy.value.port
      && WordAt(doc, SocksProxyUser) == proxy.value.user && WordAt(doc, SocksProxyPass) == proxy.value.pass
  }

  // The document has the block of the transport, with every option at its path, and no other block.
  predicate SaysOptions(doc: Yaml, transport: string, o: Options) {
    && (transport != "vp8channel" ==> doc.Keys !! VP8_KEYS)
    && (transport == "vp8channel" ==>
          NumberAt(doc, Vp8Fps) == o.vp8FPS as int && NumberAt(doc, Vp8BatchSize) == o.vp8Batch as int)
    && (transport != "seichannel" ==> doc.Keys !! SEI_KEYS)
    && (transport == "seichannel" ==>
          && NumberAt(doc, SeiFps) == o.seiFPS as int && NumberAt(doc, SeiBatchSize) == o.seiBatch as int
          && NumberAt(doc, SeiFragmentSize) == o.seiFragment as int
          && NumberAt(doc, SeiAckTimeoutMs) == o.seiAckMS as int)
    && (transport != "videochannel" ==> doc.Keys !! VIDEO_KEYS)
    && (transport == "videochannel" ==> SaysVideo(doc, o))
  }

  predicate SaysVideo(doc: Yaml, o: Options) {
    && WordAt(doc, VideoCodec) == o.videoCodec && NumberAt(doc, VideoWidth) == o.videoWidth as int
    && NumberAt(doc, VideoHeight) == o.videoHeight as int && NumberAt(doc, VideoFps) == o.videoFPS as int
    && WordAt(doc, VideoBitrate) == o.videoBitrate && WordAt(doc, VideoHw) == o.videoHW
    && NumberAt(doc, VideoQrSize) == o.videoQRSize as int && WordAt(doc, VideoQrRecovery) == o.videoQRRecover
    && NumberAt(doc, VideoTileModule) == o.videoTile as int && NumberAt(doc, VideoTileRs) == o.videoTileRS as int
  }

  predicate SaysLiveness(doc: Yaml, item: Plain) {
    && WordAt(doc, LivenessInterval) == item.liveness.interval && WordAt(doc, LivenessTimeout) == item.liveness.timeout
    && NumberAt(doc, LivenessFailures) == item.liveness.failures as int
    && Debug in doc && doc[Debug] == Flag(item.debug)
  }

  predicate SaysTraffic(doc: Yaml, traffic: Shaping) {
    && NumberAt(doc, TrafficMaxPayloadSize) == traffic.maxPayloadSize as int
    && WordAt(doc, TrafficMinDelay) == traffic.minDelay && WordAt(doc, TrafficMaxDelay) == traffic.maxDelay
  }

  predicate SaysRun(doc: Yaml, item: Plain) {
    WordAt(doc, LifecycleMaxSessionDuration) == item.maxSessionDuration
  }

  /** What a runtime reads out of the document is the record's, setting by setting. */
  predicate Says(checks: Checks, doc: Yaml, item: Plain) {
    && SaysIdentity(doc, item) && SaysProxy(checks, doc, item.outboundProxy)
    && SaysOptions(doc, item.transport, item.options) && SaysLiveness(doc, item) && SaysTraffic(doc, item.traffic)
    && SaysRun(doc, item)
  }

  // The keys of the six parts of a document.
  function PartOf(key: Key): nat {
    match key
    case Mode | AuthProvider | AuthToken | RoomId | RoomChannel | CryptoKeyOf | NetTransport | NetDns => 0
    case SocksProxyAddr | SocksProxyPort | SocksProxyUser | SocksProxyPass => 1
    case LivenessInterval | LivenessTimeout | LivenessFailures | Debug => 3
    case TrafficMaxPayloadSize | TrafficMinDelay | TrafficMaxDelay => 4
    case LifecycleMaxSessionDuration | DataPath => 5
    case _ => 2
  }

  ghost predicate Within(doc: Yaml, part: nat) {
    forall k :: k in doc ==> PartOf(k) == part
  }

  // The document and the part have the same entries of that kind.
  ghost predicate Shows(doc: Yaml, block: Yaml, part: nat) {
    forall k :: PartOf(k) == part ==> (k in doc <==> k in block) && (k in block ==> doc[k] == block[k])
  }

  lemma {:induction false} TogetherShows(parts: seq<Yaml>, first: nat)
    requires forall i :: 0 <= i < |parts| ==> Within(parts[i], first + i)
    ensures forall k :: k in Together(parts) ==> PartOf(k) >= first
    ensures forall i :: 0 <= i < |parts| ==> Shows(Together(parts), parts[i], first + i)
  {
    hide PartOf;
    if parts != [] {
      var rest := parts[1..];
      assert forall i :: 0 <= i < |rest| ==> rest[i] == parts[i + 1] && Within(parts[i + 1], first + (i + 1));
      TogetherShows(rest, first + 1);
      forall i | 0 <= i < |parts| ensures Shows(Together(parts), parts[i], first + i) {
        if i > 0 {
          assert rest[i - 1] == parts[i] && Shows(Together(rest), rest[i - 1], first + 1 + (i - 1));
        }
      }
    }
  }

  lemma IdentitySays(item: Plain, doc: Yaml)
    requires Shows(doc, RenderIdentity(item), 0)
    ensures SaysIdentity(doc, item)
  {
    assert PartOf(Mode) == PartOf(AuthProvider) == PartOf(AuthToken) == PartOf(RoomId) == 0;
    assert PartOf(RoomChannel) == PartOf(CryptoKeyOf) == PartOf(NetTransport) == PartOf(NetDns) == 0;
    hide PartOf;
  }

  lemma IdentityWithin(item: Plain)
    ensures Within(RenderIdentity(item), 0)
  {}

  lemma ProxySays(checks: Checks, item: Plain, doc: Yaml)
    requires item.outboundProxy != "" ==> checks.parseProxy(item.outboundProxy).Some?
    requires Shows(doc, ProxyOf(checks, item), 1)
    ensures SaysProxy(checks, doc, item.outboundProxy)
  {
    assert forall k :: k in PROXY_KEYS ==> PartOf(k) == 1;
    assert PartOf(SocksProxyAddr) == PartOf(SocksProxyPort) == PartOf(SocksProxyUser) == PartOf(SocksProxyPass) == 1;
    hide PartOf;
  }

  lemma ProxyWithin(checks: Checks, item: Plain)
    ensures Within(ProxyOf(checks, item), 1)
  {}

  lemma OptionsSay(transport: string, o: Options, doc: Yaml)
    requires Shows(doc, RenderOptions(transport, o), 2)
    ensures SaysOptions(doc, transport, o)
  {
    var block := RenderOptions(transport, o);
    OptionKeys();
    OptionsApart(transport, o);
    SameBlocks(doc, block);
    assert PartOf(Vp8Fps) == PartOf(Vp8BatchSize) == PartOf(SeiFps) == PartOf(SeiBatchSize) == 2;
    assert PartOf(SeiFragmentSize) == PartOf(SeiAckTimeoutMs) == 2;
    hide PartOf;
    if transport == "videochannel" {
      VideoSays(o, doc);
    }
    hide RenderVideo, SaysVideo;
  }

  lemma OptionKeys()
    ensures forall k :: k in VP8_KEYS || k in SEI_KEYS || k in VIDEO_KEYS ==> PartOf(k) == 2
  {}

  // Blocks that are not there in the part are not there in the document.
  lemma SameBlocks(doc: Yaml, block: Yaml)
    requires Shows(doc, block, 2)
    ensures block.Keys !! VP8_KEYS ==> doc.Keys !! VP8_KEYS
    ensures block.Keys !! SEI_KEYS ==> doc.Keys !! SEI_KEYS
    ensures block.Keys !! VIDEO_KEYS ==> doc.Keys !! VIDEO_KEYS
  {
    OptionKeys();
    hide PartOf;
  }

  lemma OptionsApart(transport: string, o: Options)
    ensures transport != "vp8channel" ==> RenderOptions(transport, o).Keys !! VP8_KEYS
    ensures transport != "seichannel" ==> RenderOptions(transport, o).Keys !! SEI_KEYS
    ensures transport != "videochannel" ==> RenderOptions(transport, o).Keys !! VIDEO_KEYS
  {
    VideoKeys(o);
    hide RenderVideo;
  }

  lemma VideoKeys(o: Options)
    ensures RenderVideo(o).Keys <= VIDEO_KEYS
  {
    TilesSay(o);
    hide RenderTiles;
  }

  lemma TilesSay(o: Options)
    ensures var doc := RenderTiles(o);
            && NumberAt(doc, VideoQrSize) == o.videoQRSize as int
            && NumberAt(doc, VideoTileModule) == o.videoTile as int
            && NumberAt(doc, VideoTileRs) == o.videoTileRS as int
            && doc.Keys <= {VideoQrSize, VideoTileModule, VideoTileRs}
  {}

  lemma VideoSays(o: Options, doc: Yaml)
    requires Shows(doc, RenderVideo(o), 2)
    ensures SaysVideo(doc, o)
  {
    VideoBlock(o);
    OptionKeys();
    ReadsBlock(doc, RenderVideo(o), 2);
    assert forall k :: k in VIDEO_KEYS ==>
      WordAt(doc, k) == WordAt(RenderVideo(o), k) && NumberAt(doc, k) == NumberAt(RenderVideo(o), k);
    hide PartOf, RenderVideo, WordAt, NumberAt;
  }

  lemma VideoBlock(o: Options)
    ensures SaysVideo(RenderVideo(o), o)
  {
    var frame, tiles := RenderFrame(o), RenderTiles(o);
    TilesSay(o);
    assert forall k :: k in frame ==> k !in tiles;
    assert RenderVideo(o) == frame + tiles;
    hide RenderTiles, RenderVideo;
  }

  // What is read in the document under a key of a part is what the part has there.
  lemma ReadsBlock(doc: Yaml, block: Yaml, part: nat)
    requires Shows(doc, block, part)
    ensures forall k :: PartOf(k) == part ==>
              WordAt(doc, k) == WordAt(block, k) && NumberAt(doc, k) == NumberAt(block, k)
  {
    hide PartOf;
  }

  lemma OptionsWithin(transport: string, o: Options)
    ensures Within(RenderOptions(transport, o), 2)
  {
    VideoKeys(o);
    OptionKeys();
    assert PartOf(Vp8Fps) == PartOf(Vp8BatchSize) == PartOf(SeiFps) == PartOf(SeiBatchSize) == 2;
    assert PartOf(SeiFragmentSize) == PartOf(SeiAckTimeoutMs) == 2;
    hide RenderVideo, PartOf;
  }

  lemma LivenessSays(item: Plain, doc: Yaml)
    requires Shows(doc, RenderLiveness(item), 3)
    ensures SaysLiveness(doc, item)
  {
    assert PartOf(LivenessInterval) == PartOf(LivenessTimeout) == PartOf(LivenessFailures) == PartOf(Debug) == 3;
    hide PartOf;
  }

  lemma TrafficSays(traffic: Shaping, doc: Yaml)
    requires Shows(doc, RenderTraffic(traffic), 4)
    ensures SaysTraffic(doc, traffic)
  {
    assert PartOf(TrafficMaxPayloadSize) == PartOf(TrafficMinDelay) == PartOf(TrafficMaxDelay) == 4;
    hide PartOf;
  }

  lemma RunSays(item: Plain, dataPath: string, doc: Yaml)
    requires Shows(doc, RenderRun(item, dataPath), 5)
    ensures SaysRun(doc, item) && WordAt(doc, DataPath) == dataPath
  {
    assert PartOf(LifecycleMaxSessionDuration) == PartOf(DataPath) == 5;
    hide PartOf;
  }

  lemma LivenessWithin(item: Plain)
    ensures Within(RenderLiveness(item), 3)
  {}

  lemma TrafficWithin(traffic: Shaping)
    ensures Within(RenderTraffic(traffic), 4)
  {}

  lemma RunWithin(item: Plain, dataPath: string)
    ensures Within(RenderRun(item, dataPath), 5)
  {}

  /** The rendered document says what the record holds, and names the data path. */
  lemma RenderedSays(checks: Checks, item: Plain, dataPath: string)
    requires RenderYaml(checks, item, dataPath).Some?
    ensures Says(checks, RenderYaml(checks, item, dataPath).value, item)
    ensures WordAt(RenderYaml(checks, item, dataPath).value, DataPath) == dataPath
  {
    assert item.outboundProxy != "" ==> checks.parseProxy(item.outboundProxy).Some?;
    hide Validate, RenderIdentity, ProxyOf, RenderOptions, RenderLiveness, RenderTraffic, RenderRun, WordAt;
    hide Within, Shows, Together, SaysIdentity, SaysProxy, SaysOptions, SaysLiveness, SaysTraffic, SaysRun;
    var doc := RenderYaml(checks, item, dataPath).value;
    var parts := [RenderIdentity(item), ProxyOf(checks, item), RenderOptions(item.transport, item.options),
                  RenderLiveness(item), RenderTraffic(item.traffic), RenderRun(item, dataPath)];
    IdentityWithin(item);
    ProxyWithin(checks, item);
    OptionsWithin(item.transport, item.options);
    LivenessWithin(item);
    TrafficWithin(item.traffic);
    RunWithin(item, dataPath);
    TogetherShows(parts, 0);
    assert forall i :: 0 <= i < |parts| ==> Shows(doc, parts[i], 0 + i);
    assert Shows(doc, parts[0], 0) && Shows(doc, parts[1], 1) && Shows(doc, parts[2], 2);
    assert Shows(doc, parts[3], 3) && Shows(doc, parts[4], 4) && Shows(doc, parts[5], 5);
    IdentitySays(item, doc);
    ProxySays(checks, item, doc);
    OptionsSay(item.transport, item.options, doc);
    LivenessSays(item, doc);
    TrafficSays(item.traffic, doc);
    RunSays(item, dataPath, doc);
  }
}
