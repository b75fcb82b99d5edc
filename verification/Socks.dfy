/**
 The SOCKS5 bridge of internal/assets/files/wb/worker.mjs: a reader that cuts messages of
 known length out of a chunked stream, and a relay that shakes hands with a client and with
 an authenticating upstream before it joins them (sections 3 to 6 of RFC 1928, section 2 of
 RFC 1929).
 */
module Socks {
  import opened Text

  type byte = x: int | 0 <= x < 256
  type Bytes = seq<byte>

  // ---------- the reader ----------

  datatype ReadResult = Ready(bytes: Bytes) | Waiting | Rejected

  /** createSocketReader */
  class SocketReader {
    var buffered: Bytes
    var pending: Option<nat>
    var failed: bool
    ghost var arrived: Bytes     // every byte the socket delivered
    ghost var taken: Bytes       // every byte handed to a caller

    ghost predicate Valid()
      reads this
    {
      arrived == taken + buffered && (pending.Some? ==> |buffered| < pending.value)
    }

    constructor ()
      ensures Valid() && arrived == [] && taken == [] && pending == None && !failed
    {
      buffered, pending, failed, arrived, taken := [], None, false, [], [];
    }

    /** A chunk arrives; it may complete the read that is waiting. */
    method OnData(chunk: Bytes) returns (result: ReadResult)
      requires Valid()
      modifies this
      ensures Valid() && arrived == old(arrived) + chunk && failed == old(failed)
      ensures result.Ready? <==> old(pending).Some? && old(pending).value <= |old(buffered)| + |chunk|
      ensures result.Ready? ==>
                |result.bytes| == old(pending).value && taken == old(taken) + result.bytes && pending == None
      ensures !result.Ready? ==> result == Waiting && taken == old(taken) && pending == old(pending)
    {
      buffered := if |buffered| > 0 then buffered + chunk else chunk;
      arrived := arrived + chunk;
      if pending.None? || |buffered| < pending.value {
        return Waiting;
      }
      var length := pending.value;
      pending := None;
      result := Ready(buffered[..length]);
      buffered := buffered[length..];
      taken := taken + result.bytes;
    }

    /** The socket ends or breaks; a waiting read is rejected, buffered bytes stay readable. */
    method OnFail() returns (rejected: bool)
      requires Valid()
      modifies this
      ensures Valid() && failed && pending == None && arrived == old(arrived) && taken == old(taken)
      ensures rejected <==> old(pending).Some?
    {
      failed := true;
      rejected := pending.Some?;
      pending := None;
    }

    method Read(length: nat) returns (result: ReadResult)
      requires Valid()
      modifies this
      ensures Valid() && arrived == old(arrived) && failed == old(failed)
      ensures result.Ready? <==> length <= |old(buffered)|
      ensures result.Ready? ==>
                |result.bytes| == length && taken == old(taken) + result.bytes && pending == old(pending)
      ensures result.Waiting? ==> !failed && old(pending) == None && pending == Some(length) && taken == old(taken)
      ensures result.Rejected? ==> (failed || old(pending).Some?) && pending == old(pending) && taken == old(taken)
    {
      if |buffered| >= length {
        result := Ready(buffered[..length]);
        buffered := buffered[length..];
        taken := taken + result.bytes;
        // a pending read keeps waiting: it needed more than was buffered before
        return;
      }
      if failed || pending.Some? {
        return Rejected;
      }
      pending := Some(length);
      result := Waiting;
    }

    /** Gives back the bytes nobody read: with them, the bytes taken are the whole stream. */
    method Release() returns (rest: Bytes)
      requires Valid()
      modifies this
      ensures arrived == old(arrived) && old(taken) + rest == arrived
      ensures buffered == []
    {
      rest := buffered;
      buffered := [];
      taken := taken + rest;
      pending := None;
    }
  }

  // ---------- messages ----------

  const VERSION: byte := 5

  /** The length of the greeting that starts a stream: version, count, methods. */
  predicate IsGreeting(g: Bytes) {
    |g| >= 2 && |g| == 2 + g[1] as int
  }

  // The length of a request or reply: header of four, address by type, port of two.
  predicate IsMessage(m: Bytes) {
    |m| >= 5 &&
    (match m[3]
     case 1 => |m| == 4 + 4 + 2
     case 3 => |m| == 4 + 1 + m[4] as int + 2
     case 4 => |m| == 4 + 16 + 2
     case _ => false)
  }

  /** No message is a proper prefix of another, so a stream cuts in one way only. */
  lemma MessagePrefix(a: Bytes, x: Bytes, b: Bytes, y: Bytes)
    requires a + x == b + y
    ensures IsMessage(a) && IsMessage(b) ==> a == b && x == y
    ensures IsGreeting(a) && IsGreeting(b) ==> a == b && x == y
  {
    var s := a + x;
    assert forall i :: 0 <= i < |a| ==> s[i] == a[i];
    assert forall i :: 0 <= i < |b| ==> s[i] == b[i];
    if |a| == |b| {
      assert a == s[..|a|] == b && x == s[|a|..] == y;
    }
  }

  function FailureReply(code: byte): Bytes {
    [5, code, 0, 1, 0, 0, 0, 0, 0, 0]
  }

  datatype Credentials = Credentials(username: Bytes, password: Bytes)

  predicate ValidCredentials(c: Credentials) {
    1 <= |c.username| <= 255 && 1 <= |c.password| <= 255
  }

  // Section 2 of RFC 1929.
  function AuthRequest(c: Credentials): Bytes
    requires ValidCredentials(c)
  {
    [1, |c.username|] + c.username + [|c.password|] + c.password
  }

  // ---------- the relay ----------

  // Where the relay waits; `head` is what it has read of the current message.
  datatype Phase =
    | Greeting | Methods(head: Bytes)
    | RequestHead | RequestLength(head: Bytes) | RequestAddress(head: Bytes, n: nat) | RequestPort(head: Bytes)
    | Dialling
    | MethodChoice | AuthAnswer
    | ReplyHead | ReplyLength(head: Bytes) | ReplyAddress(head: Bytes, n: nat) | ReplyPort(head: Bytes)
    | Relaying | Closed

  // Everything that arrived and was written, what is buffered, and the parts already recognised.
  datatype Relay = Relay(
    phase: Phase,
    clientIn: Bytes, clientBuffer: Bytes, clientOut: Bytes,
    upstreamIn: Bytes, upstreamBuffer: Bytes, upstreamOut: Bytes,
    greeting: Bytes, request: Bytes, login: Bytes, authenticated: bool, reply: Bytes)

  const START := Relay(Greeting, [], [], [], [], [], [], [], [], [], false, [])

  datatype Input =
    | ClientData(chunk: Bytes)
    | UpstreamData(chunk: Bytes)
    | Connected
    | Resume                     // the awaited bytes are there: the relay goes on
    | Broken(clientGone: bool)   // an end, an error or a timeout

  predicate FromClient(p: Phase) {
    p.Greeting? || p.Methods? || p.RequestHead? || p.RequestLength? || p.RequestAddress? || p.RequestPort?
  }

  predicate FromUpstream(p: Phase) {
    p.MethodChoice? || p.AuthAnswer? || p.ReplyHead? || p.ReplyLength? || p.ReplyAddress? || p.ReplyPort?
  }

  /** How many bytes the awaited read asks for. */
  function Need(p: Phase): nat {
    match p
    case Greeting => 2
    case Methods(head) => if |head| == 2 then head[1] else 0
    case RequestHead => 4
    case RequestLength(_) => 1
    case RequestAddress(_, n) => n
    case RequestPort(_) => 2
    case MethodChoice => 2
    case AuthAnswer => 2
    case ReplyHead => 4
    case ReplyLength(_) => 1
    case ReplyAddress(_, n) => n
    case ReplyPort(_) => 2
    case _ => 0
  }

  // Ends the connection after an answer to the client.
  function Refuse(r: Relay, answer: Bytes): Relay {
    r.(phase := Closed, clientOut := r.clientOut + answer)
  }

  // readSocksAddress: the next phase by address type, or None for an unsupported one.
  function AddressPhase(head: Bytes, request: bool): Option<Phase>
    requires |head| == 4
  {
    match head[3]
    case 1 => Some(if request then RequestAddress(head, 4) else ReplyAddress(head, 4))
    case 4 => Some(if request then RequestAddress(head, 16) else ReplyAddress(head, 16))
    case 3 => Some(if request then RequestLength(head) else ReplyLength(head))
    case _ => None
  }

  function WithPhase(r: Relay, p: Option<Phase>): Relay {
    if p.None? then Refuse(r, FailureReply(1)) else r.(phase := p.value)
  }

  // The client's bytes `b` were read; `r` has them removed from its buffer.
  function AfterClientRead(r: Relay, b: Bytes): Relay
    requires FromClient(r.phase) && |b| == Need(r.phase)
  {
    match r.phase
    case Greeting => r.(phase := Methods(b))
    case Methods(head) =>
      if |head| != 2 || head[0] != VERSION || 0 !in b then Refuse(r, [5, 255])
      else r.(phase := RequestHead, clientOut := r.clientOut + [5, 0], greeting := head + b)
    case RequestHead =>
      if b[0] != VERSION || b[1] != 1 then Refuse(r, FailureReply(7)) else WithPhase(r, AddressPhase(b, true))
    case RequestLength(head) => r.(phase := RequestAddress(head + b, b[0]))
    case RequestAddress(head, _) => r.(phase := RequestPort(head + b))
    case RequestPort(head) => r.(phase := Dialling, request := head + b)
  }

  // The upstream's bytes `b` were read.
  function AfterUpstreamRead(r: Relay, c: Credentials, b: Bytes): Relay
    requires FromUpstream(r.phase) && |b| == Need(r.phase) && ValidCredentials(c)
  {
    match r.phase
    case MethodChoice =>
      if b[0] != VERSION || (b[1] != 0 && b[1] != 2) then Refuse(r, FailureReply(1))
      else if b[1] == 2 then r.(phase := AuthAnswer, login := b, authenticated := true, upstreamOut := r.upstreamOut
          + AuthRequest(c))
      else r.(phase := ReplyHead, login := b, upstreamOut := r.upstreamOut + r.request)
    case AuthAnswer =>
      if b[0] != 1 || b[1] != 0 then Refuse(r, FailureReply(1))
      else r.(phase := ReplyHead, login := r.login + b, upstreamOut := r.upstreamOut + r.request)
    case ReplyHead =>
      if b[0] != VERSION then Refuse(r, FailureReply(1)) else WithPhase(r, AddressPhase(b, false))
    case ReplyLength(head) => r.(phase := ReplyAddress(head + b, b[0]))
    case ReplyAddress(head, _) => r.(phase := ReplyPort(head + b))
    case ReplyPort(head) => Join(r, head + b)
  }

  // The reply goes to the client; on success both remainders are released and the sockets joined.
  function Join(r: Relay, reply: Bytes): Relay
    requires |reply| >= 2
  {
    if reply[1] != 0 then r.(phase := Closed, clientOut := r.clientOut + reply)
    else r.(phase := Relaying, reply := reply,
            clientOut := r.clientOut + reply + r.upstreamBuffer, upstreamOut := r.upstreamOut + r.clientBuffer,
            clientBuffer := [], upstreamBuffer := [])
  }

  predicate UpstreamOpen(p: Phase) {
    FromUpstream(p) || p.Relaying?
  }

  function Step(r: Relay, c: Credentials, input: Input): Relay
    requires ValidCredentials(c)
  {
    match input
    case ClientData(chunk) =>
      if r.phase.Closed? then r
      else if r.phase.Relaying? then r.(clientIn := r.clientIn + chunk, upstreamOut := r.upstreamOut + chunk)
      else r.(clientIn := r.clientIn + chunk, clientBuffer := r.clientBuffer + chunk)
    case UpstreamData(chunk) =>
      if !UpstreamOpen(r.phase) then r
      else if r.phase.Relaying? then r.(upstreamIn := r.upstreamIn + chunk, clientOut := r.clientOut + chunk)
      else r.(upstreamIn := r.upstreamIn + chunk, upstreamBuffer := r.upstreamBuffer + chunk)
    case Connected =>
      if r.phase.Dialling? then r.(phase := MethodChoice, upstreamOut := r.upstreamOut + [5, 2, 2, 0]) else r
    case Resume =>
      var n := Need(r.phase);
      if FromClient(r.phase) && n <= |r.clientBuffer| then
        AfterClientRead(r.(clientBuffer := r.clientBuffer[n..]), r.clientBuffer[..n])
      else if FromUpstream(r.phase) && n <= |r.upstreamBuffer| then
        AfterUpstreamRead(r.(upstreamBuffer := r.upstreamBuffer[n..]), c, r.upstreamBuffer[..n])
      else r
    case Broken(clientGone) =>
      if r.phase.Closed? then r
      else if clientGone || r.phase.Relaying? then r.(phase := Closed)
      else Refuse(r, FailureReply(1))
  }

  function Run(r: Relay, c: Credentials, inputs: seq<Input>): Relay
    requires ValidCredentials(c)
  {
    if inputs == [] then r else Step(Run(r, c, inputs[..|inputs| - 1]), c, inputs[|inputs| - 1])
  }

  // ---------- what every step keeps ----------

  // The client's message part read so far.
  function ClientHead(p: Phase): Bytes {
    match p
    case Methods(head) => head
    case RequestLength(head) => head
    case RequestAddress(head, _) => head
    case RequestPort(head) => head
    case _ => []
  }

  function UpstreamHead(p: Phase): Bytes {
    match p
    case ReplyLength(head) => head
    case ReplyAddress(head, _) => head
    case ReplyPort(head) => head
    case _ => []
  }

  // A message whose port is still missing.
  predicate LacksPort(head: Bytes) {
    |head| >= 4 && (head[3] == 1 ==> |head| == 8) && (head[3] == 4 ==> |head| == 20)
    && (head[3] == 3 ==> |head| >= 5 && |head| == 5 + head[4] as int) && (head[3] == 1 || head[3] == 3 || head[3] == 4)
  }

  // A message head that still needs n address bytes.
  predicate LacksAddress(head: Bytes, n: nat) {
    |head| >= 4 && (head[3] == 1 ==> |head| == 4 && n == 4) && (head[3] == 4 ==> |head| == 4 && n == 16)
    && (head[3] == 3 ==> |head| == 5 && n == head[4] as int) && (head[3] == 1 || head[3] == 3 || head[3] == 4)
  }

  predicate GoodHead(p: Phase) {
    match p
    case Methods(head) => |head| == 2
    case RequestLength(head) => |head| == 4 && head[3] == 3 && head[0] == VERSION && head[1] == 1
    case RequestAddress(head, n) => LacksAddress(head, n) && head[0] == VERSION && head[1] == 1
    case RequestPort(head) => LacksPort(head) && head[0] == VERSION && head[1] == 1
    case ReplyLength(head) => |head| == 4 && head[3] == 3 && head[0] == VERSION
    case ReplyAddress(head, n) => LacksAddress(head, n) && head[0] == VERSION
    case ReplyPort(head) => LacksPort(head) && head[0] == VERSION
    case _ => true
  }

  predicate GoodRequest(q: Bytes) {
    IsMessage(q) && q[0] == VERSION && q[1] == 1
  }

  // Past the greeting, past the request, past the choice of a method, past the whole login.
  predicate Greeted(p: Phase) {
    !p.Greeting? && !p.Methods? && !p.Closed?
  }

  predicate Requested(p: Phase) {
    p.Dialling? || UpstreamOpen(p)
  }

  predicate LoggedIn(p: Phase) {
    p.ReplyHead? || p.ReplyLength? || p.ReplyAddress? || p.ReplyPort? || p.Relaying?
  }

  function Login(c: Credentials, authenticated: bool): Bytes
    requires ValidCredentials(c)
  {
    [5, 2, 2, 0] + if authenticated then AuthRequest(c) else []
  }

  // The parts already recognised are well formed.
  predicate Shape(r: Relay) {
    var p := r.phase;
    && GoodHead(p)
    && (if Greeted(p) then IsGreeting(r.greeting) && r.greeting[0] == VERSION && 0 in r.greeting[2..]
       else r.greeting == [])
    && (if Requested(p) then GoodRequest(r.request) else r.request == [])
    && (if p.Relaying? then GoodReply(r.reply) && r.clientBuffer == [] && r.upstreamBuffer == [] else r.reply == [])
    && LoginShape(r)
  }

  ghost predicate Inv(r: Relay, c: Credentials)
    requires ValidCredentials(c)
  {
    r.phase.Closed? || (Shape(r) && ClientSide(r, c) && UpstreamSide(r))
  }

  predicate GoodReply(m: Bytes) {
    IsMessage(m) && m[0] == VERSION && m[1] == 0
  }

  // The login bytes of the upstream: a choice, and an answer when it chose authentication.
  predicate LoginShape(r: Relay) {
    var p := r.phase;
    && (if LoggedIn(p) then r.login == if r.authenticated then [5, 2, 1, 0] else [5, 0]
        else if p.AuthAnswer? then r.login == [5, 2] && r.authenticated
        else r.login == [] && !r.authenticated)
  }

  // What came from the client, and what went to the upstream.
  ghost predicate ClientSide(r: Relay, c: Credentials)
    requires ValidCredentials(c)
  {
    var p := r.phase;
    if p.Relaying? then
      exists rest: Bytes :: r.clientIn == r.greeting + r.request + rest
          && r.upstreamOut == Login(c, r.authenticated) + r.request + rest
    else
      && r.clientIn == r.greeting + r.request + ClientHead(p) + r.clientBuffer
      && r.upstreamOut == (if p.MethodChoice? then [5, 2, 2, 0]
                           else if p.AuthAnswer? then Login(c, true)
                           else if LoggedIn(p) then Login(c, r.authenticated) + r.request
                           else [])
  }

  // What came from the upstream, and what went to the client.
  ghost predicate UpstreamSide(r: Relay) {
    var p := r.phase;
    if p.Relaying? then
      exists rest: Bytes :: r.upstreamIn == r.login + r.reply + rest && r.clientOut == [5, 0] + r.reply + rest
    else
      && r.upstreamIn == r.login + UpstreamHead(p) + r.upstreamBuffer
      && r.clientOut == if Greeted(p) then [5, 0] else []
  }

  lemma StartInv(c: Credentials)
    requires ValidCredentials(c)
    ensures Inv(START, c)
  {}

  lemma DataKeepsInv(r: Relay, c: Credentials, input: Input)
    requires ValidCredentials(c) && Inv(r, c) && (input.ClientData? || input.UpstreamData?)
    ensures Inv(Step(r, c, input), c)
  {
    hide GoodHead, IsGreeting, GoodRequest, GoodReply, Login, ClientHead, UpstreamHead;
    if !r.phase.Closed? {
      if input.ClientData? {
        ClientDataSide(r, c, input.chunk);
      } else {
        UpstreamDataSide(r, c, input.chunk);
      }
    }
  }

  lemma ClientDataSide(r: Relay, c: Credentials, chunk: Bytes)
    requires ValidCredentials(c) && !r.phase.Closed? && ClientSide(r, c)
    ensures ClientSide(Step(r, c, ClientData(chunk)), c)
  {
    hide Login, ClientHead;
    var next := Step(r, c, ClientData(chunk));
    if r.phase.Relaying? {
      var rest :| r.clientIn == r.greeting + r.request + rest
          && r.upstreamOut == Login(c, r.authenticated) + r.request + rest;
      assert next.clientIn == r.greeting + r.request + (rest + chunk);
      assert next.upstreamOut == Login(c, r.authenticated) + r.request + (rest + chunk);
    } else {
      assert next.clientIn == r.greeting + r.request + ClientHead(r.phase) + (r.clientBuffer + chunk);
    }
  }

  lemma UpstreamDataSide(r: Relay, c: Credentials, chunk: Bytes)
    requires ValidCredentials(c) && !r.phase.Closed? && UpstreamSide(r)
    ensures UpstreamSide(Step(r, c, UpstreamData(chunk)))
  {
    hide UpstreamHead;
    var next := Step(r, c, UpstreamData(chunk));
    if r.phase.Relaying? {
      var rest :| r.upstreamIn == r.login + r.reply + rest && r.clientOut == [5, 0] + r.reply + rest;
      assert next.upstreamIn == r.login + r.reply + (rest + chunk);
      assert next.clientOut == [5, 0] + r.reply + (rest + chunk);
    } else if UpstreamOpen(r.phase) {
      assert next.upstreamIn == r.login + UpstreamHead(r.phase) + (r.upstreamBuffer + chunk);
    }
  }

  lemma HeadGrows(g: Bytes, q: Bytes, head: Bytes, b: Bytes, rest: Bytes)
    ensures g + q + head + (b + rest) == g + q + (head + b) + rest
    ensures g == [] && q == [] ==> g + q + head + (b + rest) == (head + b) + rest
    ensures q == [] ==> g + q + head + (b + rest) == g + (head + b) + rest
    ensures g + q + [] + (b + rest) == g + q + b + rest
  {}

  lemma ClientReadShape(r: Relay, c: Credentials)
    requires ValidCredentials(c) && Shape(r) && FromClient(r.phase) && Need(r.phase) <= |r.clientBuffer|
    ensures var next := Step(r, c, Resume); next.phase.Closed? || Shape(next)
  {
    var b := r.clientBuffer[..Need(r.phase)];
    match r.phase
    case Methods(head) => assert (head + b)[2..] == b;
    case _ =>
  }

  // Reading moves bytes from the buffer to the head of the message, or closes a part.
  lemma ClientReadStream(r: Relay, next: Relay, b: Bytes, rest: Bytes)
    requires FromClient(r.phase) && |b| == Need(r.phase) && GoodHead(r.phase)
    requires !Greeted(r.phase) ==> r.greeting == []
    requires r.request == []
    requires next == AfterClientRead(r.(clientBuffer := rest), b) && !next.phase.Closed?
    ensures next.greeting + next.request + ClientHead(next.phase) + next.clientBuffer
         == r.greeting + r.request + ClientHead(r.phase) + (b + rest)
    ensures next.upstreamOut == r.upstreamOut && next.clientIn == r.clientIn && !UpstreamOpen(next.phase)
  {
    hide GoodHead, ValidCredentials;
    HeadGrows(r.greeting, r.request, ClientHead(r.phase), b, rest);
    match r.phase
    case Greeting => assert next.greeting + next.request == [];
    case Methods(head) => assert next.greeting + next.request + ClientHead(next.phase) == head + b;
    case RequestHead => assert ClientHead(next.phase) == b;
    case RequestPort(head) => assert next.greeting + next.request + ClientHead(next.phase) == r.greeting + (head + b);
    case _ =>
  }

  lemma ClientPhase(p: Phase)
    requires FromClient(p)
    ensures !p.Relaying? && !p.MethodChoice? && !p.AuthAnswer? && !LoggedIn(p)
  {}

  lemma ClientReadClientSide(r: Relay, c: Credentials)
    requires ValidCredentials(c) && Shape(r) && ClientSide(r, c) && FromClient(r.phase)
             && Need(r.phase) <= |r.clientBuffer|
    ensures var next := Step(r, c, Resume); next.phase.Closed? || ClientSide(next, c)
  {
    var n := Need(r.phase);
    var b, rest := r.clientBuffer[..n], r.clientBuffer[n..];
    var next := Step(r, c, Resume);
    assert next == AfterClientRead(r.(clientBuffer := rest), b);
    assert r.clientBuffer == b + rest;
    assert GoodHead(r.phase) && (!Greeted(r.phase) ==> r.greeting == []) && r.request == [];
    ClientPhase(r.phase);
    hide Shape, Step, FromClient, Greeted, LoggedIn, Login, GoodHead, AfterClientRead, ClientHead, Need,
         ValidCredentials;
    if !next.phase.Closed? {
      ClientReadStream(r, next, b, rest);
    }
  }

  lemma ClientReadUpstreamSide(r: Relay, c: Credentials)
    requires ValidCredentials(c) && Shape(r) && UpstreamSide(r) && FromClient(r.phase)
             && Need(r.phase) <= |r.clientBuffer|
    ensures var next := Step(r, c, Resume); next.phase.Closed? || UpstreamSide(next)
  {
    var n := Need(r.phase);
    var next := AfterClientRead(r.(clientBuffer := r.clientBuffer[n..]), r.clientBuffer[..n]);
    assert Step(r, c, Resume) == next;
    hide Step, IsGreeting, GoodRequest, GoodReply, Need, LoginShape;
    ClientReadAnswer(r.(clientBuffer := r.clientBuffer[n..]), r.clientBuffer[..n]);
  }

  // Reading from the client adds nothing to the upstream's side but the acceptance of a greeting.
  lemma ClientReadAnswer(r: Relay, b: Bytes)
    requires FromClient(r.phase) && |b| == Need(r.phase) && GoodHead(r.phase)
    ensures var next := AfterClientRead(r, b);
            next.phase.Closed?
            || (next.upstreamIn == r.upstreamIn && next.upstreamBuffer == r.upstreamBuffer && next.login == r.login
               && next.reply == r.reply
                && next.clientOut == (if r.phase.Methods? then r.clientOut + [5, 0] else r.clientOut)
                && (Greeted(next.phase) <==> Greeted(r.phase) || r.phase.Methods?)
                && UpstreamHead(next.phase) == UpstreamHead(r.phase) == [] && !next.phase.Relaying?)
  {}

  // A reply head grows by the bytes read until the reply is whole.
  lemma ReplyGrows(p: Phase, b: Bytes)
    requires FromUpstream(p) && GoodHead(p) && |b| == Need(p)
    ensures p.ReplyLength? ==> LacksAddress(p.head + b, b[0]) && (p.head + b)[0] == VERSION
    ensures p.ReplyAddress? ==> LacksPort(p.head + b) && (p.head + b)[0] == VERSION
    ensures p.ReplyPort? ==> IsMessage(p.head + b) && (p.head + b)[0] == VERSION
  {}

  lemma UpstreamReadShape(r: Relay, c: Credentials, b: Bytes)
    requires ValidCredentials(c) && Shape(r) && FromUpstream(r.phase) && |b| == Need(r.phase)
    ensures var next := AfterUpstreamRead(r, c, b); next.phase.Closed? || Shape(next)
  {
    ReplyGrows(r.phase, b);
    hide IsGreeting, IsMessage, AuthRequest, LacksAddress, LacksPort;
    match r.phase
    case MethodChoice =>
    case AuthAnswer =>
    case ReplyHead =>
      HeadOnly(b);
    case ReplyLength(_) =>
    case ReplyAddress(_, _) =>
    case ReplyPort(_) =>
  }

  lemma HeadOnly(b: Bytes)
    requires |b| == 4
    ensures b[3] == 1 ==> LacksAddress(b, 4)
    ensures b[3] == 4 ==> LacksAddress(b, 16)
  {}

  lemma UpstreamReadStream(r: Relay, c: Credentials, next: Relay, b: Bytes, rest: Bytes)
    requires ValidCredentials(c) && FromUpstream(r.phase) && |b| == Need(r.phase) && GoodHead(r.phase)
    requires r.login == if LoggedIn(r.phase) || r.phase.AuthAnswer? then r.login else []
    requires next == AfterUpstreamRead(r.(upstreamBuffer := rest), c, b) && !next.phase.Closed? && !next.phase.Relaying?
    ensures next.login + UpstreamHead(next.phase) + next.upstreamBuffer == r.login + UpstreamHead(r.phase) + (b + rest)
    ensures next.clientOut == r.clientOut && next.upstreamIn == r.upstreamIn && Greeted(next.phase)
  {
    hide GoodHead, ValidCredentials, AuthRequest, Need, FromUpstream;
    UpstreamReadHead(r, c, b, rest);
    StreamGrows(r.login, UpstreamHead(r.phase), b, rest, next.login, UpstreamHead(next.phase));
    hide UpstreamHead;
  }

  lemma UpstreamReadHead(r: Relay, c: Credentials, b: Bytes, rest: Bytes)
    requires ValidCredentials(c) && FromUpstream(r.phase) && |b| == Need(r.phase)
    requires r.login == if LoggedIn(r.phase) || r.phase.AuthAnswer? then r.login else []
    ensures var next := AfterUpstreamRead(r.(upstreamBuffer := rest), c, b);
            !next.phase.Closed? && !next.phase.Relaying? ==>
              next.login + UpstreamHead(next.phase) == r.login + (UpstreamHead(r.phase) + b)
  {
    hide ValidCredentials, AuthRequest;
  }

  lemma StreamGrows(login: Bytes, head: Bytes, b: Bytes, rest: Bytes, nextLogin: Bytes, nextHead: Bytes)
    requires nextLogin + nextHead == login + (head + b)
    ensures nextLogin + nextHead + rest == login + head + (b + rest)
  {
    assert login + (head + b) + rest == login + head + (b + rest);
  }

  lemma JoinSides(r: Relay, c: Credentials, next: Relay, b: Bytes, rest: Bytes)
    requires ValidCredentials(c) && r.phase.ReplyPort? && |b| == 2 && GoodHead(r.phase)
    requires ClientSide(r, c)
    requires r.upstreamIn == r.login + UpstreamHead(r.phase) + (b + rest) && r.clientOut == [5, 0]
    requires next == AfterUpstreamRead(r.(upstreamBuffer := rest), c, b) && next.phase.Relaying?
    ensures ClientSide(next, c) && UpstreamSide(next)
  {
    hide Login, AfterUpstreamRead, GoodHead, Need, UpstreamHead, ClientSide, UpstreamSide, Join, ValidCredentials;
    ReplyJoins(r.(upstreamBuffer := rest), c, b);
    Joined(r, c, next, UpstreamHead(r.phase) + b, rest);
    Regrouped(r.login, UpstreamHead(r.phase), b, rest);
  }

  lemma ReplyJoins(r: Relay, c: Credentials, b: Bytes)
    requires ValidCredentials(c) && r.phase.ReplyPort? && |b| == 2
    ensures AfterUpstreamRead(r, c, b) == Join(r, UpstreamHead(r.phase) + b)
  {}

  lemma Regrouped(login: Bytes, head: Bytes, b: Bytes, rest: Bytes)
    ensures login + head + (b + rest) == login + (head + b) + rest
  {}

  lemma Joined(r: Relay, c: Credentials, next: Relay, reply: Bytes, rest: Bytes)
    requires ValidCredentials(c) && r.phase.ReplyPort? && |reply| >= 2
    requires ClientSide(r, c)
    requires next == Join(r.(upstreamBuffer := rest), reply) && next.phase.Relaying?
    ensures ClientSide(next, c)
    ensures r.clientOut == [5, 0] && r.upstreamIn == r.login + reply + rest ==> UpstreamSide(next)
  {
    hide Login;
    assert r.clientIn == r.greeting + r.request + [] + r.clientBuffer;
    assert next.clientIn == next.greeting + next.request + r.clientBuffer;
    assert next.upstreamOut == Login(c, next.authenticated) + next.request + r.clientBuffer;
    assert next.clientOut == r.clientOut + reply + rest;
  }

  lemma UpstreamReadClientSide(r: Relay, c: Credentials, next: Relay, b: Bytes, rest: Bytes)
    requires ValidCredentials(c) && FromUpstream(r.phase) && |b| == Need(r.phase) && LoginShape(r)
    requires ClientSide(r, c)
    requires next == AfterUpstreamRead(r.(upstreamBuffer := rest), c, b) && !next.phase.Closed? && !next.phase.Relaying?
    ensures ClientSide(next, c)
  {
    hide AuthRequest;
    match r.phase
    case MethodChoice =>
      assert Login(c, true) == [5, 2, 2, 0] + AuthRequest(c);
      assert Login(c, false) + r.request == [5, 2, 2, 0] + r.request;
    case _ =>
  }

  lemma UpstreamReadSides(r: Relay, c: Credentials, b: Bytes, rest: Bytes)
    requires ValidCredentials(c) && Inv(r, c) && FromUpstream(r.phase) && |b| == Need(r.phase)
             && r.upstreamBuffer == b + rest
    ensures var next := AfterUpstreamRead(r.(upstreamBuffer := rest), c, b);
            next.phase.Closed? || (ClientSide(next, c) && UpstreamSide(next))
  {
    var next := AfterUpstreamRead(r.(upstreamBuffer := rest), c, b);
    assert GoodHead(r.phase) && LoginShape(r);
    assert next.phase.Relaying? ==> r.phase.ReplyPort? && |b| == 2;
    hide IsGreeting, GoodRequest, GoodReply, Login, GoodHead, AfterUpstreamRead, UpstreamHead, ClientHead, Need,
        ClientSide, Shape;
    if next.phase.Relaying? {
      JoinSides(r, c, next, b, rest);
    } else if !next.phase.Closed? {
      UpstreamReadStream(r, c, next, b, rest);
      UpstreamReadClientSide(r, c, next, b, rest);
    }
  }

  lemma UpstreamReadKeepsInv(r: Relay, c: Credentials)
    requires ValidCredentials(c) && Inv(r, c) && FromUpstream(r.phase) && Need(r.phase) <= |r.upstreamBuffer|
    ensures Inv(Step(r, c, Resume), c)
  {
    hide GoodHead, IsGreeting, GoodRequest, GoodReply, Login, AfterUpstreamRead, UpstreamHead, ClientHead, Need,
        ClientSide, UpstreamSide;
    var n := Need(r.phase);
    var b, rest := r.upstreamBuffer[..n], r.upstreamBuffer[n..];
    UpstreamReadShape(r.(upstreamBuffer := rest), c, b);
    assert r.upstreamBuffer == b + rest;
    UpstreamReadSides(r, c, b, rest);
  }

  lemma ClientReadKeepsInv(r: Relay, c: Credentials)
    requires ValidCredentials(c) && Inv(r, c) && FromClient(r.phase) && Need(r.phase) <= |r.clientBuffer|
    ensures Inv(Step(r, c, Resume), c)
  {
    hide Shape, ClientSide, UpstreamSide, Step, Need;
    ClientReadShape(r, c);
    ClientReadClientSide(r, c);
    ClientReadUpstreamSide(r, c);
  }

  lemma StepKeepsInv(r: Relay, c: Credentials, input: Input)
    requires ValidCredentials(c) && Inv(r, c)
    ensures Inv(Step(r, c, input), c)
  {
    match input
    case ClientData(_) => DataKeepsInv(r, c, input);
    case UpstreamData(_) => DataKeepsInv(r, c, input);
    case Resume =>
      if FromClient(r.phase) && Need(r.phase) <= |r.clientBuffer| {
        ClientReadKeepsInv(r, c);
      } else if FromUpstream(r.phase) && Need(r.phase) <= |r.upstreamBuffer| {
        UpstreamReadKeepsInv(r, c);
      }
    case Connected =>
      if r.phase.Dialling? {
        assert Login(c, false) == [5, 2, 2, 0];
      }
    case Broken(_) =>
  }

  lemma {:induction false} RunKeepsInv(c: Credentials, inputs: seq<Input>)
    requires ValidCredentials(c)
    ensures Inv(Run(START, c, inputs), c)
  {
    hide Inv, Step;
    if inputs == [] {
      StartInv(c);
    } else {
      RunKeepsInv(c, inputs[..|inputs| - 1]);
      StepKeepsInv(Run(START, c, inputs[..|inputs| - 1]), c, inputs[|inputs| - 1]);
    }
  }

  /**
   Transparency.  However both streams are cut into chunks and interleaved, once the bridge
   relays, the upstream has been sent the login, the client's request verbatim, and every
   later byte of the client; and the client has been sent the acceptance of its greeting, the
   upstream's successful reply verbatim, and every later byte of the upstream.
   */
  lemma Transparent(c: Credentials, inputs: seq<Input>) returns (clientRest: Bytes, upstreamRest: Bytes)
    requires ValidCredentials(c) && Run(START, c, inputs).phase.Relaying?
    ensures var r := Run(START, c, inputs);
            && IsGreeting(r.greeting) && 0 in r.greeting[2..] && GoodRequest(r.request) && GoodReply(r.reply)
            && r.login == (if r.authenticated then [5, 2, 1, 0] else [5, 0])
            && r.clientIn == r.greeting + r.request + clientRest
            && r.upstreamOut == Login(c, r.authenticated) + r.request + clientRest
            && r.upstreamIn == r.login + r.reply + upstreamRest
            && r.clientOut == [5, 0] + r.reply + upstreamRest
  {
    RunKeepsInv(c, inputs);
    var r := Run(START, c, inputs);
    clientRest :| r.clientIn == r.greeting + r.request + clientRest
        && r.upstreamOut == Login(c, r.authenticated) + r.request + clientRest;
    upstreamRest :| r.upstreamIn == r.login + r.reply + upstreamRest && r.clientOut == [5, 0] + r.reply + upstreamRest;
  }

  /** What is written depends on the two byte streams alone, not on how they were chunked or interleaved. */
  lemma {:induction false} ChunkingIrrelevant(c: Credentials, a: seq<Input>, b: seq<Input>)
    requires ValidCredentials(c)
    requires Run(START, c, a).phase.Relaying? && Run(START, c, b).phase.Relaying?
    requires Run(START, c, a).clientIn == Run(START, c, b).clientIn
             && Run(START, c, a).upstreamIn == Run(START, c, b).upstreamIn
    ensures Run(START, c, a).upstreamOut == Run(START, c, b).upstreamOut
    ensures Run(START, c, a).clientOut == Run(START, c, b).clientOut
  {
    var x, y := Transparent(c, a);
    var z, w := Transparent(c, b);
    var r, s := Run(START, c, a), Run(START, c, b);
    hide *;
    ClientCut(r, s, x, z);
    UpstreamCut(r, s, y, w);
  }

  lemma ClientCut(r: Relay, s: Relay, x: Bytes, z: Bytes)
    requires IsGreeting(r.greeting) && GoodRequest(r.request) && IsGreeting(s.greeting) && GoodRequest(s.request)
    requires r.greeting + r.request + x == s.greeting + s.request + z
    ensures r.request == s.request && x == z
  {
    assert r.greeting + r.request + x == r.greeting + (r.request + x);
    assert s.greeting + s.request + z == s.greeting + (s.request + z);
    MessagePrefix(r.greeting, r.request + x, s.greeting, s.request + z);
    MessagePrefix(r.request, x, s.request, z);
  }

  lemma UpstreamCut(r: Relay, s: Relay, y: Bytes, w: Bytes)
    requires r.login == (if r.authenticated then [5, 2, 1, 0] else [5, 0]) && GoodReply(r.reply)
    requires s.login == (if s.authenticated then [5, 2, 1, 0] else [5, 0]) && GoodReply(s.reply)
    requires r.login + r.reply + y == s.login + s.reply + w
    ensures r.authenticated == s.authenticated && r.reply == s.reply && y == w
  {
    assert r.login + r.reply + y == r.login + (r.reply + y);
    assert s.login + s.reply + w == s.login + (s.reply + w);
    LoginPrefix(r, s, r.reply + y, s.reply + w);
    MessagePrefix(r.reply, y, s.reply, w);
  }

  lemma LoginPrefix(r: Relay, s: Relay, y: Bytes, w: Bytes)
    requires r.login == (if r.authenticated then [5, 2, 1, 0] else [5, 0])
    requires s.login == (if s.authenticated then [5, 2, 1, 0] else [5, 0])
    requires r.login + y == s.login + w
    ensures r.authenticated == s.authenticated && y == w
  {
    var t := r.login + y;
    assert t[1] == r.login[1] && t[1] == s.login[1];
    assert y == t[|r.login|..] && w == t[|s.login|..];
  }
}
