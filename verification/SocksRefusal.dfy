/** How the SOCKS5 bridge ends a handshake that fails: what it answers, by what had arrived. */
module SocksRefusal {
  import opened Text
  import opened Socks

  // Section 6 of RFC 1928: a reply with this code and the address 0.0.0.0:0.
  function Failed(code: byte): Bytes {
    [5, 0, 5, code, 0, 1, 0, 0, 0, 0, 0, 0]
  }

  predicate AddressType(t: byte) {
    t == 1 || t == 3 || t == 4
  }

  // A stream that starts with a whole greeting, and what follows it.
  predicate Greets(s: Bytes) {
    |s| >= 2 && |s| >= 2 + s[1] as int
  }

  function BehindGreeting(s: Bytes): Bytes
    requires Greets(s)
  {
    s[2 + s[1] as int..]
  }

  predicate Welcome(s: Bytes) {
    Greets(s) && s[0] == 5 && 0 in s[2..2 + s[1] as int]
  }

  /** The client's stream is at fault: another version, no method without login, no CONNECT, an unknown address type. */
  predicate ClientRefused(s: Bytes, answer: Bytes) {
    || (Greets(s) && !Welcome(s) && answer == [5, 255])
    || (&& Welcome(s)
        && var t := BehindGreeting(s);
           && |t| >= 4
           && (|| ((t[0] != 5 || t[1] != 1) && answer == Failed(7))
               || (t[0] == 5 && t[1] == 1 && !AddressType(t[3]) && answer == Failed(1))))
  }

  // The bytes of an accepted login.
  predicate LoginDone(login: Bytes) {
    login == [5, 0] || login == [5, 2, 1, 0]
  }

  /** The upstream's stream is at fault, or its reply is a failure, which the client gets verbatim. */
  ghost predicate UpstreamRefused(u: Bytes, answer: Bytes) {
    || (|u| >= 2 && (u[0] != 5 || (u[1] != 0 && u[1] != 2)) && answer == Failed(1))
    || (|u| >= 4 && u[0] == 5 && u[1] == 2 && (u[2] != 1 || u[3] != 0) && answer == Failed(1))
    || (exists login: Bytes, v: Bytes ::
          u == login + v && LoginDone(login) && |v| >= 4 && (v[0] != 5 || !AddressType(v[3])) && answer == Failed(1))
    || (exists login: Bytes, reply: Bytes, rest: Bytes ::
          u == login + reply + rest && LoginDone(login) && IsMessage(reply) && reply[0] == 5 && reply[1] != 0
          && answer == [5, 0] + reply)
  }

  // The client's side while the bridge reads from it.
  lemma ClientFacts(r: Relay, c: Credentials)
    requires ValidCredentials(c) && Inv(r, c) && FromClient(r.phase)
    ensures GoodHead(r.phase) && r.upstreamOut == []
    ensures r.clientIn == r.greeting + ClientHead(r.phase) + r.clientBuffer
    ensures Greeted(r.phase) ==>
              r.clientOut == [5, 0] && Welcome(r.greeting) && |r.greeting| == 2 + r.greeting[1] as int
    ensures !Greeted(r.phase) ==> r.clientOut == [] && r.greeting == []
  {
    hide GoodHead, ClientHead, Login, ValidCredentials, GoodRequest, GoodReply, LoginShape;
    assert r.clientIn == r.greeting + [] + ClientHead(r.phase) + r.clientBuffer;
    if Greeted(r.phase) {
      assert r.greeting[2..2 + r.greeting[1] as int] == r.greeting[2..];
    }
  }

  // The upstream's side while the bridge reads from it.
  lemma UpstreamFacts(r: Relay, c: Credentials)
    requires ValidCredentials(c) && Inv(r, c) && FromUpstream(r.phase)
    ensures GoodHead(r.phase) && LoginShape(r) && r.clientOut == [5, 0]
    ensures r.upstreamIn == r.login + UpstreamHead(r.phase) + r.upstreamBuffer
  {
    hide GoodHead, UpstreamHead, Login, ValidCredentials, GoodRequest, GoodReply, LoginShape, ClientSide;
  }

  lemma BadMethods(head: Bytes, b: Bytes, rest: Bytes)
    requires |head| == 2 && |b| == head[1] as int && (head[0] != VERSION || 0 !in b)
    ensures ClientRefused(head + (b + rest), [5, 255])
  {
    var s := head + (b + rest);
    assert s[2..2 + |b|] == b && s[0] == head[0] && s[1] == head[1];
  }

  lemma BadRequest(g: Bytes, b: Bytes, rest: Bytes)
    requires Welcome(g) && |g| == 2 + g[1] as int && |b| == 4
    ensures b[0] != VERSION || b[1] != 1 ==> ClientRefused(g + (b + rest), Failed(7))
    ensures b[0] == VERSION && b[1] == 1 && !AddressType(b[3]) ==> ClientRefused(g + (b + rest), Failed(1))
  {
    var s := g + (b + rest);
    assert s[0] == g[0] && s[1] == g[1] && s[2..2 + g[1] as int] == g[2..] && BehindGreeting(s) == b + rest;
    assert g[2..2 + g[1] as int] == g[2..];
    assert (b + rest)[0] == b[0] && (b + rest)[1] == b[1] && (b + rest)[3] == b[3];
  }

  lemma Answers(code: byte)
    ensures [5, 0] + FailureReply(code) == Failed(code) && [] + FailureReply(code) == FailureReply(code)
  {}

  lemma ClientRefusal(r: Relay, c: Credentials)
    requires ValidCredentials(c) && Inv(r, c) && FromClient(r.phase) && Need(r.phase) <= |r.clientBuffer|
    requires Step(r, c, Resume).phase.Closed?
    ensures ClientRefused(r.clientIn, Step(r, c, Resume).clientOut) && Step(r, c, Resume).upstreamOut == []
  {
    hide Inv, ClientRefused, Failed, FailureReply, Welcome, ValidCredentials;
    ClientFacts(r, c);
    var n := Need(r.phase);
    var b, rest := r.clientBuffer[..n], r.clientBuffer[n..];
    assert r.clientBuffer == b + rest;
    match r.phase
    case Methods(head) =>
      assert [] + head + (b + rest) == head + (b + rest) && [] + [5, 255] == [5, 255];
      BadMethods(head, b, rest);
    case RequestHead =>
      assert r.greeting + [] + (b + rest) == r.greeting + (b + rest);
      BadRequest(r.greeting, b, rest);
      Answers(7);
      Answers(1);
    case _ =>
  }

  lemma BadReply(login: Bytes, v: Bytes)
    requires LoginDone(login) && |v| >= 4 && (v[0] != 5 || !AddressType(v[3]))
    ensures UpstreamRefused(login + v, Failed(1))
  {}

  lemma FailedReply(login: Bytes, reply: Bytes, rest: Bytes)
    requires LoginDone(login) && IsMessage(reply) && reply[0] == 5 && reply[1] != 0
    ensures UpstreamRefused(login + reply + rest, [5, 0] + reply)
  {}

  lemma BadLogin(b: Bytes, rest: Bytes)
    requires |b| == 2
    ensures b[0] != 5 || (b[1] != 0 && b[1] != 2) ==> UpstreamRefused(b + rest, Failed(1))
    ensures b[0] != 1 || b[1] != 0 ==> UpstreamRefused([5, 2] + (b + rest), Failed(1))
  {
    var u := [5, 2] + (b + rest);
    assert u[2] == b[0] && u[3] == b[1];
  }

  lemma UpstreamRefusal(r: Relay, c: Credentials)
    requires ValidCredentials(c) && Inv(r, c) && FromUpstream(r.phase) && Need(r.phase) <= |r.upstreamBuffer|
    requires Step(r, c, Resume).phase.Closed?
    ensures UpstreamRefused(r.upstreamIn, Step(r, c, Resume).clientOut)
    ensures Step(r, c, Resume).upstreamOut == r.upstreamOut
  {
    hide Inv, UpstreamRefused, ValidCredentials, GoodHead, LoginShape, UpstreamHead, AfterUpstreamRead, Need;
    UpstreamFacts(r, c);
    var n := Need(r.phase);
    var b, rest := r.upstreamBuffer[..n], r.upstreamBuffer[n..];
    assert r.upstreamBuffer == b + rest;
    ReadRefusal(r, c, b, rest);
    assert !FromClient(r.phase);
  }

  lemma ReadRefusal(r: Relay, c: Credentials, b: Bytes, rest: Bytes)
    requires ValidCredentials(c) && FromUpstream(r.phase) && |b| == Need(r.phase)
    requires GoodHead(r.phase) && LoginShape(r) && r.clientOut == [5, 0]
    requires r.upstreamIn == r.login + UpstreamHead(r.phase) + (b + rest)
    requires AfterUpstreamRead(r.(upstreamBuffer := rest), c, b).phase.Closed?
    ensures var next := AfterUpstreamRead(r.(upstreamBuffer := rest), c, b);
            UpstreamRefused(r.upstreamIn, next.clientOut) && next.upstreamOut == r.upstreamOut
  {
    hide UpstreamRefused, Failed, FailureReply, ValidCredentials, AuthRequest, IsMessage, LacksPort, LacksAddress;
    Answers(1);
    match r.phase
    case MethodChoice =>
      assert [] + [] + (b + rest) == b + rest;
      BadLogin(b, rest);
    case AuthAnswer =>
      assert [5, 2] + [] + (b + rest) == [5, 2] + (b + rest);
      BadLogin(b, rest);
    case ReplyHead =>
      assert r.login + [] + (b + rest) == r.login + (b + rest);
      BadReply(r.login, b + rest);
    case ReplyPort(head) =>
      ReplyGrows(r.phase, b);
      assert r.login + head + (b + rest) == r.login + (head + b) + rest;
      FailedReply(r.login, head + b, rest);
    case _ =>
  }

  lemma OpenAnswer(r: Relay, c: Credentials)
    requires ValidCredentials(c) && Inv(r, c) && !r.phase.Closed? && !r.phase.Relaying?
    ensures r.clientOut == if Greeted(r.phase) then [5, 0] else []
  {
    hide GoodHead, Login, ValidCredentials, GoodRequest, GoodReply, LoginShape, ClientSide;
  }

  /**
   A bridge closes for one of three reasons, and the client's answer is fixed by it.  A stream at
   fault, which the awaited read shows: the refusal, with nothing sent to the upstream yet when it
   is the client's.  The client gone, or an end while relaying: no further byte.  Anything else
   that ends the handshake: a general failure.
   */
  lemma {:induction false} Refusals(c: Credentials, inputs: seq<Input>, input: Input)
    requires ValidCredentials(c)
    requires !Run(START, c, inputs).phase.Closed? && Step(Run(START, c, inputs), c, input).phase.Closed?
    ensures var r, next := Run(START, c, inputs), Step(Run(START, c, inputs), c, input);
            match input
            case Resume =>
              || (ClientRefused(r.clientIn, next.clientOut) && next.upstreamOut == [])
              || (UpstreamRefused(r.upstreamIn, next.clientOut) && next.upstreamOut == r.upstreamOut)
            case Broken(clientGone) =>
              && next.upstreamOut == r.upstreamOut
              && (if clientGone || r.phase.Relaying? then next.clientOut == r.clientOut
                  else next.clientOut == (if Greeted(r.phase) then Failed(1) else [5, 1, 0, 1, 0, 0, 0, 0, 0, 0]))
            case _ => false
  {
    RunKeepsInv(c, inputs);
    var r := Run(START, c, inputs);
    hide Inv, ClientRefused, UpstreamRefused, AfterClientRead, AfterUpstreamRead, Need, Failed, Run, ValidCredentials;
    match input
    case Resume =>
      if FromClient(r.phase) && Need(r.phase) <= |r.clientBuffer| {
        ClientRefusal(r, c);
      } else {
        UpstreamRefusal(r, c);
      }
    case Broken(_) =>
      Answers(1);
      if !r.phase.Relaying? {
        OpenAnswer(r, c);
      }
    case _ =>
  }

  /** And nothing follows: a closed bridge writes no more. */
  lemma {:induction false} ClosedStays(r: Relay, c: Credentials, inputs: seq<Input>)
    requires ValidCredentials(c) && r.phase.Closed?
    ensures Run(r, c, inputs) == r
  {
    if inputs != [] {
      ClosedStays(r, c, inputs[..|inputs| - 1]);
    }
  }
}
