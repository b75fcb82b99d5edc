/**
 The relay of Socks never gets stuck: as long as both streams are well formed, every run
 without a failure can be brought to relaying.
 */
module SocksProgress {
  import opened Socks

  // A greeting that offers a method the bridge takes.
  predicate Accepted(g: Bytes) {
    IsGreeting(g) && g[0] == VERSION && 0 in g[2..]
  }

  function LoginBytes(auth: bool): Bytes {
    if auth then [5, 2, 1, 0] else [5, 0]
  }

  // The two whole streams: greeting, request and more; login, successful reply and more.
  datatype Streams = Streams(g: Bytes, q: Bytes, x: Bytes, auth: bool, m: Bytes, y: Bytes)

  predicate Proper(s: Streams) {
    Accepted(s.g) && GoodRequest(s.q) && GoodReply(s.m)
  }

  function Client(s: Streams): Bytes {
    s.g + (s.q + s.x)
  }

  function Upstream(s: Streams): Bytes {
    LoginBytes(s.auth) + (s.m + s.y)
  }

  // The relay has read parts of these streams; `client` and `upstream` are still to come.
  ghost predicate On(r: Relay, c: Credentials, s: Streams, client: Bytes, upstream: Bytes)
    requires ValidCredentials(c)
  {
    Inv(r, c) && !r.phase.Closed? && r.clientIn + client == Client(s) && r.upstreamIn + upstream == Upstream(s)
  }

  // How many reads are left before the connection, and before relaying.
  function ClientReads(p: Phase): nat {
    match p
    case Greeting => 6
    case Methods(_) => 5
    case RequestHead => 4
    case RequestLength(_) => 3
    case RequestAddress(_, _) => 2
    case RequestPort(_) => 1
    case _ => 0
  }

  function UpstreamReads(p: Phase): nat {
    match p
    case MethodChoice => 6
    case AuthAnswer => 5
    case ReplyHead => 4
    case ReplyLength(_) => 3
    case ReplyAddress(_, _) => 2
    case ReplyPort(_) => 1
    case _ => 0
  }

  // ---------- the client's messages ----------

  lemma Slices(a: Bytes, b: Bytes, u: Bytes, v: Bytes)
    requires a + b == u + v && |a| <= |u|
    ensures a == u[..|a|] && b == u[|a|..] + v
  {
    assert a == (a + b)[..|a|] == (u + v)[..|a|];
    assert b == (a + b)[|a|..] == (u + v)[|a|..];
  }

  // What is left of a message of a known kind behind its head.
  lemma MessageLeft(head: Bytes, rest: Bytes, m: Bytes, more: Bytes)
    requires head + rest == m + more && IsMessage(m)
    ensures |head| >= 4 ==> head[3] == m[3] && head[..4] == m[..4]
    ensures |head| == 4 && head[3] == 3 ==> |rest| >= 1
    ensures |head| >= 4 && LacksPort(head) ==> |m| == |head| + 2 && head == m[..|head|]
    ensures |head| == 4 && head[3] != 3 ==> |m| == 4 + (if head[3] == 1 then 4 else 16) + 2
    ensures |head| == 5 && head[3] == 3 ==> |m| == 5 + head[4] as int + 2
  {
    var s := head + rest;
    assert forall i :: 0 <= i < |head| ==> s[i] == head[i];
    assert forall i :: 0 <= i < |m| ==> s[i] == m[i];
  }

  // Past the greeting, what was read behind it belongs to the request.
  lemma GreetingIs(r: Relay, s: Streams, rest: Bytes)
    requires Proper(s) && IsGreeting(r.greeting) && r.greeting + rest == Client(s)
    ensures r.greeting == s.g && rest == s.q + s.x
  {
    MessagePrefix(r.greeting, rest, s.g, s.q + s.x);
  }

  lemma MethodsRead(head: Bytes, b: Bytes, more: Bytes, s: Streams)
    requires Proper(s) && |head| == 2 && |b| == head[1] as int && head + (b + more) == Client(s)
    ensures head[0] == VERSION && 0 in b
  {
    assert |head| <= |s.g|;
    Slices(head, b + more, s.g, s.q + s.x);
    assert |b| == |s.g[2..]|;
    Slices(b, more, s.g[2..], s.q + s.x);
    assert b == s.g[2..];
  }

  lemma RequestHeadRead(b: Bytes, more: Bytes, s: Streams)
    requires Proper(s) && |b| == 4 && b + more == s.q + s.x
    ensures b[0] == VERSION && b[1] == 1 && b[3] in {1, 3, 4}
  {
    Slices(b, more, s.q, s.x);
  }

  // What is unread of the client's stream in each phase.
  lemma Unread(r: Relay, c: Credentials, s: Streams, client: Bytes, upstream: Bytes)
    requires ValidCredentials(c) && Proper(s) && On(r, c, s, client, upstream) && FromClient(r.phase)
    ensures r.phase.Greeting? ==> r.clientBuffer + client == Client(s)
    ensures r.phase.Methods? ==> |r.phase.head| == 2 && r.phase.head + (r.clientBuffer + client) == Client(s)
    ensures r.phase.RequestHead? ==> r.clientBuffer + client == s.q + s.x
    ensures r.phase.RequestLength? || r.phase.RequestAddress? || r.phase.RequestPort? ==>
              GoodHead(r.phase) && ClientHead(r.phase) + (r.clientBuffer + client) == s.q + s.x
  {
    assert r.clientIn + client == Client(s) && Inv(r, c);
    hide On, Inv, Client, Proper, GoodHead, IsGreeting, ValidCredentials, Greeted;
    ClientFacts(r, c);
    var head, more := ClientHead(r.phase), r.clientBuffer + client;
    Regroup(r.greeting, head, r.clientBuffer, client);
    if Greeted(r.phase) {
      GreetingIs(r, s, head + more);
    } else {
      Nothing(head + more);
    }
    Nothing(more);
  }

  lemma Regroup(a: Bytes, b: Bytes, c: Bytes, d: Bytes)
    ensures a + b + c + d == a + (b + (c + d))
  {}

  lemma Nothing(b: Bytes)
    ensures [] + b == b
  {}

  // The account of what the client has sent.
  lemma ClientFacts(r: Relay, c: Credentials)
    requires ValidCredentials(c) && Inv(r, c) && FromClient(r.phase)
    ensures GoodHead(r.phase) && r.clientIn == r.greeting + ClientHead(r.phase) + r.clientBuffer
    ensures r.phase.Methods? ==> |r.phase.head| == 2
    ensures if Greeted(r.phase) then IsGreeting(r.greeting) else r.greeting == []
    ensures Greeted(r.phase) <==> !r.phase.Greeting? && !r.phase.Methods?
  {
    assert r.request == [] && r.greeting + [] == r.greeting;
    assert r.clientIn == r.greeting + r.request + ClientHead(r.phase) + r.clientBuffer;
    hide UpstreamSide, Login, LoginShape;
  }

  // A read of the client's stream never ends the connection, and comes closer to it.
  lemma ClientMoves(r: Relay, c: Credentials, s: Streams, client: Bytes, upstream: Bytes)
    requires ValidCredentials(c) && Proper(s) && On(r, c, s, client, upstream) && FromClient(r.phase)
    requires Need(r.phase) <= |r.clientBuffer|
    ensures var next := Step(r, c, Resume);
            !next.phase.Closed? && ClientReads(next.phase) < ClientReads(r.phase)
            && (FromClient(next.phase) || next.phase.Dialling?)
  {
    hide Inv, On, Client, Proper, IsMessage, ValidCredentials, Step, AfterClientRead, GoodHead, ClientReads, ClientHead;
    Unread(r, c, s, client, upstream);
    var n := Need(r.phase);
    var b, more := r.clientBuffer[..n], r.clientBuffer[n..] + client;
    assert r.clientBuffer + client == b + more;
    ClientStep(r, c);
    if r.phase.Methods? {
      MethodsRead(r.phase.head, b, more, s);
    } else if r.phase.RequestHead? {
      RequestHeadRead(b, more, s);
    }
    ClientReadOpen(r.(clientBuffer := r.clientBuffer[n..]), b);
  }

  lemma ClientStep(r: Relay, c: Credentials)
    requires ValidCredentials(c) && FromClient(r.phase) && Need(r.phase) <= |r.clientBuffer|
    ensures var n := Need(r.phase);
            Step(r, c, Resume) == AfterClientRead(r.(clientBuffer := r.clientBuffer[n..]), r.clientBuffer[..n])
  {
    hide AfterClientRead, Need, ValidCredentials;
  }

  lemma ClientReadOpen(r: Relay, b: Bytes)
    requires FromClient(r.phase) && |b| == Need(r.phase)
    requires r.phase.Methods? ==> |r.phase.head| == 2 && r.phase.head[0] == VERSION && 0 in b
    requires r.phase.RequestHead? ==> b[0] == VERSION && b[1] == 1 && b[3] in {1, 3, 4}
    ensures var next := AfterClientRead(r, b);
            !next.phase.Closed? && ClientReads(next.phase) < ClientReads(r.phase)
            && (FromClient(next.phase) || next.phase.Dialling?)
  {}

  // Once all its bytes are there, the next read of the client's stream is possible.
  lemma ClientReady(r: Relay, c: Credentials, s: Streams, upstream: Bytes)
    requires ValidCredentials(c) && Proper(s) && On(r, c, s, [], upstream) && FromClient(r.phase)
    ensures Need(r.phase) <= |r.clientBuffer|
  {
    Unread(r, c, s, [], upstream);
    assert r.clientBuffer + [] == r.clientBuffer;
    assert IsMessage(s.q) && |s.g| == 2 + s.g[1] as int;
    match r.phase
    case Greeting =>
    case Methods(head) => Slices(head, r.clientBuffer, s.g, s.q + s.x);
    case RequestHead =>
    case _ =>
      hide On, IsMessage;
      MessageLeft(ClientHead(r.phase), r.clientBuffer, s.q, s.x);
  }

  // ---------- the upstream's messages ----------

  lemma LoginIs(login: Bytes, auth: bool, rest: Bytes, s: Streams)
    requires login == LoginBytes(auth) && login + rest == Upstream(s)
    ensures auth == s.auth && rest == s.m + s.y
  {
    var t := login + rest;
    assert t[1] == login[1] && t[1] == LoginBytes(s.auth)[1];
    assert rest == t[|login|..] && s.m + s.y == t[|LoginBytes(s.auth)|..];
  }

  lemma ChoiceRead(b: Bytes, more: Bytes, s: Streams)
    requires |b| == 2 && b + more == Upstream(s)
    ensures b[0] == VERSION && b[1] == if s.auth then 2 else 0
  {
    Slices(b, more, LoginBytes(s.auth), s.m + s.y);
  }

  lemma AnswerRead(b: Bytes, more: Bytes, s: Streams)
    requires |b| == 2 && [5, 2] + (b + more) == Upstream(s)
    ensures b == [1, 0]
  {
    var t := [5, 2] + (b + more);
    assert t[1] == 2 && t[1] == LoginBytes(s.auth)[1];
    assert b[0] == t[2] && b[1] == t[3];
  }

  lemma ReplyHeadRead(b: Bytes, more: Bytes, s: Streams)
    requires Proper(s) && |b| == 4 && b + more == s.m + s.y
    ensures b[0] == VERSION && b[3] in {1, 3, 4}
  {
    Slices(b, more, s.m, s.y);
  }

  lemma ReplyRead(head: Bytes, b: Bytes, more: Bytes, s: Streams)
    requires Proper(s) && |head| >= 4 && LacksPort(head) && |b| == 2 && head + (b + more) == s.m + s.y
    ensures (head + b)[1] == 0
  {
    var t := head + (b + more);
    assert t[1] == head[1] && t[1] == s.m[1];
  }

  lemma UpstreamUnread(r: Relay, c: Credentials, s: Streams, client: Bytes, upstream: Bytes)
    requires ValidCredentials(c) && Proper(s) && On(r, c, s, client, upstream) && FromUpstream(r.phase)
    ensures r.phase.MethodChoice? ==> r.upstreamBuffer + upstream == Upstream(s)
    ensures r.phase.AuthAnswer? ==> [5, 2] + (r.upstreamBuffer + upstream) == Upstream(s)
    ensures r.phase.ReplyHead? ==> r.upstreamBuffer + upstream == s.m + s.y
    ensures r.phase.ReplyLength? || r.phase.ReplyAddress? || r.phase.ReplyPort? ==>
              GoodHead(r.phase) && UpstreamHead(r.phase) + (r.upstreamBuffer + upstream) == s.m + s.y
  {
    UpstreamFacts(r, c);
    assert r.upstreamIn + upstream == Upstream(s);
    hide On, Inv, Upstream, Proper, GoodHead, LoginBytes, ValidCredentials;
    var head, more := UpstreamHead(r.phase), r.upstreamBuffer + upstream;
    Regroup(r.login, head, r.upstreamBuffer, upstream);
    Nothing(head + more);
    Nothing(more);
    if LoggedIn(r.phase) {
      LoginIs(r.login, r.authenticated, head + more, s);
    }
  }

  // The account of what the upstream has sent.
  lemma UpstreamFacts(r: Relay, c: Credentials)
    requires ValidCredentials(c) && Inv(r, c) && FromUpstream(r.phase)
    ensures GoodHead(r.phase) && r.upstreamIn == r.login + UpstreamHead(r.phase) + r.upstreamBuffer
    ensures LoggedIn(r.phase) <==> !r.phase.MethodChoice? && !r.phase.AuthAnswer?
    ensures LoggedIn(r.phase) ==> r.login == LoginBytes(r.authenticated)
    ensures r.phase.MethodChoice? ==> r.login == [] && UpstreamHead(r.phase) == []
    ensures r.phase.AuthAnswer? ==> r.login == [5, 2] && UpstreamHead(r.phase) == []
    ensures r.phase.ReplyHead? ==> UpstreamHead(r.phase) == []
  {
    hide ClientSide, Login, GoodRequest, IsGreeting;
  }

  lemma UpstreamMoves(r: Relay, c: Credentials, s: Streams, client: Bytes, upstream: Bytes)
    requires ValidCredentials(c) && Proper(s) && On(r, c, s, client, upstream) && FromUpstream(r.phase)
    requires Need(r.phase) <= |r.upstreamBuffer|
    ensures var next := Step(r, c, Resume);
            !next.phase.Closed? && UpstreamReads(next.phase) < UpstreamReads(r.phase) && UpstreamOpen(next.phase)
  {
    hide Inv, On, Upstream, Proper, IsMessage, ValidCredentials, Step, AfterUpstreamRead, LoginBytes, UpstreamReads,
        UpstreamOpen;
    UpstreamUnread(r, c, s, client, upstream);
    var n := Need(r.phase);
    var b, more := r.upstreamBuffer[..n], r.upstreamBuffer[n..] + upstream;
    assert r.upstreamBuffer + upstream == b + more;
    UpstreamStep(r, c);
    if r.phase.MethodChoice? {
      ChoiceRead(b, more, s);
    } else if r.phase.AuthAnswer? {
      AnswerRead(b, more, s);
    } else if r.phase.ReplyHead? {
      ReplyHeadRead(b, more, s);
    } else if r.phase.ReplyPort? {
      ReplyRead(r.phase.head, b, more, s);
    }
    UpstreamReadOpen(r.(upstreamBuffer := r.upstreamBuffer[n..]), c, b);
  }

  lemma UpstreamStep(r: Relay, c: Credentials)
    requires ValidCredentials(c) && FromUpstream(r.phase) && Need(r.phase) <= |r.upstreamBuffer|
    ensures var n := Need(r.phase);
            Step(r, c, Resume) == AfterUpstreamRead(r.(upstreamBuffer := r.upstreamBuffer[n..]), c,
                r.upstreamBuffer[..n])
  {
    hide AfterUpstreamRead, Need, ValidCredentials;
  }

  lemma UpstreamReadOpen(r: Relay, c: Credentials, b: Bytes)
    requires ValidCredentials(c) && FromUpstream(r.phase) && |b| == Need(r.phase)
    requires r.phase.MethodChoice? ==> b[0] == VERSION && (b[1] == 0 || b[1] == 2)
    requires r.phase.AuthAnswer? ==> b == [1, 0]
    requires r.phase.ReplyHead? ==> b[0] == VERSION && b[3] in {1, 3, 4}
    requires r.phase.ReplyPort? ==> |r.phase.head| >= 4 && (r.phase.head + b)[1] == 0
    ensures var next := AfterUpstreamRead(r, c, b);
            !next.phase.Closed? && UpstreamReads(next.phase) < UpstreamReads(r.phase) && UpstreamOpen(next.phase)
  {
    hide AuthRequest, ValidCredentials;
  }

  lemma UpstreamReady(r: Relay, c: Credentials, s: Streams, client: Bytes)
    requires ValidCredentials(c) && Proper(s) && On(r, c, s, client, []) && FromUpstream(r.phase)
    ensures Need(r.phase) <= |r.upstreamBuffer|
  {
    UpstreamUnread(r, c, s, client, []);
    assert r.upstreamBuffer + [] == r.upstreamBuffer;
    assert IsMessage(s.m);
    hide On;
    match r.phase
    case MethodChoice =>
    case AuthAnswer =>
      var t := [5, 2] + r.upstreamBuffer;
      assert t[1] == 2 && t[1] == LoginBytes(s.auth)[1];
    case ReplyHead =>
    case _ =>
      hide IsMessage;
      MessageLeft(UpstreamHead(r.phase), r.upstreamBuffer, s.m, s.y);
  }

  // ---------- no well-formed run is closed ----------

  lemma StreamsGrow(r: Relay, c: Credentials, input: Input)
    requires ValidCredentials(c)
    ensures r.clientIn <= Step(r, c, input).clientIn && r.upstreamIn <= Step(r, c, input).upstreamIn
    ensures input.Resume? || input.Connected? ==>
              Step(r, c, input).clientIn == r.clientIn && Step(r, c, input).upstreamIn == r.upstreamIn
  {
    hide AuthRequest, FailureReply, AddressPhase;
  }

  predicate Unfailing(inputs: seq<Input>) {
    forall i :: 0 <= i < |inputs| ==> !inputs[i].Broken?
  }

  // One input of a well-formed run keeps it going.
  lemma StepOn(r: Relay, c: Credentials, s: Streams, input: Input, client: Bytes, upstream: Bytes)
    requires ValidCredentials(c) && Proper(s) && Inv(r, c) && !r.phase.Closed? && !input.Broken?
    requires Step(r, c, input).clientIn + client == Client(s) && Step(r, c, input).upstreamIn + upstream == Upstream(s)
    ensures On(Step(r, c, input), c, s, client, upstream)
  {
    StepKeepsInv(r, c, input);
    StreamsGrow(r, c, input);
    if input.Resume? {
      hide Inv, Step, Client, Upstream, Proper;
      ResumeOn(r, c, s, client, upstream);
    } else {
      hide Inv, Client, Upstream, Proper, AfterClientRead, AfterUpstreamRead;
    }
  }

  lemma ResumeOn(r: Relay, c: Credentials, s: Streams, client: Bytes, upstream: Bytes)
    requires ValidCredentials(c) && Proper(s) && On(r, c, s, client, upstream)
    ensures !Step(r, c, Resume).phase.Closed?
  {
    if FromClient(r.phase) && Need(r.phase) <= |r.clientBuffer| {
      ClientMoves(r, c, s, client, upstream);
    } else if FromUpstream(r.phase) && Need(r.phase) <= |r.upstreamBuffer| {
      UpstreamMoves(r, c, s, client, upstream);
    } else {
      hide On, Proper, Need;
    }
  }

  /** As long as what arrived can still become two well-formed streams, and nothing fails, the bridge stays open. */
  lemma {:induction false} StaysOpen(c: Credentials, inputs: seq<Input>, s: Streams, client: Bytes, upstream: Bytes)
    requires ValidCredentials(c) && Proper(s) && Unfailing(inputs)
    requires Run(START, c, inputs).clientIn + client == Client(s)
             && Run(START, c, inputs).upstreamIn + upstream == Upstream(s)
    ensures On(Run(START, c, inputs), c, s, client, upstream)
  {
    hide Inv, Step, Client, Upstream, Proper;
    RunKeepsInv(c, inputs);
    if inputs != [] {
      var n := |inputs| - 1;
      var r, next := Run(START, c, inputs[..n]), Run(START, c, inputs);
      StreamsGrow(r, c, inputs[n]);
      var a, b := next.clientIn[|r.clientIn|..], next.upstreamIn[|r.upstreamIn|..];
      assert r.clientIn + (a + client) == next.clientIn + client;
      assert r.upstreamIn + (b + upstream) == next.upstreamIn + upstream;
      StaysOpen(c, inputs[..n], s, a + client, b + upstream);
      StepOn(r, c, s, inputs[n], client, upstream);
    }
  }

  // ---------- reading on ----------

  // The relay after it went on n times.
  function Resumed(r: Relay, c: Credentials, n: nat): Relay
    requires ValidCredentials(c)
    decreases n
  {
    if n == 0 then r else Resumed(Step(r, c, Resume), c, n - 1)
  }

  lemma OnceOn(r: Relay, c: Credentials, s: Streams, client: Bytes, upstream: Bytes)
    requires ValidCredentials(c) && Proper(s) && On(r, c, s, client, upstream)
    ensures On(Step(r, c, Resume), c, s, client, upstream)
  {
    StreamsGrow(r, c, Resume);
    hide Inv, Step, Client, Upstream, Proper;
    StepOn(r, c, s, Resume, client, upstream);
  }

  // With the client's whole stream there, enough reads lead to the connection or beyond.
  lemma {:induction false} ClientGoesOn(r: Relay, c: Credentials, s: Streams, upstream: Bytes, n: nat)
    requires ValidCredentials(c) && Proper(s) && On(r, c, s, [], upstream) && ClientReads(r.phase) <= n
    ensures var t := Resumed(r, c, n); On(t, c, s, [], upstream) && !FromClient(t.phase)
    decreases n
  {
    hide On, Proper, Step, Need, ValidCredentials;
    if n > 0 {
      OnceOn(r, c, s, [], upstream);
      if FromClient(r.phase) {
        ClientReady(r, c, s, upstream);
        ClientMoves(r, c, s, [], upstream);
      } else {
        NotBack(r, c);
      }
      ClientGoesOn(Step(r, c, Resume), c, s, upstream, n - 1);
    }
  }

  lemma NotBack(r: Relay, c: Credentials)
    requires ValidCredentials(c) && !FromClient(r.phase)
    ensures ClientReads(Step(r, c, Resume).phase) == 0
    ensures UpstreamOpen(r.phase) && !Step(r, c, Resume).phase.Closed? ==> UpstreamOpen(Step(r, c, Resume).phase)
  {
    hide AuthRequest, FailureReply, ValidCredentials;
  }

  // With the upstream's whole stream there, enough reads lead to relaying.
  lemma {:induction false} UpstreamGoesOn(r: Relay, c: Credentials, s: Streams, client: Bytes, n: nat)
    requires ValidCredentials(c) && Proper(s) && On(r, c, s, client, []) && UpstreamOpen(r.phase)
    requires UpstreamReads(r.phase) <= n
    ensures var t := Resumed(r, c, n); On(t, c, s, client, []) && t.phase.Relaying?
    decreases n
  {
    hide On, Proper, Step, Need, ValidCredentials;
    if n > 0 {
      OnceOn(r, c, s, client, []);
      if FromUpstream(r.phase) {
        UpstreamReady(r, c, s, client);
        UpstreamMoves(r, c, s, client, []);
      } else {
        Relays(r, c);
      }
      UpstreamGoesOn(Step(r, c, Resume), c, s, client, n - 1);
    }
  }

  lemma Relays(r: Relay, c: Credentials)
    requires ValidCredentials(c) && r.phase.Relaying?
    ensures Step(r, c, Resume) == r
  {
    hide Need, AfterClientRead, AfterUpstreamRead, ValidCredentials;
  }

  // ---------- every run can be completed ----------

  // The missing bytes of the client, six reads, the connection, the missing bytes of the upstream, six reads.
  function Completed(r: Relay, c: Credentials, client: Bytes, upstream: Bytes): Relay
    requires ValidCredentials(c)
  {
    var connected := Step(Resumed(Step(r, c, ClientData(client)), c, 6), c, Connected);
    Resumed(Step(connected, c, UpstreamData(upstream)), c, 6)
  }

  // The same as a sequence of inputs.
  function Rest(client: Bytes, upstream: Bytes): seq<Input> {
    [ClientData(client)] + Resumes(6) + [Connected] + [UpstreamData(upstream)] + Resumes(6)
  }

  function Resumes(n: nat): seq<Input> {
    seq(n, _ => Resume)
  }

  lemma {:induction false} RunSnoc(r: Relay, c: Credentials, inputs: seq<Input>, input: Input)
    requires ValidCredentials(c)
    ensures Run(r, c, inputs + [input]) == Step(Run(r, c, inputs), c, input)
  {
    assert (inputs + [input])[..|inputs|] == inputs;
  }

  lemma {:induction false} RunResumes(r: Relay, c: Credentials, inputs: seq<Input>, n: nat)
    requires ValidCredentials(c)
    ensures Run(r, c, inputs + Resumes(n)) == Resumed(Run(r, c, inputs), c, n)
    decreases n
  {
    hide Step;
    if n == 0 {
      assert inputs + Resumes(0) == inputs;
    } else {
      assert inputs + Resumes(n) == inputs + [Resume] + Resumes(n - 1);
      RunResumes(r, c, inputs + [Resume], n - 1);
      RunSnoc(r, c, inputs, Resume);
    }
  }

  lemma {:induction false} RunRest(r: Relay, c: Credentials, client: Bytes, upstream: Bytes)
    requires ValidCredentials(c)
    ensures Run(r, c, Rest(client, upstream)) == Completed(r, c, client, upstream)
  {
    hide Step, Resumes;
    var a := [ClientData(client)];
    assert [] + a == a;
    RunSnoc(r, c, [], ClientData(client));
    assert Run(r, c, []) == r;
    hide Run, Resumed;
    RunResumes(r, c, a, 6);
    RunSnoc(r, c, a + Resumes(6), Connected);
    RunSnoc(r, c, a + Resumes(6) + [Connected], UpstreamData(upstream));
    RunResumes(r, c, a + Resumes(6) + [Connected] + [UpstreamData(upstream)], 6);
  }

  lemma ConnectedOn(r: Relay, c: Credentials, s: Streams, upstream: Bytes)
    requires ValidCredentials(c) && Proper(s) && On(r, c, s, [], upstream) && !FromClient(r.phase)
    ensures var t := Step(r, c, Connected); On(t, c, s, [], upstream) && UpstreamOpen(t.phase)
  {
    StreamsGrow(r, c, Connected);
    StepOn(r, c, s, Connected, [], upstream);
    hide Inv, Client, Upstream, Proper, Need;
  }

  lemma FedOn(r: Relay, c: Credentials, s: Streams, client: Bytes, upstream: Bytes)
    requires ValidCredentials(c) && Proper(s) && On(r, c, s, client, upstream)
    ensures On(Step(r, c, ClientData(client)), c, s, [], upstream)
    ensures UpstreamOpen(r.phase) ==>
              var t := Step(r, c, UpstreamData(upstream)); On(t, c, s, client, []) && t.phase == r.phase
  {
    hide Inv, Client, Upstream, Proper, Need;
    assert r.clientIn + client + [] == r.clientIn + client;
    assert r.upstreamIn + upstream + [] == r.upstreamIn + upstream;
    StepOn(r, c, s, ClientData(client), [], upstream);
    if UpstreamOpen(r.phase) {
      StepOn(r, c, s, UpstreamData(upstream), client, []);
    }
  }

  lemma CompletedRelays(r: Relay, c: Credentials, s: Streams, client: Bytes, upstream: Bytes)
    requires ValidCredentials(c) && Proper(s) && On(r, c, s, client, upstream)
    ensures var t := Completed(r, c, client, upstream); On(t, c, s, [], []) && t.phase.Relaying?
  {
    hide On, Proper, Step, Resumed, ValidCredentials;
    FedOn(r, c, s, client, upstream);
    var fed := Step(r, c, ClientData(client));
    ClientGoesOn(fed, c, s, upstream, 6);
    ConnectedOn(Resumed(fed, c, 6), c, s, upstream);
    var open := Step(Resumed(fed, c, 6), c, Connected);
    FedOn(open, c, s, [], upstream);
    UpstreamGoesOn(Step(open, c, UpstreamData(upstream)), c, s, [], 6);
  }

  /**
   The bridge never gets stuck.  However the bytes of both sides were cut into chunks and
   interleaved with reads and the connection, at any point of any run without a failure: if
   what has arrived begins two well-formed streams, the rest of them, the connection and
   twelve reads lead to relaying, with both sides sent exactly what transparency says.
   */
  lemma {:induction false} Reaches(c: Credentials, inputs: seq<Input>, s: Streams, client: Bytes, upstream: Bytes)
    requires ValidCredentials(c) && Proper(s) && Unfailing(inputs)
    requires Run(START, c, inputs).clientIn + client == Client(s)
             && Run(START, c, inputs).upstreamIn + upstream == Upstream(s)
    ensures var t := Run(Run(START, c, inputs), c, Rest(client, upstream));
            && t.phase.Relaying? && t.clientIn == Client(s) && t.upstreamIn == Upstream(s)
            && t.clientOut == [5, 0] + (s.m + s.y) && t.upstreamOut == Login(c, s.auth) + (s.q + s.x)
  {
    StaysOpen(c, inputs, s, client, upstream);
    var r := Run(START, c, inputs);
    hide Inv, Run, Completed, Rest, Client, Upstream;
    CompletedRelays(r, c, s, client, upstream);
    RunRest(r, c, client, upstream);
    Written(Completed(r, c, client, upstream), c, s);
  }

  // What a relaying bridge has written, given the whole streams.
  lemma Written(t: Relay, c: Credentials, s: Streams)
    requires ValidCredentials(c) && Proper(s) && On(t, c, s, [], []) && t.phase.Relaying?
    ensures t.clientIn == Client(s) && t.upstreamIn == Upstream(s)
    ensures t.clientOut == [5, 0] + (s.m + s.y) && t.upstreamOut == Login(c, s.auth) + (s.q + s.x)
  {
    hide Login, LoginBytes, Proper, Client, Upstream;
    assert t.clientIn + [] == t.clientIn && t.upstreamIn + [] == t.upstreamIn;
    RelayingFacts(t, c);
    hide Inv, ClientSide, UpstreamSide, On;
    var x, y := RelayingRests(t, c);
    ClientWritten(t, c, s, x);
    UpstreamWritten(t, c, s, y);
  }

  lemma RelayingFacts(t: Relay, c: Credentials)
    requires ValidCredentials(c) && Inv(t, c) && t.phase.Relaying?
    ensures IsGreeting(t.greeting) && t.login == LoginBytes(t.authenticated) && ClientSide(t, c) && UpstreamSide(t)
  {
    hide ClientSide, UpstreamSide, GoodReply, GoodRequest, IsGreeting, Login;
  }

  lemma RelayingRests(t: Relay, c: Credentials) returns (x: Bytes, y: Bytes)
    requires ValidCredentials(c) && t.phase.Relaying? && ClientSide(t, c) && UpstreamSide(t)
    ensures t.clientIn == t.greeting + t.request + x && t.upstreamOut == Login(c, t.authenticated) + t.request + x
    ensures t.upstreamIn == t.login + t.reply + y && t.clientOut == [5, 0] + t.reply + y
  {
    hide Login;
    x :| t.clientIn == t.greeting + t.request + x && t.upstreamOut == Login(c, t.authenticated) + t.request + x;
    y :| t.upstreamIn == t.login + t.reply + y && t.clientOut == [5, 0] + t.reply + y;
  }

  lemma ClientWritten(t: Relay, c: Credentials, s: Streams, x: Bytes)
    requires ValidCredentials(c) && Proper(s) && IsGreeting(t.greeting)
    requires Client(s) == t.greeting + t.request + x && t.upstreamOut == Login(c, t.authenticated) + t.request + x
    ensures t.upstreamOut == Login(c, t.authenticated) + (s.q + s.x)
  {
    hide Login, Proper, IsGreeting, Client;
    assert t.greeting + t.request + x == t.greeting + (t.request + x);
    GreetingIs(t, s, t.request + x);
    assert Login(c, t.authenticated) + t.request + x == Login(c, t.authenticated) + (t.request + x);
  }

  lemma UpstreamWritten(t: Relay, c: Credentials, s: Streams, y: Bytes)
    requires t.login == LoginBytes(t.authenticated) && Upstream(s) == t.login + t.reply + y
    requires t.clientOut == [5, 0] + t.reply + y
    ensures t.authenticated == s.auth && t.clientOut == [5, 0] + (s.m + s.y)
  {
    hide LoginBytes, Upstream;
    assert t.login + t.reply + y == t.login + (t.reply + y);
    LoginIs(t.login, t.authenticated, t.reply + y, s);
    assert [5, 0] + t.reply + y == [5, 0] + (t.reply + y);
  }
}
