/**
 Which address a request is charged to behind trusted proxies (resolveClientIP in
 internal/server/server.go).  Parsing an address and membership in the trusted networks are
 parameters.
 */
module ClientAddress {
  import opened Text

  // The addresses named in the forwarding header, in order; text that is no address is skipped.
  function Named<IP>(parse: string -> Option<IP>, parts: seq<string>): seq<IP> {
    if parts == [] then []
    else
      var last := parse(TrimSpace(parts[|parts| - 1]));
      Named(parse, parts[..|parts| - 1]) + if last.Some? then [last.value] else []
  }

  function Parts(headers: seq<string>): seq<string> {
    Split(Join(headers, ','), ',')
  }

  // The hops a request came through, the peer last.
  function Chain<IP>(parse: string -> Option<IP>, headers: seq<string>, peer: IP): (chain: seq<IP>)
    ensures chain != []
  {
    Named(parse, Parts(headers)) + [peer]
  }

  predicate LastUntrusted<IP(==)>(trusted: IP -> bool, chain: seq<IP>, ip: IP) {
    exists k :: 0 <= k < |chain| && chain[k] == ip && !trusted(ip) && forall j :: k < j < |chain| ==> trusted(chain[j])
  }

  predicate AllTrusted<IP>(trusted: IP -> bool, chain: seq<IP>) {
    forall k :: 0 <= k < |chain| ==> trusted(chain[k])
  }

  /** The client of a chain of hops: the last untrusted one, or the first when all are trusted. */
  predicate ClientOf<IP(==)>(trusted: IP -> bool, chain: seq<IP>, ip: IP) {
    LastUntrusted(trusted, chain, ip) || (AllTrusted(trusted, chain) && chain != [] && ip == chain[0])
  }

  lemma NamedStep<IP>(parse: string -> Option<IP>, parts: seq<string>, i: nat)
    requires i < |parts|
    ensures Named(parse, parts[i..])
         == (if parse(TrimSpace(parts[i])).Some? then [parse(TrimSpace(parts[i])).value] else [])
             + Named(parse, parts[i + 1..])
  {
    NamedConcat(parse, [parts[i]], parts[i + 1..]);
    assert parts[i..] == [parts[i]] + parts[i + 1..];
    assert [parts[i]][..0] == [];
    assert Named(parse, [parts[i]])
        == Named(parse, []) + if parse(TrimSpace(parts[i])).Some? then [parse(TrimSpace(parts[i])).value] else [];
  }

  lemma {:induction false} NamedConcat<IP>(parse: string -> Option<IP>, a: seq<string>, b: seq<string>)
    ensures Named(parse, a + b) == Named(parse, a) + Named(parse, b)
  {
    if b == [] {
      assert a + b == a;
    } else {
      assert (a + b)[..|a + b| - 1] == a + b[..|b| - 1];
      NamedConcat(parse, a, b[..|b| - 1]);
    }
  }

  /** resolveClientIP for a peer that has an address */
  method Resolve<IP(==)>(parse: string -> Option<IP>, trusted: IP -> bool, headers: seq<string>,
      peer: IP) returns (client: IP)
    ensures ClientOf(trusted, Chain(parse, headers, peer), client)
  {
    hide Named, Parts, TrimSpace;
    if !trusted(peer) {
      var hops := Chain(parse, headers, peer);
      assert hops[|hops| - 1] == peer;
      return peer;
    }
    var parts := Parts(headers);
    var leftmost: Option<IP> := None;
    var i := |parts|;
    assert parts[i..] == [];
    NamedNothing(parse);
    while i > 0
      invariant 0 <= i <= |parts|
      invariant AllTrusted(trusted, Named(parse, parts[i..]))
      invariant leftmost == if Named(parse, parts[i..]) == [] then None else Some(Named(parse, parts[i..])[0])
    {
      i := i - 1;
      NamedStep(parse, parts, i);
      var candidate := parse(TrimSpace(parts[i]));
      if candidate.None? {
        continue;
      }
      leftmost := candidate;
      if !trusted(candidate.value) {
        LastIn(parse, trusted, parts, i, peer);
        return candidate.value;
      }
    }
    assert parts[0..] == parts;
    var chain := Chain(parse, headers, peer);
    assert AllTrusted(trusted, chain);
    client := if leftmost.Some? then leftmost.value else peer;
    assert chain[0] == client;
  }

  lemma NamedNothing<IP>(parse: string -> Option<IP>)
    ensures Named(parse, []) == []
  {}

  // An untrusted address with only trusted ones behind it is the last untrusted hop.
  lemma {:induction false} LastIn<IP>(parse: string -> Option<IP>, trusted: IP -> bool, parts: seq<string>, i: nat,
      peer: IP)
    requires i < |parts| && parse(TrimSpace(parts[i])).Some? && !trusted(parse(TrimSpace(parts[i])).value)
             && trusted(peer)
    requires AllTrusted(trusted, Named(parse, parts[i + 1..]))
    ensures LastUntrusted(trusted, Named(parse, parts) + [peer], parse(TrimSpace(parts[i])).value)
  {
    hide TrimSpace, Named;
    var head, tail := parts[..i], parts[i..];
    NamedConcat(parse, head, tail);
    assert parts == head + tail;
    NamedStep(parse, parts, i);
    var front, back := Named(parse, head), Named(parse, parts[i + 1..]);
    var ip := parse(TrimSpace(parts[i])).value;
    assert Named(parse, parts) == front + ([ip] + back);
    BehindIt(trusted, front, ip, back, peer);
  }

  lemma BehindIt<IP>(trusted: IP -> bool, front: seq<IP>, ip: IP, back: seq<IP>, peer: IP)
    requires !trusted(ip) && trusted(peer) && AllTrusted(trusted, back)
    ensures LastUntrusted(trusted, front + ([ip] + back) + [peer], ip)
  {
    var chain := front + ([ip] + back) + [peer];
    assert chain[|front|] == ip;
    forall j | |front| < j < |chain| ensures trusted(chain[j]) {
      assert chain[j] == if j < |chain| - 1 then back[j - |front| - 1] else peer;
    }
  }

  /** There is one client of a chain. */
  lemma ClientUnique<IP>(trusted: IP -> bool, chain: seq<IP>, a: IP, b: IP)
    requires ClientOf(trusted, chain, a) && ClientOf(trusted, chain, b)
    ensures a == b
  {}

  /** What stands to the left of an untrusted hop, made up or not, does not change the client. */
  lemma LeftIsIgnored<IP>(trusted: IP -> bool, left: seq<IP>, other: seq<IP>, right: seq<IP>, a: IP, b: IP)
    requires !AllTrusted(trusted, right)
    requires ClientOf(trusted, left + right, a) && ClientOf(trusted, other + right, b)
    ensures a == b
  {
    RightDecides(trusted, left, right, a);
    RightDecides(trusted, other, right, b);
    ClientUnique(trusted, right, a, b);
  }

  lemma RightDecides<IP>(trusted: IP -> bool, left: seq<IP>, right: seq<IP>, a: IP)
    requires !AllTrusted(trusted, right) && ClientOf(trusted, left + right, a)
    ensures ClientOf(trusted, right, a)
  {
    var m :| 0 <= m < |right| && !trusted(right[m]);
    var chain := left + right;
    assert chain[|left| + m] == right[m];
    var k :| 0 <= k < |chain| && chain[k] == a && !trusted(a) && forall j :: k < j < |chain| ==> trusted(chain[j]);
    assert k >= |left| + m;
    var r := k - |left|;
    assert right[r] == a;
    forall j | r < j < |right| ensures trusted(right[j]) {
      assert chain[|left| + j] == right[j];
    }
  }
}
