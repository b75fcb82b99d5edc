/** The two rate limiters of internal/server/server.go.  Times are in nanoseconds. */
module Limiter {
  import opened Text

  // ---------- a fixed window per key ----------

  datatype Window = Window(count: nat, started: int)

  // The value kept for a key after one more call, and whether the call is allowed.
  function Counted(w: Option<Window>, now: int, length: nat): Window {
    if w.None? || now - w.value.started >= length then Window(1, now) else w.value.(count := w.value.count + 1)
  }

  class WindowLimiter {
    var values: map<string, Window>
    const maximum: nat
    const length: nat

    constructor (maximum: nat, length: nat)
      ensures values == map[] && this.maximum == maximum && this.length == length
    {
      this.values, this.maximum, this.length := map[], maximum, length;
    }

    function Kept(key: string): Option<Window>
      reads this
    {
      if key in values then Some(values[key]) else None
    }

    /** windowLimiter.allow */
    method Allow(key: string, now: int) returns (ok: bool)
      modifies this
      ensures values == old(values)[key := Counted(old(Kept(key)), now, length)]
      ensures ok <==> Counted(old(Kept(key)), now, length).count <= maximum
    {
      var item := if key in values then values[key] else Window(0, 0);
      if key !in values || now - item.started >= length {
        item := Window(0, now);
      }
      item := item.(count := item.count + 1);
      values := values[key := item];
      ok := item.count <= maximum;
    }
  }

  // A call of the limiter.
  datatype Call = Call(key: string, at: int)

  predicate Ordered(calls: seq<Call>) {
    forall i, j :: 0 <= i < j < |calls| ==> calls[i].at <= calls[j].at
  }

  // What is kept for a key after the calls.
  function After(calls: seq<Call>, key: string, length: nat): Option<Window> {
    if calls == [] then None
    else
      var before, last := After(calls[..|calls| - 1], key, length), calls[|calls| - 1];
      if last.key == key then Some(Counted(before, last.at, length)) else before
  }

  predicate AllowedLast(calls: seq<Call>, maximum: nat, length: nat)
    requires calls != []
  {
    var last := calls[|calls| - 1];
    Counted(After(calls[..|calls| - 1], last.key, length), last.at, length).count <= maximum
  }

  /** How many calls of a key were allowed at times from `from` on and before `until`. */
  function AllowedIn(calls: seq<Call>, key: string, maximum: nat, length: nat, from: int, until: int): nat {
    if calls == [] then 0
    else
      var last := calls[|calls| - 1];
      AllowedIn(calls[..|calls| - 1], key, maximum, length, from, until)
      + if last.key == key && from <= last.at < until && AllowedLast(calls, maximum, length) then 1 else 0
  }

  function Least(a: int, b: int): int {
    if a < b then a else b
  }

  // The bound that the kept window gives for the interval that starts at `from`.
  function Bound(w: Option<Window>, maximum: nat, length: nat, from: int): int {
    if w.None? then 0
    else if w.value.started < from then Least(w.value.count, maximum) - 1
    else if w.value.started < from + length then maximum - 1 + Least(w.value.count, maximum)
    else 2 * maximum - 1
  }

  predicate KeptFits(w: Option<Window>, calls: seq<Call>) {
    w.Some? ==> w.value.count >= 1 && calls != [] && w.value.started <= calls[|calls| - 1].at
  }

  lemma {:induction false} EarlyCalls(calls: seq<Call>, key: string, maximum: nat, length: nat, from: int, until: int)
    requires forall i :: 0 <= i < |calls| ==> calls[i].at < from
    ensures AllowedIn(calls, key, maximum, length, from, until) == 0
  {
    if calls != [] {
      EarlyCalls(calls[..|calls| - 1], key, maximum, length, from, until);
    }
  }

  lemma {:induction false} CallCounts(init: seq<Call>, last: Call, key: string, maximum: nat, length: nat, from: int,
      until: int)
    ensures var next := Counted(After(init, key, length), last.at, length);
            if last.key == key then
              After(init + [last], key, length) == Some(next)
              && AllowedIn(init + [last], key, maximum, length, from, until)
              == AllowedIn(init, key, maximum, length, from, until)
                 + if from <= last.at < until && next.count <= maximum then 1 else 0
            else
              After(init + [last], key, length) == After(init, key, length)
              && AllowedIn(init + [last], key, maximum, length, from, until)
                 == AllowedIn(init, key, maximum, length, from, until)
  {
    assert (init + [last])[..|init|] == init;
  }

  lemma {:induction false} AllowedBound(calls: seq<Call>, key: string, maximum: nat, length: nat, from: int)
    requires Ordered(calls) && maximum >= 1
    ensures KeptFits(After(calls, key, length), calls)
    ensures AllowedIn(calls, key, maximum, length, from, from + length)
            <= Bound(After(calls, key, length), maximum, length, from)
  {
    if calls != [] {
      var init, last := calls[..|calls| - 1], calls[|calls| - 1];
      AllowedBound(init, key, maximum, length, from);
      assert init != [] ==> init[|init| - 1].at <= last.at;
      assert calls == init + [last];
      if last.at < from {
        EarlyCalls(init, key, maximum, length, from, from + length);
      }
      hide After, AllowedIn, Bound, Ordered;
      CallCounts(init, last, key, maximum, length, from, from + length);
      BoundGrows(After(init, key, length), init, last.at, maximum, length, from,
          AllowedIn(init, key, maximum, length, from, from + length));
    }
  }

  // One more call of the key keeps within the bound.
  lemma BoundGrows(w: Option<Window>, calls: seq<Call>, at: int, maximum: nat, length: nat, from: int, n: nat)
    requires KeptFits(w, calls) && (calls != [] ==> calls[|calls| - 1].at <= at) && maximum >= 1
    requires n <= Bound(w, maximum, length, from) && (at < from ==> n == 0)
    ensures var next := Counted(w, at, length);
            n + (if from <= at < from + length && next.count <= maximum then 1 else 0)
            <= Bound(Some(next), maximum, length, from)
  {}

  // The most calls of a key that get through in one window's time; a window of one tick is an instant.
  function Limit(maximum: nat, length: nat): nat {
    if maximum == 0 || length == 0 then 0 else if length == 1 then maximum else 2 * maximum - 1
  }

  /**
   Over any run with a clock that never goes back, a key gets at most 2 * maximum - 1 calls
   through in any half-open interval as long as the window, and fewer in the degenerate cases.
   */
  lemma WindowLimit(calls: seq<Call>, key: string, maximum: nat, length: nat, from: int)
    requires Ordered(calls)
    ensures AllowedIn(calls, key, maximum, length, from, from + length) <= Limit(maximum, length)
  {
    if maximum == 0 {
      NoneAllowed(calls, key, length, from, from + length);
    } else if length == 0 {
      NoTime(calls, key, maximum, length, from);
    } else if length == 1 {
      InstantBound(calls, key, maximum, from);
    } else {
      AllowedBound(calls, key, maximum, length, from);
    }
  }

  lemma {:induction false} NoTime(calls: seq<Call>, key: string, maximum: nat, length: nat, from: int)
    ensures AllowedIn(calls, key, maximum, length, from, from) == 0
  {
    if calls != [] {
      NoTime(calls[..|calls| - 1], key, maximum, length, from);
    }
  }

  // The bound for a window of one tick.
  function Instant(w: Option<Window>, maximum: nat, from: int): int {
    if w.None? || w.value.started < from then 0
    else if w.value.started == from then Least(w.value.count, maximum)
    else maximum
  }

  lemma {:induction false} InstantBound(calls: seq<Call>, key: string, maximum: nat, from: int)
    requires Ordered(calls) && maximum >= 1
    ensures KeptFits(After(calls, key, 1), calls)
    ensures AllowedIn(calls, key, maximum, 1, from, from + 1) <= Instant(After(calls, key, 1), maximum, from) <= maximum
  {
    if calls != [] {
      var init, last := calls[..|calls| - 1], calls[|calls| - 1];
      InstantBound(init, key, maximum, from);
      assert init != [] ==> init[|init| - 1].at <= last.at;
      assert calls == init + [last];
      if last.at < from {
        EarlyCalls(init, key, maximum, 1, from, from + 1);
      }
      hide After, AllowedIn, Ordered;
      CallCounts(init, last, key, maximum, 1, from, from + 1);
    }
  }

  lemma {:induction false} NoneAllowed(calls: seq<Call>, key: string, length: nat, from: int, until: int)
    ensures AllowedIn(calls, key, 0, length, from, until) == 0
  {
    if calls != [] {
      NoneAllowed(calls[..|calls| - 1], key, length, from, until);
    }
  }

  // n calls of one key at one time.
  function Burst(key: string, at: int, n: nat): seq<Call> {
    seq(n, _ => Call(key, at))
  }

  /** For every maximum and window there is a run that reaches the limit. */
  lemma WindowLimitReached(key: string, maximum: nat, length: nat) returns (calls: seq<Call>, from: int)
    ensures Ordered(calls) && AllowedIn(calls, key, maximum, length, from, from + length) == Limit(maximum, length)
  {
    if maximum == 0 || length == 0 {
      calls, from := [], 0;
    } else if length == 1 {
      calls, from := Burst(key, 0, 1) + Burst(key, 0, maximum - 1), 0;
      InstantReached(key, maximum);
    } else {
      calls, from := Burst(key, 0, 1) + Burst(key, length - 1, maximum - 1) + Burst(key, length, maximum), length - 1;
      LongWindowReached(key, maximum, length);
    }
  }

  lemma InstantReached(key: string, maximum: nat)
    requires maximum >= 1
    ensures var calls := Burst(key, 0, 1) + Burst(key, 0, maximum - 1);
            Ordered(calls) && AllowedIn(calls, key, maximum, 1, 0, 1) == maximum
  {
    hide After, AllowedIn, Burst, Ordered;
    FirstInstant(key, maximum);
    BurstGrows(Burst(key, 0, 1), key, maximum, 1, 0, maximum - 1, 0, 1);
    InstantOrdered(key, maximum);
  }

  lemma {:induction false} FirstInstant(key: string, maximum: nat)
    requires maximum >= 1
    ensures var first := Burst(key, 0, 1);
            After(first, key, 1) == Some(Window(1, 0)) && AllowedIn(first, key, maximum, 1, 0, 1) == 1
  {
    assert Burst(key, 0, 1) == [] + [Call(key, 0)];
    CallCounts([], Call(key, 0), key, maximum, 1, 0, 1);
    assert After([], key, 1) == None && AllowedIn([], key, maximum, 1, 0, 1) == 0;
    hide After, AllowedIn, Burst;
  }

  lemma InstantOrdered(key: string, maximum: nat)
    requires maximum >= 1
    ensures Ordered(Burst(key, 0, 1) + Burst(key, 0, maximum - 1))
  {
    var all := Burst(key, 0, 1) + Burst(key, 0, maximum - 1);
    assert forall i :: 0 <= i < |all| ==> all[i].at == 0;
  }

  // The first call at 0, the rest of the window at its end, the next window at once.
  lemma LongWindowReached(key: string, maximum: nat, length: nat)
    requires maximum >= 1 && length >= 2
    ensures var calls := Burst(key, 0, 1) + Burst(key, length - 1, maximum - 1) + Burst(key, length, maximum);
            && Ordered(calls)
            && AllowedIn(calls, key, maximum, length, length - 1, length - 1 + length) == 2 * maximum - 1
  {
    hide After, AllowedIn, Burst, Ordered;
    var from, until := length - 1, length - 1 + length;
    var first := Burst(key, 0, 1);
    FirstCall(key, maximum, length, from, until);
    BurstGrows(first, key, maximum, length, length - 1, maximum - 1, from, until);
    var second := first + Burst(key, length - 1, maximum - 1);
    NextWindow(second, key, maximum, length, from, until);
    var third := second + [Call(key, length)];
    BurstGrows(third, key, maximum, length, length, maximum - 1, from, until);
    BurstSplit(second, key, length, maximum);
    BurstsOrdered(key, length, maximum);
  }

  lemma {:induction false} FirstCall(key: string, maximum: nat, length: nat, from: int, until: int)
    requires 0 < from
    ensures var first := Burst(key, 0, 1);
            After(first, key, length) == Some(Window(1, 0)) && AllowedIn(first, key, maximum, length, from, until) == 0
  {
    assert Burst(key, 0, 1) == [] + [Call(key, 0)];
    CallCounts([], Call(key, 0), key, maximum, length, from, until);
    assert After([], key, length) == None && AllowedIn([], key, maximum, length, from, until) == 0;
    hide After, AllowedIn, Burst;
  }

  lemma BurstSplit(calls: seq<Call>, key: string, at: int, n: nat)
    requires n >= 1
    ensures calls + [Call(key, at)] + Burst(key, at, n - 1) == calls + Burst(key, at, n)
  {}

  lemma BurstsOrdered(key: string, length: nat, maximum: nat)
    requires maximum >= 1 && length >= 1
    ensures Ordered(Burst(key, 0, 1) + Burst(key, length - 1, maximum - 1) + Burst(key, length, maximum))
  {
    var a, b, c := Burst(key, 0, 1), Burst(key, length - 1, maximum - 1), Burst(key, length, maximum);
    var all := a + b + c;
    forall i | 0 <= i < |all| ensures all[i].at == if i == 0 then 0 else if i < maximum then length - 1 else length {}
  }

  lemma {:induction false} NextWindow(calls: seq<Call>, key: string, maximum: nat, length: nat, from: int, until: int)
    requires After(calls, key, length).Some? && After(calls, key, length).value.started == 0 && maximum >= 1
    requires from <= length < until
    ensures var more := calls + [Call(key, length)];
            && After(more, key, length) == Some(Window(1, length))
            && AllowedIn(more, key, maximum, length, from, until)
               == AllowedIn(calls, key, maximum, length, from, until) + 1
  {
    assert (calls + [Call(key, length)])[..|calls|] == calls;
  }

  // Calls that stay inside the kept window and below its maximum are all allowed.
  lemma {:induction false} BurstGrows(calls: seq<Call>, key: string, maximum: nat, length: nat, at: int, n: nat,
      from: int, until: int)
    requires After(calls, key, length).Some?
    requires at - After(calls, key, length).value.started < length
             && After(calls, key, length).value.count + n <= maximum
    requires from <= at < until
    ensures var w := After(calls, key, length).value;
            && After(calls + Burst(key, at, n), key, length) == Some(w.(count := w.count + n))
            && AllowedIn(calls + Burst(key, at, n), key, maximum, length, from, until)
            == AllowedIn(calls, key, maximum, length, from, until) + n
  {
    hide After, AllowedIn;
    if n == 0 {
      assert calls + Burst(key, at, 0) == calls;
    } else {
      BurstSnoc(calls, key, at, n);
      hide Burst;
      BurstGrows(calls, key, maximum, length, at, n - 1, from, until);
      CallCounts(calls + Burst(key, at, n - 1), Call(key, at), key, maximum, length, from, until);
    }
  }

  lemma BurstSnoc(calls: seq<Call>, key: string, at: int, n: nat)
    requires n > 0
    ensures calls + Burst(key, at, n) == calls + Burst(key, at, n - 1) + [Call(key, at)]
  {}

  // ---------- failed logins ----------

  const TEN_MINUTES: int := 600_000_000_000
  const STEP: int := 100_000_000

  datatype Attempt = Attempt(failures: nat, first: int, blockedUntil: Option<int>)

  // What is kept for an address after loginLimiter.allow, and whether the login may go on.
  function Checked(a: Option<Attempt>, now: int): (Option<Attempt>, bool) {
    if a.None? || now - a.value.first > TEN_MINUTES then (None, true)
    else (a, a.value.blockedUntil.None? || now >= a.value.blockedUntil.value)
  }

  // What is kept after loginLimiter.fail.
  function Failed(a: Option<Attempt>, now: int): Attempt {
    var b := if a.None? || now - a.value.first > TEN_MINUTES then Attempt(0, now, None) else a.value;
    var failures := b.failures + 1;
    Attempt(failures, b.first, if failures >= 5 then Some(b.first + TEN_MINUTES) else b.blockedUntil)
  }

  function Power2(n: nat): nat {
    if n == 0 then 1 else 2 * Power2(n - 1)
  }

  // The delay put on the answer to failure number n.
  function Delay(n: nat): int
    requires n >= 1
  {
    var delay := Power2(if n - 1 < 4 then n - 1 else 4) * STEP;
    if n >= 5 then Least(delay, 10_000_000_000) else delay
  }

  /** Delays double from 100 ms and stay at 1.6 s from the fifth failure on. */
  lemma DelaySteps(n: nat)
    requires n >= 1
    ensures n < 5 ==> Delay(n + 1) == 2 * Delay(n)
    ensures n >= 5 ==> Delay(n) == 16 * Delay(1) == 1_600_000_000
  {
    assert Power2(1) == 2 && Power2(2) == 4 && Power2(3) == 8 && Power2(4) == 16;
  }

  class LoginLimiter {
    var values: map<string, Attempt>

    constructor ()
      ensures values == map[]
    {
      values := map[];
    }

    function Kept(ip: string): Option<Attempt>
      reads this
    {
      if ip in values then Some(values[ip]) else None
    }

    /** loginLimiter.allow */
    method Allow(ip: string, now: int) returns (ok: bool, wait: int)
      modifies this
      ensures (Kept(ip), ok) == Checked(old(Kept(ip)), now)
      ensures forall other :: other != ip ==> Kept(other) == old(Kept(other))
      ensures wait == if ok then 0 else old(Kept(ip)).value.blockedUntil.value - now
    {
      if ip !in values {
        return true, 0;
      }
      var item := values[ip];
      if now - item.first > TEN_MINUTES {
        values := values - {ip};
        return true, 0;
      }
      if item.blockedUntil.Some? && now < item.blockedUntil.value {
        return false, item.blockedUntil.value - now;
      }
      return true, 0;
    }

    /** loginLimiter.fail */
    method Fail(ip: string, now: int) returns (delay: int)
      modifies this
      ensures values == old(values)[ip := Failed(old(Kept(ip)), now)]
      ensures delay == Delay(Failed(old(Kept(ip)), now).failures)
    {
      var item := if ip in values then values[ip] else Attempt(0, now, None);
      if now - item.first > TEN_MINUTES {
        item := Attempt(0, now, None);
      }
      item := item.(failures := item.failures + 1);
      delay := Power2(if item.failures - 1 < 4 then item.failures - 1 else 4) * STEP;
      if item.failures >= 5 {
        delay := Least(delay, 10_000_000_000);
        item := item.(blockedUntil := Some(item.first + TEN_MINUTES));
      }
      values := values[ip := item];
    }

    /** loginLimiter.success */
    method Succeed(ip: string)
      modifies this
      ensures values == old(values) - {ip}
    {
      values := values - {ip};
    }
  }

  // A login with a wrong password: checked at one time and, if let through, counted at a later one.
  datatype Login = Login(checked: int, failed: int)

  predicate Sequential(logins: seq<Login>) {
    && (forall i :: 0 <= i < |logins| ==> logins[i].checked <= logins[i].failed)
    && (forall i, j :: 0 <= i < j < |logins| ==> logins[i].failed <= logins[j].checked)
  }

  // What is kept, and when the counted failures happened.
  datatype Log = Log(kept: Option<Attempt>, failures: seq<int>)

  function Tried(l: Log, login: Login): Log {
    var (kept, ok) := Checked(l.kept, login.checked);
    if !ok then Log(kept, l.failures) else Log(Some(Failed(kept, login.failed)), l.failures + [login.failed])
  }

  function Logins(l: Log, logins: seq<Login>): Log {
    if logins == [] then l else Tried(Logins(l, logins[..|logins| - 1]), logins[|logins| - 1])
  }

  function Within(times: seq<int>, from: int, until: int): nat {
    if times == [] then 0
    else Within(times[..|times| - 1], from, until) + if from <= times[|times| - 1] < until then 1 else 0
  }

  // The record that began at u is still kept and counts its failures, or its ten minutes are over.
  predicate Charged(l: Log, u: int, now: int) {
    var n := Within(l.failures, u, u + TEN_MINUTES);
    n <= 5
    && (now > u + TEN_MINUTES
        || (l.kept.Some? && l.kept.value.first == u && n <= l.kept.value.failures
            && (l.kept.value.failures >= 5 ==> l.kept.value.blockedUntil == Some(u + TEN_MINUTES))
            && (l.kept.value.failures < 5 ==> l.kept.value.blockedUntil == None)))
  }

  lemma TriedCharged(l: Log, login: Login, u: int, now: int)
    requires Charged(l, u, now) && now <= login.checked <= login.failed
    ensures Charged(Tried(l, login), u, login.failed)
  {
    var (kept, ok) := Checked(l.kept, login.checked);
    WithinSnoc(l.failures, login.failed, u, u + TEN_MINUTES);
    hide Within;
    if ok && now <= u + TEN_MINUTES && kept.Some? {
      assert kept == l.kept;
      assert l.kept.value.failures >= 5 ==> login.checked >= u + TEN_MINUTES;
    }
  }

  lemma {:induction false} WithinSnoc(times: seq<int>, time: int, from: int, until: int)
    ensures Within(times + [time], from, until) == Within(times, from, until) + if from <= time < until then 1 else 0
  {
    assert (times + [time])[..|times|] == times;
  }

  lemma {:induction false} LoginsCharged(l: Log, logins: seq<Login>, u: int, now: int)
    requires Charged(l, u, now) && Sequential(logins) && (logins != [] ==> now <= logins[0].checked)
    ensures Charged(Logins(l, logins), u, if logins == [] then now else logins[|logins| - 1].failed)
  {
    if logins != [] {
      var init := logins[..|logins| - 1];
      LoginsCharged(l, init, u, now);
      TriedCharged(Logins(l, init), logins[|logins| - 1], u, if init == [] then now else init[|init| - 1].failed);
    }
  }

  lemma {:induction false} NoneWithin(times: seq<int>, from: int, until: int)
    requires forall i :: 0 <= i < |times| ==> times[i] < from
    ensures Within(times, from, until) == 0
  {
    if times != [] {
      NoneWithin(times[..|times| - 1], from, until);
    }
  }

  // The login is let through, and its failure begins a record.
  predicate Opens(l: Log, login: Login) {
    Checked(l.kept, login.checked).1 && Failed(Checked(l.kept, login.checked).0, login.failed).failures == 1
  }

  // What holds of every log a run leads to: all failures lie in or before the time of the kept record.
  predicate Reached(l: Log) {
    if l.kept.None? then l.failures == []
    else l.kept.value.failures >= 1
         && forall i :: 0 <= i < |l.failures| ==> l.failures[i] <= l.kept.value.first + TEN_MINUTES
  }

  const NOTHING := Log(None, [])

  lemma {:induction false} LoginsReached(logins: seq<Login>)
    requires Sequential(logins)
    ensures Reached(Logins(NOTHING, logins))
  {
    if logins != [] {
      LoginsReached(logins[..|logins| - 1]);
    }
  }

  lemma {:induction false} LoginsConcat(l: Log, a: seq<Login>, b: seq<Login>)
    ensures Logins(l, a + b) == Logins(Logins(l, a), b)
  {
    if b == [] {
      assert a + b == a;
    } else {
      assert (a + b)[..|a + b| - 1] == a + b[..|b| - 1];
      LoginsConcat(l, a, b[..|b| - 1]);
    }
  }

  /**
   Any run of sequential logins of an address without a success: in the ten minutes that begin
   with the first failure of any record, at most five failures are counted in all.
   */
  lemma {:induction false} FiveFailures(logins: seq<Login>, k: nat)
    requires Sequential(logins) && k < |logins| && Opens(Logins(NOTHING, logins[..k]), logins[k])
    ensures var u := logins[k].failed; Within(Logins(NOTHING, logins).failures, u, u + TEN_MINUTES) <= 5
  {
    hide Logins, Within, Opens, Reached, Tried, Sequential;
    var before, after := logins[..k], logins[k + 1..];
    SequentialParts(logins, k);
    LoginsReached(before);
    assert logins == before + ([logins[k]] + after);
    LoginsConcat(NOTHING, before, [logins[k]] + after);
    LoginsConcat(Logins(NOTHING, before), [logins[k]], after);
    LoginsOne(Logins(NOTHING, before), logins[k]);
    FiveAfter(Logins(NOTHING, before), logins[k], after);
  }

  lemma SequentialParts(logins: seq<Login>, k: nat)
    requires Sequential(logins) && k < |logins|
    ensures Sequential(logins[..k]) && Sequential([logins[k]] + logins[k + 1..])
  {
    assert [logins[k]] + logins[k + 1..] == logins[k..];
  }

  lemma {:induction false} LoginsOne(l: Log, login: Login)
    ensures Logins(l, [login]) == Tried(l, login)
  {
    assert [login][..0] == [];
    assert Logins(l, []) == l;
  }

  // From the first failure of a record on, whatever came before.
  lemma {:induction false} FiveAfter(before: Log, login: Login, after: seq<Login>)
    requires Reached(before) && Opens(before, login) && Sequential([login] + after)
    ensures var u := login.failed; Within(Logins(Tried(before, login), after).failures, u, u + TEN_MINUTES) <= 5
  {
    var u := login.failed;
    AfterFirst(login, after);
    hide Within, Sequential, Logins;
    OpensCharged(before, login);
    LoginsCharged(Tried(before, login), after, u, u);
  }

  lemma AfterFirst(login: Login, after: seq<Login>)
    requires Sequential([login] + after)
    ensures login.checked <= login.failed && Sequential(after) && (after != [] ==> login.failed <= after[0].checked)
  {
    var all := [login] + after;
    assert all[0] == login;
    assert forall i :: 0 <= i < |after| ==> after[i] == all[i + 1];
  }

  // The record the failure begins counts it, and nothing that came before.
  lemma OpensCharged(before: Log, login: Login)
    requires Reached(before) && Opens(before, login) && login.checked <= login.failed
    ensures Charged(Tried(before, login), login.failed, login.failed)
  {
    hide Within;
    var u := login.failed;
    EarlierFailures(before, login);
    NoneWithin(before.failures, u, u + TEN_MINUTES);
    WithinSnoc(before.failures, u, u, u + TEN_MINUTES);
    hide Reached;
    assert Tried(before, login) == Log(Some(Attempt(1, u, None)), before.failures + [u]);
  }

  lemma EarlierFailures(before: Log, login: Login)
    requires Reached(before) && Opens(before, login) && login.checked <= login.failed
    ensures forall i :: 0 <= i < |before.failures| ==> before.failures[i] < login.failed
  {}

  // Where the current record begins: at the first failure more than ten minutes after the last beginning.
  function StartOf(times: seq<int>): (k: nat)
    requires times != []
    ensures k < |times|
  {
    var n := |times| - 1;
    if n == 0 then 0
    else
      var k := StartOf(times[..n]);
      if times[n] - times[k] > TEN_MINUTES then n else k
  }

  lemma {:induction false} RecordKept(logins: seq<Login>)
    requires Sequential(logins)
    ensures RecordFits(Logins(NOTHING, logins))
  {
    if logins != [] {
      var init, login := logins[..|logins| - 1], logins[|logins| - 1];
      RecordKept(init);
      var l := Logins(NOTHING, init);
      assert login.checked <= login.failed;
      hide Sequential, Logins, RecordFits;
      RecordStep(l, login);
      assert Logins(NOTHING, logins) == Tried(l, login) by { LoginsSnoc(logins); }
    }
  }

  lemma {:induction false} LoginsSnoc(logins: seq<Login>)
    requires logins != []
    ensures Logins(NOTHING, logins) == Tried(Logins(NOTHING, logins[..|logins| - 1]), logins[|logins| - 1])
  {}

  // The kept record is that of the failures.
  predicate RecordFits(l: Log) {
    && (l.kept.None? <==> l.failures == [])
    && (l.kept.Some? ==>
          var k := StartOf(l.failures);
          l.kept.value == Attempt(|l.failures| - k, l.failures[k],
              if |l.failures| - k >= 5 then Some(l.failures[k] + TEN_MINUTES) else None))
  }

  lemma RecordStep(l: Log, login: Login)
    requires RecordFits(l) && login.checked <= login.failed
    ensures RecordFits(Tried(l, login))
  {
    hide StartOf;
    if l.failures != [] {
      StartSnoc(l.failures, login.failed);
    } else {
      assert [] + [login.failed] == [login.failed];
      StartSingle(login.failed);
    }
  }

  lemma StartSingle(time: int)
    ensures StartOf([time]) == 0
  {}

  lemma {:induction false} StartSnoc(times: seq<int>, time: int)
    requires times != []
    ensures StartOf(times + [time]) == if time - times[StartOf(times)] > TEN_MINUTES then |times| else StartOf(times)
    ensures (times + [time])[StartOf(times)] == times[StartOf(times)]
  {
    assert (times + [time])[..|times|] == times;
  }

  /** An address waits exactly while the current record has five failures and is not ten minutes old. */
  lemma {:induction false} BlockedExactly(logins: seq<Login>, now: int)
    requires Sequential(logins)
    ensures var l := Logins(NOTHING, logins);
            !Checked(l.kept, now).1 <==>
              && l.failures != [] && |l.failures| - StartOf(l.failures) >= 5
              && now < l.failures[StartOf(l.failures)] + TEN_MINUTES
  {
    RecordKept(logins);
    hide Logins, StartOf;
  }
}
