/**
 Traffic accounting (internal/store/traffic.go, internal/traffic/traffic.go): a ledger keyed by
 journal cursor, counters with resets, and a collector that resumes after a crash either
 behind a saved cursor or from a point in time with overlap.  Times are microseconds.
 */
module Traffic {
  import opened Text
  import opened Sorting

  datatype Event = Event(cursor: string, instance: int, upload: int, download: int, at: int)

  datatype Counter = Counter(upload: int, download: int, total: int, periodStart: int, lastEvent: Option<int>)

  // traffic_events in rowid order, and traffic_counters with one row per instance
  datatype State = State(ledger: seq<Event>, counters: map<int, Counter>)

  predicate Valid(e: Event) {
    e.cursor != "" && e.upload >= 0 && e.download >= 0
  }

  predicate Recorded(ledger: seq<Event>, cursor: string) {
    exists i :: 0 <= i < |ledger| && ledger[i].cursor == cursor
  }

  // The event passes validation, the foreign key and the cursor's uniqueness.
  predicate Accepted(st: State, e: Event) {
    Valid(e) && e.instance in st.counters && !Recorded(st.ledger, e.cursor)
  }

  function Add(c: Counter, e: Event): Counter {
    c.(upload := c.upload + e.upload, download := c.download + e.download,
       total := c.total + (e.upload + e.download), lastEvent := Some(e.at))
  }

  // ---------- the order of LastTrafficCursor ----------

  function TrimZeros(s: string): string {
    if s != "" && s[|s| - 1] == '0' then TrimZeros(s[..|s| - 1]) else s
  }

  // The last `width` decimal digits of n.
  function Fixed(n: nat, width: nat): (s: string)
    ensures |s| == width
  {
    if width == 0 then "" else Fixed(n / 10, width - 1) + [DigitChar(n % 10)]
  }

  // The digits of a fraction of a second as RFC 3339 text keeps them: trailing zeros are dropped.
  function Kept(micros: nat): string {
    TrimZeros(Fixed(micros, 6))
  }

  /** The fraction of a second and the zone, as `formatTime` writes them. */
  function FractionText(micros: nat): string {
    if micros == 0 then "Z" else "." + Kept(micros) + "Z"
  }

  // ORDER BY event_at compares the formatted texts: seconds first, then the fraction as text.
  predicate TimeTextLeq(a: int, b: int) {
    a / 1000000 < b / 1000000
    || (a / 1000000 == b / 1000000 && TextLeq(FractionText(a % 1000000), FractionText(b % 1000000)))
  }

  /** The row the query names: the last one among those with the greatest time text. */
  predicate NamedLast(ledger: seq<Event>, k: nat)
    requires k < |ledger|
  {
    && (forall i :: 0 <= i < |ledger| ==> TimeTextLeq(ledger[i].at, ledger[k].at))
    && (forall i :: k < i < |ledger| ==> !TimeTextLeq(ledger[k].at, ledger[i].at))
  }

  class Store {
    var ledger: seq<Event>
    var counters: map<int, Counter>

    constructor (instances: set<int>, now: int)
      ensures Current() == Initial(instances, now)
    {
      ledger := [];
      counters := map id | id in instances :: Counter(0, 0, 0, now, None);
    }

    function Current(): State
      reads this
    {
      State(ledger, counters)
    }

    /** One transaction; `works` is false when the database fails and it rolls back. */
    method ApplyTrafficEvent(e: Event, works: bool) returns (applied: bool, error: bool)
      modifies this
      ensures applied <==> works && Accepted(old(Current()), e)
      ensures Current() == Apply(old(Current()), e, works)
      ensures works && Valid(e) && e.instance in old(counters) ==> !error
      ensures applied ==> !error
    {
      if !Valid(e) || !works {
        return false, true;
      }
      for i := 0 to |ledger|
        invariant forall j :: 0 <= j < i ==> ledger[j].cursor != e.cursor
        invariant Current() == old(Current())
      {
        if ledger[i].cursor == e.cursor {
          return false, false;
        }
      }
      if e.instance !in counters {
        return false, true;
      }
      ledger := ledger + [e];
      counters := counters[e.instance := Add(counters[e.instance], e)];
      applied, error := true, false;
    }

    /** Zeroes a counter and keeps the ledger. */
    method ResetTraffic(id: int, at: int, works: bool) returns (done: bool)
      modifies this
      ensures done <==> works && id in old(counters)
      ensures Current() == Reset(old(Current()), id, at, works)
    {
      done := works && id in counters;
      if done {
        counters := counters[id := Counter(0, 0, 0, at, None)];
      }
    }

    method LastTrafficCursor() returns (last: Option<nat>)
      ensures last.None? <==> ledger == []
      ensures last.Some? ==> last.value < |ledger| && NamedLast(ledger, last.value)
    {
      hide TimeTextLeq;
      if ledger == [] {
        return None;
      }
      TimeTextOrder();
      var k := 0;
      for i := 1 to |ledger|
        invariant 0 <= k < i
        invariant forall j :: 0 <= j < i ==> TimeTextLeq(ledger[j].at, ledger[k].at)
        invariant forall j :: k < j < i ==> !TimeTextLeq(ledger[k].at, ledger[j].at)
      {
        if TimeTextLeq(ledger[k].at, ledger[i].at) {
          k := i;
        }
      }
      last := Some(k);
    }

    /** runJournal over the lines it was given before it stopped; errors are ignored. */
    method RunJournal(lines: seq<Line>, works: nat -> bool)
      modifies this
      ensures Current() == Collect(old(Current()), lines, works)
    {
      ghost var start := Current();
      for i := 0 to |lines|
        invariant Collect(start, lines, works) == CollectFrom(Current(), lines, i, works)
      {
        if lines[i].event.Some? {
          var _, _ := ApplyTrafficEvent(lines[i].event.value, works(i));
        }
      }
    }
  }

  lemma TimeTextOrder()
    ensures forall a :: TimeTextLeq(a, a)
    ensures forall a, b :: TimeTextLeq(a, b) || TimeTextLeq(b, a)
    ensures forall a, b, c :: TimeTextLeq(a, b) && TimeTextLeq(b, c) ==> TimeTextLeq(a, c)
  {
    TextOrder();
    hide FractionText, TextLeq;
  }

  function Initial(instances: set<int>, now: int): State {
    State([], map id | id in instances :: Counter(0, 0, 0, now, None))
  }

  function Apply(st: State, e: Event, works: bool): State {
    if works && Accepted(st, e)
    then State(st.ledger + [e], st.counters[e.instance := Add(st.counters[e.instance], e)])
    else st
  }

  function Reset(st: State, id: int, at: int, works: bool): State {
    if works && id in st.counters then st.(counters := st.counters[id := Counter(0, 0, 0, at, None)]) else st
  }

  // A journal line; most are not traffic events.
  datatype Line = Line(cursor: string, time: int, event: Option<Event>)

  function CollectFrom(st: State, lines: seq<Line>, i: nat, works: nat -> bool): State
    requires i <= |lines|
    decreases |lines| - i
  {
    if i == |lines| then st
    else CollectFrom(if lines[i].event.Some? then Apply(st, lines[i].event.value, works(i))
        else st, lines, i + 1, works)
  }

  function Collect(st: State, lines: seq<Line>, works: nat -> bool): State {
    CollectFrom(st, lines, 0, works)
  }

  // ---------- exactly once, against the history ----------

  datatype Op = Deliver(e: Event, works: bool) | Clear(id: int, at: int, works: bool)

  function Do(st: State, op: Op): State {
    match op
    case Deliver(e, works) => Apply(st, e, works)
    case Clear(id, at, works) => Reset(st, id, at, works)
  }

  function Run(st: State, ops: seq<Op>): State {
    if ops == [] then st else Do(Run(st, ops[..|ops| - 1]), ops[|ops| - 1])
  }

  // The operation is a working delivery of a valid event of a known instance.
  predicate Delivers(instances: set<int>, op: Op) {
    op.Deliver? && op.works && Valid(op.e) && op.e.instance in instances
  }

  /** The first operation of the history that delivers its cursor. */
  predicate First(instances: set<int>, ops: seq<Op>, i: nat)
    requires i < |ops|
  {
    Delivers(instances, ops[i]) && forall j :: 0 <= j < i && Delivers(instances, ops[j]) ==>
          ops[j].e.cursor != ops[i].e.cursor
  }

  predicate Clears(op: Op, id: int) {
    op.Clear? && op.works && op.id == id
  }

  // Nothing clears the counter from position i on.
  predicate Survives(ops: seq<Op>, i: nat, id: int) {
    forall j :: i <= j < |ops| ==> !Clears(ops[j], id)
  }

  /** What position i of a history is worth to a counter: its bytes, if it is first and survives. */
  function Share(instances: set<int>, ops: seq<Op>, i: nat, id: int): (int, int)
    requires i < |ops|
  {
    if First(instances, ops, i) && ops[i].e.instance == id && Survives(ops, i, id)
        then (ops[i].e.upload, ops[i].e.download) else (0, 0)
  }

  /** The sum over the first n positions of a history. */
  function Owed(instances: set<int>, ops: seq<Op>, n: nat, id: int): (int, int)
    requires n <= |ops|
  {
    if n == 0 then (0, 0)
    else
      var (up, down) := Owed(instances, ops, n - 1, id);
      var (u, d) := Share(instances, ops, n - 1, id);
      (up + u, down + d)
  }

  lemma {:induction false} OwedCleared(instances: set<int>, ops: seq<Op>, n: nat, id: int)
    requires n < |ops| && Clears(ops[|ops| - 1], id)
    ensures Owed(instances, ops, n, id) == (0, 0)
  {
    if n > 0 {
      OwedCleared(instances, ops, n - 1, id);
      assert !Survives(ops, n - 1, id);
    }
  }

  lemma {:induction false} OwedPrefix(instances: set<int>, ops: seq<Op>, n: nat, id: int)
    requires n < |ops| && !Clears(ops[|ops| - 1], id)
    ensures Owed(instances, ops, n, id) == Owed(instances, ops[..|ops| - 1], n, id)
  {
    if n > 0 {
      var front := ops[..|ops| - 1];
      OwedPrefix(instances, ops, n - 1, id);
      assert forall j :: 0 <= j < |front| ==> front[j] == ops[j];
      assert Survives(ops, n - 1, id) <==> Survives(front, n - 1, id);
      assert First(instances, ops, n - 1) <==> First(instances, front, n - 1);
    }
  }

  // The event of a row is what the first working delivery of its cursor brought.
  ghost predicate FirstBrought(instances: set<int>, ops: seq<Op>, e: Event) {
    exists i :: 0 <= i < |ops| && First(instances, ops, i) && ops[i].e == e
  }

  /** A cursor is in the ledger exactly when some operation delivered it; it is there once, as first delivered. */
  ghost predicate LedgerOf(instances: set<int>, ops: seq<Op>, ledger: seq<Event>) {
    && (forall i, j :: 0 <= i < j < |ledger| ==> ledger[i].cursor != ledger[j].cursor)
    && (forall r :: 0 <= r < |ledger| ==> FirstBrought(instances, ops, ledger[r]))
    && (forall c ::
          Recorded(ledger, c) <==> exists i :: 0 <= i < |ops| && Delivers(instances, ops[i]) && ops[i].e.cursor == c)
  }

  lemma {:induction false} LedgerCorrect(instances: set<int>, now: int, ops: seq<Op>)
    ensures var st := Run(Initial(instances, now), ops);
            st.counters.Keys == instances && LedgerOf(instances, ops, st.ledger)
  {
    if ops != [] {
      var n := |ops| - 1;
      var front, op := ops[..n], ops[n];
      LedgerCorrect(instances, now, front);
      var st := Run(Initial(instances, now), front);
      LedgerStep(instances, front, op, st);
      assert front + [op] == ops;
    }
  }

  lemma LedgerStep(instances: set<int>, front: seq<Op>, op: Op, st: State)
    requires st.counters.Keys == instances && LedgerOf(instances, front, st.ledger)
    ensures Do(st, op).counters.Keys == instances && LedgerOf(instances, front + [op], Do(st, op).ledger)
  {
    var ops, next := front + [op], Do(st, op);
    assert forall i :: 0 <= i < |front| ==> ops[i] == front[i];
    forall r | 0 <= r < |next.ledger| ensures FirstBrought(instances, ops, next.ledger[r]) {
      if r < |st.ledger| {
        assert next.ledger[r] == st.ledger[r];
        var i :| 0 <= i < |front| && First(instances, front, i) && front[i].e == st.ledger[r];
        assert First(instances, ops, i) && ops[i].e == st.ledger[r];
      } else {
        NewIsFirst(instances, front, op, st);
        assert ops[|front|].e == next.ledger[r];
      }
    }
    forall c
      ensures Recorded(next.ledger, c)
              <==> exists i :: 0 <= i < |ops| && Delivers(instances, ops[i]) && ops[i].e.cursor == c
    {
      if Delivers(instances, op) && op.e.cursor == c {
        assert ops[|front|] == op;
        assert Recorded(st.ledger, c) || next.ledger[|st.ledger|].cursor == c;
      } else {
        assert Recorded(next.ledger, c) <==> Recorded(st.ledger, c) by { RecordedOther(st, op, c, instances); }
        if i :| 0 <= i < |front| && Delivers(instances, front[i]) && front[i].e.cursor == c {
          assert ops[i].e.cursor == c;
        }
      }
    }
  }

  lemma NewIsFirst(instances: set<int>, front: seq<Op>, op: Op, st: State)
    requires st.counters.Keys == instances && LedgerOf(instances, front, st.ledger) && op.Deliver? && op.works
             && Accepted(st, op.e)
    ensures First(instances, front + [op], |front|)
  {
    var ops := front + [op];
    assert forall i :: 0 <= i < |front| ==> ops[i] == front[i];
    assert ops[|front|] == op;
  }

  lemma RecordedOther(st: State, op: Op, c: string, instances: set<int>)
    requires st.counters.Keys == instances && !(Delivers(instances, op) && op.e.cursor == c)
    ensures Recorded(Do(st, op).ledger, c) <==> Recorded(st.ledger, c)
  {
    var next := Do(st, op).ledger;
    if Recorded(st.ledger, c) {
      var i :| 0 <= i < |st.ledger| && st.ledger[i].cursor == c;
      assert next[i].cursor == c;
    }
  }

  /**
   Exactly once: whatever is delivered, again and again, and however counters are cleared in
   between, each counter equals the sum over the first working deliveries of the distinct
   cursors since its last clearing, and total is the sum of the two directions.
   */
  lemma {:induction false} ExactlyOnce(instances: set<int>, now: int, ops: seq<Op>, id: int)
    requires id in instances
    ensures var c := Run(Initial(instances, now), ops).counters;
            id in c && (c[id].upload, c[id].download) == Owed(instances, ops, |ops|, id)
                && c[id].total == c[id].upload + c[id].download
  {
    if ops != [] {
      var n := |ops| - 1;
      var front, op := ops[..n], ops[n];
      ExactlyOnce(instances, now, front, id);
      LedgerCorrect(instances, now, front);
      var st := Run(Initial(instances, now), front);
      if Clears(op, id) {
        OwedCleared(instances, ops, n, id);
      } else {
        OwedPrefix(instances, ops, n, id);
        assert Survives(ops, n, id);
        if Delivers(instances, op) {
          assert Accepted(st, op.e) <==> First(instances, ops, n);
        }
      }
    }
  }

  // Position i of a history is part of the counter.
  predicate CountsTo(instances: set<int>, ops: seq<Op>, i: nat, id: int)
    requires i < |ops|
  {
    First(instances, ops, i) && ops[i].e.instance == id && Survives(ops, i, id)
  }

  // The time of the last event that is part of the counter, if any is.
  ghost predicate LastStamp(instances: set<int>, ops: seq<Op>, id: int, last: Option<int>) {
    match last
    case None => forall i :: 0 <= i < |ops| ==> !CountsTo(instances, ops, i, id)
    case Some(at) =>
      exists i :: 0 <= i < |ops| && CountsTo(instances, ops, i, id) && ops[i].e.at == at
                  && forall k :: i < k < |ops| ==> !CountsTo(instances, ops, k, id)
  }

  // The time of the last clearing, or of the creation.
  ghost predicate PeriodBegan(ops: seq<Op>, id: int, now: int, start: int) {
    || (start == now && forall i :: 0 <= i < |ops| ==> !Clears(ops[i], id))
    || exists i :: 0 <= i < |ops| && Clears(ops[i], id) && ops[i].at == start
                   && forall k :: i < k < |ops| ==> !Clears(ops[k], id)
  }

  lemma CountsOn(instances: set<int>, ops: seq<Op>, i: nat, id: int)
    requires i < |ops| - 1
    ensures var front, op := ops[..|ops| - 1], ops[|ops| - 1];
            CountsTo(instances, ops, i, id) <==> CountsTo(instances, front, i, id) && !Clears(op, id)
  {
    var front := ops[..|ops| - 1];
    assert forall j :: 0 <= j < |front| ==> front[j] == ops[j];
    assert First(instances, ops, i) <==> First(instances, front, i);
    hide First;
  }

  lemma StampStep(instances: set<int>, ops: seq<Op>, id: int, last: Option<int>)
    requires ops != [] && LastStamp(instances, ops[..|ops| - 1], id, last)
    ensures var n := |ops| - 1;
            LastStamp(instances, ops, id,
                if Clears(ops[n], id) then None
                else if CountsTo(instances, ops, n, id) then Some(ops[n].e.at) else last)
  {
    var n := |ops| - 1;
    var front := ops[..n];
    forall i | 0 <= i < n
      ensures CountsTo(instances, ops, i, id) <==> CountsTo(instances, front, i, id) && !Clears(ops[n], id)
    {
      CountsOn(instances, ops, i, id);
    }
    assert Clears(ops[n], id) ==> !CountsTo(instances, ops, n, id);
    hide CountsTo, Clears;
    if last.Some? {
      var i :| 0 <= i < n && CountsTo(instances, front, i, id) && front[i].e.at == last.value
          && forall k :: i < k < n ==> !CountsTo(instances, front, k, id);
      assert ops[i] == front[i];
    }
  }

  lemma PeriodStep(ops: seq<Op>, id: int, now: int, start: int)
    requires ops != [] && PeriodBegan(ops[..|ops| - 1], id, now, start)
    ensures var op := ops[|ops| - 1]; PeriodBegan(ops, id, now, if Clears(op, id) then op.at else start)
  {
    var n := |ops| - 1;
    var front := ops[..n];
    assert forall i :: 0 <= i < n ==> front[i] == ops[i];
    if i :| 0 <= i < n && Clears(front[i], id) && front[i].at == start
            && (forall k :: i < k < n ==> !Clears(front[k], id))
    {
      assert Clears(ops[i], id);
    }
  }

  /** Each counter names the time of its last event, and when its period began. */
  lemma {:induction false} Stamped(instances: set<int>, now: int, ops: seq<Op>, id: int)
    requires id in instances
    ensures var c := Run(Initial(instances, now), ops).counters;
            id in c && LastStamp(instances, ops, id, c[id].lastEvent) && PeriodBegan(ops, id, now, c[id].periodStart)
  {
    if ops != [] {
      var n := |ops| - 1;
      var front, op := ops[..n], ops[n];
      Stamped(instances, now, front, id);
      LedgerCorrect(instances, now, front);
      var st := Run(Initial(instances, now), front);
      LastCounts(instances, ops, st, id);
      StampStep(instances, ops, id, st.counters[id].lastEvent);
      PeriodStep(ops, id, now, st.counters[id].periodStart);
      hide LastStamp, PeriodBegan, LedgerOf, CountsTo, Clears, Delivers, Accepted;
      OpStamps(st, op, id, instances);
    }
  }

  // The last operation of a history is part of a counter exactly when it is accepted for it.
  lemma LastCounts(instances: set<int>, ops: seq<Op>, st: State, id: int)
    requires ops != [] && st.counters.Keys == instances && LedgerOf(instances, ops[..|ops| - 1], st.ledger)
    ensures var n := |ops| - 1;
            CountsTo(instances, ops, n, id) <==>
              (ops[n].Deliver? && ops[n].works && Accepted(st, ops[n].e) && ops[n].e.instance == id)
  {
    var n := |ops| - 1;
    var front := ops[..n];
    assert forall j :: 0 <= j < n ==> front[j] == ops[j];
    assert Survives(ops, n, id) <==> !Clears(ops[n], id);
    if Delivers(instances, ops[n]) {
      assert Accepted(st, ops[n].e) <==> First(instances, ops, n);
    }
  }

  lemma OpStamps(st: State, op: Op, id: int, instances: set<int>)
    requires st.counters.Keys == instances && id in instances
    ensures var c, d := st.counters[id], Do(st, op).counters;
            && id in d
            && d[id].lastEvent == (if Clears(op, id) then None
                else if op.Deliver? && op.works && Accepted(st, op.e) && op.e.instance == id then Some(op.e.at)
                else c.lastEvent)
            && d[id].periodStart == (if Clears(op, id) then op.at else c.periodStart)
  {
    hide Accepted;
  }

  // ---------- nothing is lost between crashes ----------

  const SECOND := 1000000

  // A journal: distinct cursors, nondecreasing times, events that carry their line's cursor and time.
  ghost predicate Journal(j: seq<Line>) {
    && (forall a, b :: 0 <= a < b < |j| ==> j[a].cursor != j[b].cursor && j[a].time <= j[b].time)
    && (forall a :: 0 <= a < |j| && j[a].event.Some? ==>
         j[a].event.value.cursor == j[a].cursor && j[a].event.value.at == j[a].time)
  }

  // --since=@seconds: one second back, in whole seconds
  function SinceTime(at: int): int {
    (at - SECOND) / SECOND * SECOND
  }

  /** The collector asks for what is between one and two seconds old and newer, from a whole second on. */
  lemma SinceExactly(at: int)
    ensures SinceTime(at) % SECOND == 0 && SinceTime(at) + SECOND <= at < SinceTime(at) + 2 * SECOND
  {}

  /** The first journal position at or after a time. */
  function FirstAt(j: seq<Line>, time: int): (s: nat)
    ensures s <= |j|
    ensures forall i :: 0 <= i < s ==> j[i].time < time
    ensures s < |j| ==> j[s].time >= time
  {
    if j == [] then 0
    else if j[0].time >= time then 0
    else 1 + FirstAt(j[1..], time)
  }

  function Position(j: seq<Line>, cursor: string): (p: nat)
    ensures p <= |j|
    ensures p < |j| ==> j[p].cursor == cursor
    ensures forall i :: 0 <= i < p ==> j[i].cursor != cursor
  {
    if j == [] then 0 else if j[0].cursor == cursor then 0 else 1 + Position(j[1..], cursor)
  }

  // One life of the collector: the instances deleted since the last one began, the ledger row it
  // resumes from, how, how many lines it handles before it stops, and which of their
  // transactions work.  With an empty ledger it starts wherever journalctl does.  An instance
  // deleted while a session runs is out of the account from the next one on.
  datatype Session = Session(removed: set<int>, row: nat, overlap: bool, count: nat, works: nat -> bool)

  // The rows of other instances, in their order.
  function Spared(ledger: seq<Event>, removed: set<int>): (r: seq<Event>)
    ensures forall e :: e in r <==> e in ledger && e.instance !in removed
    ensures removed == {} ==> r == ledger
  {
    if ledger == [] then []
    else
      var front, last := Spared(ledger[..|ledger| - 1], removed), ledger[|ledger| - 1];
      if last.instance in removed then front else front + [last]
  }

  /** Deleting instances takes their counters and, by the foreign key, their ledger rows with them. */
  function Survivors(st: State, removed: set<int>): State {
    State(Spared(st.ledger, removed), st.counters - removed)
  }

  // The row the session finds; whichever row the store names is covered.
  function Resumed(st: State, s: Session): Event
    requires st.ledger != []
  {
    st.ledger[if s.row < |st.ledger| then s.row else 0]
  }

  function Start(j: seq<Line>, st: State, s: Session): (start: nat)
    ensures start <= |j|
  {
    if st.ledger == [] then if s.row <= |j| then s.row else |j|
    else
      var row := Resumed(st, s);
      var p := Position(j, row.cursor);
      if s.overlap then FirstAt(j, SinceTime(row.at)) else if p < |j| then p + 1 else |j|
  }

  function Stop(j: seq<Line>, st: State, s: Session): (stop: nat)
    ensures Start(j, st, s) <= stop <= |j|
  {
    if Start(j, st, s) + s.count <= |j| then Start(j, st, s) + s.count else |j|
  }

  // The session finds the state `st` without what was deleted.
  function Live(j: seq<Line>, st: State, s: Session): State {
    var found := Survivors(st, s.removed);
    Collect(found, j[Start(j, found, s)..Stop(j, found, s)], s.works)
  }

  function Lives(j: seq<Line>, st: State, sessions: seq<Session>): State {
    if sessions == [] then st else Live(j, Lives(j, st, sessions[..|sessions| - 1]), sessions[|sessions| - 1])
  }

  // Everything that was deleted in a run.
  function Removed(sessions: seq<Session>): set<int> {
    if sessions == [] then {} else Removed(sessions[..|sessions| - 1]) + sessions[|sessions| - 1].removed
  }

  predicate Countable(instances: set<int>, line: Line) {
    line.event.Some? && Valid(line.event.value) && line.event.value.instance in instances
  }

  // The session is handed line i.
  predicate Handles(j: seq<Line>, st: State, s: Session, i: nat) {
    Start(j, st, s) <= i < Stop(j, st, s)
  }

  // The session is handed line i, and the transaction it starts for it works.
  predicate Counts(j: seq<Line>, st: State, s: Session, i: nat) {
    Handles(j, st, s, i) && s.works(i - Start(j, st, s))
  }

  // The state the k-th session finds.
  function Found(j: seq<Line>, st: State, sessions: seq<Session>, k: nat): State
    requires k < |sessions|
  {
    Survivors(Lives(j, st, sessions[..k]), sessions[k].removed)
  }

  /**
   When a session is handed a line again: resuming behind a saved cursor, exactly when the
   saved row lies before the line; resuming by time, exactly when the overlap reaches back to it.
   */
  lemma {:induction false} HandedAgain(j: seq<Line>, st: State, s: Session, i: nat)
    requires Journal(j) && st.ledger != [] && i < |j|
    requires Position(j, Resumed(st, s).cursor) < |j|
    ensures var row := Resumed(st, s);
            Handles(j, st, s, i) <==>
              (i < Stop(j, st, s)
               && if s.overlap then SinceTime(row.at) <= j[i].time else Position(j, row.cursor) < i)
  {
    var row := Resumed(st, s);
    var since := FirstAt(j, SinceTime(row.at));
    hide FirstAt, Position, Stop;
    assert since <= i ==> j[since].time <= j[i].time;
  }

  // A row that carries a line's cursor is the event of that line.
  ghost predicate Truthful(j: seq<Line>, st: State) {
    forall e, i :: e in st.ledger && 0 <= i < |j| && j[i].cursor == e.cursor ==> j[i].event == Some(e)
  }

  // Line i has left its row.
  predicate Listed(st: State, line: Line) {
    line.event.Some? && line.event.value in st.ledger
  }

  lemma RecordedIn(ledger: seq<Event>, cursor: string)
    ensures Recorded(ledger, cursor) <==> exists e :: e in ledger && e.cursor == cursor
  {
    if i :| 0 <= i < |ledger| && ledger[i].cursor == cursor {
      assert ledger[i] in ledger;
    }
  }

  // In a truthful ledger a line's cursor stands for the line's row.
  lemma RecordedLine(j: seq<Line>, st: State, i: nat)
    requires Truthful(j, st) && Journal(j) && i < |j|
    ensures Recorded(st.ledger, j[i].cursor) <==> Listed(st, j[i])
  {
    RecordedIn(st.ledger, j[i].cursor);
    if e :| e in st.ledger && e.cursor == j[i].cursor {
      assert j[i].event == Some(e);
    }
    if Listed(st, j[i]) {
      assert j[i].event.value.cursor == j[i].cursor;
    }
  }

  // The transaction of a line that works adds the line's row, and nothing else.
  lemma LineApplied(j: seq<Line>, st: State, k: nat, works: bool, i: nat)
    requires Journal(j) && Truthful(j, st) && k < |j| && i < |j| && j[k].event.Some?
    ensures var next := Apply(st, j[k].event.value, works);
            && Truthful(j, next) && next.counters.Keys == st.counters.Keys && st.ledger <= next.ledger
            && (Listed(next, j[i]) <==> Listed(st, j[i]) || (k == i && works && Countable(st.counters.Keys, j[i])))
  {
    var e := j[k].event.value;
    var next := Apply(st, e, works);
    RecordedLine(j, st, k);
    if works && Accepted(st, e) {
      assert next.ledger == st.ledger + [e];
      assert forall x :: x in next.ledger <==> x in st.ledger || x == e;
      assert forall m :: 0 <= m < |j| && j[m].cursor == e.cursor ==> m == k;
      assert j[i].event == Some(e) ==> j[i].cursor == e.cursor;
    }
    hide Recorded;
  }

  // From the n-th line on a collected line leaves its row exactly when its transaction works.
  lemma {:induction false} LinesRecord(j: seq<Line>, st: State, start: nat, stop: nat, n: nat, works: nat -> bool,
      i: nat)
    requires Journal(j) && Truthful(j, st) && start <= stop <= |j| && n <= stop - start && i < |j|
    ensures var next := CollectFrom(st, j[start..stop], n, works);
            && Truthful(j, next) && next.counters.Keys == st.counters.Keys && st.ledger <= next.ledger
            && (Listed(next, j[i]) <==>
                  (Listed(st, j[i])
                   || (Countable(st.counters.Keys, j[i]) && start + n <= i < stop && works(i - start))))
    decreases stop - start - n
  {
    hide Journal, Truthful, Listed, Countable, Apply;
    var lines := j[start..stop];
    if n < |lines| {
      var line := j[start + n];
      assert lines[n] == line;
      var mid := if line.event.Some? then Apply(st, line.event.value, works(n)) else st;
      if line.event.Some? {
        LineApplied(j, st, start + n, works(n), i);
      }
      LinesRecord(j, mid, start, stop, n + 1, works, i);
      if start + n == i && line.event.None? {
        NotCountable(st.counters.Keys, line);
      }
    }
  }

  lemma NotCountable(instances: set<int>, line: Line)
    requires line.event.None?
    ensures !Countable(instances, line)
  {}

  lemma SurvivorsTruthful(j: seq<Line>, st: State, removed: set<int>, i: nat)
    requires Truthful(j, st) && i < |j|
    ensures Truthful(j, Survivors(st, removed))
    ensures Listed(Survivors(st, removed), j[i]) <==> Listed(st, j[i]) && j[i].event.value.instance !in removed
    ensures Countable(st.counters.Keys - removed, j[i])
            <==> Countable(st.counters.Keys, j[i]) && j[i].event.value.instance !in removed
  {
    hide Spared;
  }

  // One session: a line has its row afterwards exactly when it had one that was not deleted, or the session counts it.
  lemma SessionRecords(j: seq<Line>, st: State, s: Session, i: nat)
    requires Journal(j) && Truthful(j, st) && i < |j|
    ensures var found, next := Survivors(st, s.removed), Live(j, st, s);
            && Truthful(j, next) && next.counters.Keys == st.counters.Keys - s.removed && found.ledger <= next.ledger
            && (Listed(next, j[i]) <==>
                  ((Listed(st, j[i]) && j[i].event.value.instance !in s.removed)
                   || (Countable(next.counters.Keys, j[i]) && Counts(j, found, s, i))))
  {
    hide CollectFrom, Start, Stop, Journal, Listed, Countable, Truthful, Survivors;
    var found := Survivors(st, s.removed);
    SurvivorsTruthful(j, st, s.removed, i);
    assert found.counters.Keys == st.counters.Keys - s.removed by { SurvivorsKeys(st, s.removed); }
    LinesRecord(j, found, Start(j, found, s), Stop(j, found, s), 0, s.works, i);
  }

  lemma SurvivorsKeys(st: State, removed: set<int>)
    ensures Survivors(st, removed).counters.Keys == st.counters.Keys - removed
  {}

  // Some session was handed line i and its transaction worked.
  ghost predicate Counted(j: seq<Line>, st: State, sessions: seq<Session>, i: nat) {
    exists k :: 0 <= k < |sessions| && Counts(j, Found(j, st, sessions, k), sessions[k], i)
  }

  /**
   Over any run of sessions, with any transactions failing and any instances deleted: a line
   has its row in the ledger in the end exactly when it had one before and its instance was
   not deleted, or it is countable, its instance being there, and some session that was
   handed it had a working transaction for it.
   */
  lemma {:induction false} RecordedExactly(j: seq<Line>, st: State, sessions: seq<Session>, i: nat)
    requires Journal(j) && Truthful(j, st) && i < |j|
    ensures var last := Lives(j, st, sessions);
            && Truthful(j, last) && last.counters.Keys == st.counters.Keys - Removed(sessions)
            && (Listed(last, j[i]) <==>
                  ((Listed(st, j[i]) && j[i].event.value.instance !in Removed(sessions))
                   || (Countable(last.counters.Keys, j[i]) && Counted(j, st, sessions, i))))
  {
    hide Journal, Truthful, Live, Listed, Countable, Counts, Survivors, Counted;
    if sessions == [] {
      NotCounted(j, st, i);
    } else {
      var n := |sessions| - 1;
      var front, s := sessions[..n], sessions[n];
      RecordedExactly(j, st, front, i);
      var before := Lives(j, st, front);
      SessionRecords(j, before, s, i);
      CountedFront(j, st, sessions, i);
      FewerCountable(before.counters.Keys, s.removed, j[i]);
      hide Lives;
      ListedEvent(st, j[i]);
      ListedEvent(before, j[i]);
      if Listed(before, j[i]) && Countable(before.counters.Keys, j[i]) {
        assert Countable(before.counters.Keys - s.removed, j[i]) <==> j[i].event.value.instance !in s.removed;
      }
    }
  }

  lemma NotCounted(j: seq<Line>, st: State, i: nat)
    ensures !Counted(j, st, [], i)
  {}

  lemma ListedEvent(st: State, line: Line)
    ensures Listed(st, line) ==> line.event.Some?
  {}

  lemma FewerCountable(instances: set<int>, removed: set<int>, line: Line)
    ensures Countable(instances - removed, line)
            <==> Countable(instances, line) && line.event.value.instance !in removed
    ensures Countable(instances, line) ==> line.event.Some?
  {}

  // The sessions before the last find the same states without it.
  lemma {:induction false} CountedFront(j: seq<Line>, st: State, sessions: seq<Session>, i: nat)
    requires sessions != []
    ensures var n := |sessions| - 1;
            Counted(j, st, sessions, i) <==>
              (Counted(j, st, sessions[..n], i)
               || Counts(j, Survivors(Lives(j, st, sessions[..n]), sessions[n].removed), sessions[n], i))
  {
    hide Counts, Lives, Survivors;
    var n := |sessions| - 1;
    var front := sessions[..n];
    assert forall k :: 0 <= k < n ==> front[..k] == sessions[..k] && front[k] == sessions[k];
    if k :| 0 <= k < n && Counts(j, Found(j, st, front, k), front[k], i) {
      assert Counts(j, Found(j, st, sessions, k), sessions[k], i);
    }
    if k :| 0 <= k < |sessions| && Counts(j, Found(j, st, sessions, k), sessions[k], i) {
      assert k < n ==> Counts(j, Found(j, st, front, k), front[k], i);
    }
    assert Counts(j, Found(j, st, sessions, n), sessions[n], i) ==> Counted(j, st, sessions, i);
  }

  // The ledger holds lines before `to` only.
  ghost predicate Known(j: seq<Line>, st: State, to: nat) {
    to <= |j| && forall e :: e in st.ledger ==> exists i :: 0 <= i < to && j[i].event == Some(e)
  }

  lemma SurvivorsKnown(j: seq<Line>, st: State, removed: set<int>, to: nat)
    requires Known(j, st, to)
    ensures Known(j, Survivors(st, removed), to)
  {}

  // Wherever the saved row is, the collector resumes at or before the first line no session has reached.
  lemma {:induction false} ResumesInTime(j: seq<Line>, st: State, s: Session, to: nat)
    requires Journal(j) && Known(j, st, to) && st.ledger != []
    ensures Start(j, st, s) <= to
  {
    var row := Resumed(st, s);
    assert row in st.ledger;
    var i :| 0 <= i < to && j[i].event == Some(row);
    var p := Position(j, row.cursor);
    assert j[i].cursor == row.cursor && p <= i;
    var first := FirstAt(j, SinceTime(row.at));
    assert SinceTime(row.at) <= row.at == j[i].time;
    assert first <= i;
  }

  /**
   A deletion can open a gap exactly when it takes the last rows: then, and only then, is
   there a way for the next session to start behind lines that no session has reached.
   */
  lemma DeletionOpensGap(j: seq<Line>, st: State, removed: set<int>, to: nat)
    requires Journal(j) && Known(j, st, to) && to < |j|
    ensures (exists s: Session :: Start(j, Survivors(st, removed), s) > to)
            <==> forall e :: e in st.ledger ==> e.instance in removed
  {
    var found := Survivors(st, removed);
    SurvivorsKnown(j, st, removed, to);
    hide Journal, Known;
    if found.ledger == [] {
      var s := Session({}, |j|, false, 0, _ => true);
      assert Start(j, found, s) == |j| > to;
      assert forall e :: e in st.ledger ==> e in found.ledger || e.instance in removed;
    } else {
      assert found.ledger[0] in st.ledger && found.ledger[0].instance !in removed
          by { assert found.ledger[0] in found.ledger; }
      forall s: Session ensures Start(j, found, s) <= to {
        ResumesInTime(j, found, s, to);
      }
    }
  }

  lemma {:induction false} LinesKnown(j: seq<Line>, st: State, start: nat, stop: nat, n: nat, works: nat -> bool,
      to: nat)
    requires Known(j, st, to) && start <= stop <= to && n <= stop - start
    ensures Known(j, CollectFrom(st, j[start..stop], n, works), to)
    decreases stop - start - n
  {
    var lines := j[start..stop];
    if n < |lines| {
      var line := j[start + n];
      assert lines[n] == line;
      var mid := if line.event.Some? then Apply(st, line.event.value, works(n)) else st;
      assert Known(j, mid, to) by { LineKnown(j, st, start + n, works(n), to); }
      hide Known, Apply;
      LinesKnown(j, mid, start, stop, n + 1, works, to);
    }
  }

  lemma LineKnown(j: seq<Line>, st: State, k: nat, works: bool, to: nat)
    requires Known(j, st, to) && k < to
    ensures Known(j, if j[k].event.Some? then Apply(st, j[k].event.value, works) else st, to)
  {
    hide Recorded, Valid;
  }

  function Greater(a: nat, b: nat): nat {
    if a > b then a else b
  }

  // The furthest line handed to any of the sessions.
  function Furthest(j: seq<Line>, st: State, sessions: seq<Session>): nat {
    if sessions == [] then 0
    else
      var n := |sessions| - 1;
      Greater(Stop(j, Found(j, st, sessions, n), sessions[n]), Furthest(j, st, sessions[..n]))
  }

  lemma SessionKnown(j: seq<Line>, st: State, s: Session, to: nat)
    requires Known(j, st, to)
    ensures Known(j, Live(j, st, s), Greater(Stop(j, Survivors(st, s.removed), s), to))
  {
    var found := Survivors(st, s.removed);
    var end := Greater(Stop(j, found, s), to);
    assert Known(j, st, end);
    SurvivorsKnown(j, st, s.removed, end);
    hide Known, CollectFrom, Start, Stop, Survivors;
    LinesKnown(j, found, Start(j, found, s), Stop(j, found, s), 0, s.works, end);
  }

  lemma {:induction false} SessionsKnown(j: seq<Line>, st: State, to: nat, sessions: seq<Session>)
    requires Known(j, st, to)
    ensures Known(j, Lives(j, st, sessions), Greater(Furthest(j, st, sessions), to))
  {
    hide Known, Start, Stop, Live, Survivors;
    if sessions != [] {
      var front, s := sessions[..|sessions| - 1], sessions[|sessions| - 1];
      SessionsKnown(j, st, to, front);
      SessionKnown(j, Lives(j, st, front), s, Greater(Furthest(j, st, front), to));
    }
  }

  // Every session finds a row.
  predicate RowsRemain(j: seq<Line>, st: State, sessions: seq<Session>) {
    forall k :: 0 <= k < |sessions| ==> Found(j, st, sessions, k).ledger != []
  }

  // Some session was handed line i.
  ghost predicate Handed(j: seq<Line>, st: State, sessions: seq<Session>, i: nat) {
    exists k :: 0 <= k < |sessions| && Handles(j, Found(j, st, sessions, k), sessions[k], i)
  }

  /**
   No gaps: as long as every session finds a row, every line up to the furthest one any session
   reached was handed to some session, however often the collector crashed, whichever saved
   row it resumed from, by either path, and whatever transactions failed.
   */
  lemma {:induction false} NoGaps(j: seq<Line>, st: State, to: nat, sessions: seq<Session>, i: nat)
    requires Journal(j) && Known(j, st, to) && RowsRemain(j, st, sessions) && to <= i < Furthest(j, st, sessions)
    ensures Handed(j, st, sessions, i)
  {
    hide Known, Journal, Start, Stop, Live, Survivors;
    var n := |sessions| - 1;
    var front, s := sessions[..n], sessions[n];
    assert forall k :: 0 <= k < n ==> front[..k] == sessions[..k] && front[k] == sessions[k];
    if i < Furthest(j, st, front) {
      assert forall k :: 0 <= k < n ==> Found(j, st, front, k) == Found(j, st, sessions, k);
      NoGaps(j, st, to, front, i);
      var k :| 0 <= k < |front| && Handles(j, Found(j, st, front, k), front[k], i);
      assert Handles(j, Found(j, st, sessions, k), sessions[k], i);
    } else {
      SessionsKnown(j, st, to, front);
      SurvivorsKnown(j, Lives(j, st, front), s.removed, Greater(Furthest(j, st, front), to));
      ResumesInTime(j, Found(j, st, sessions, n), s, Greater(Furthest(j, st, front), to));
      assert Handles(j, Found(j, st, sessions, n), sessions[n], i);
    }
  }

  /**
   Nothing is lost but by a failing transaction, a deletion, or an empty ledger: if every
   session finds a row, a countable line that the sessions went past and whose instance is
   still there has its row if no session that was handed it had its transaction fail.
   */
  lemma {:induction false} NothingLost(j: seq<Line>, st: State, to: nat, sessions: seq<Session>, i: nat)
    requires Journal(j) && Known(j, st, to) && Truthful(j, st) && RowsRemain(j, st, sessions)
    requires to <= i < Furthest(j, st, sessions) && i < |j| && Countable(Lives(j, st, sessions).counters.Keys, j[i])
    requires forall k :: 0 <= k < |sessions| && Handles(j, Found(j, st, sessions, k), sessions[k], i) ==>
               Counts(j, Found(j, st, sessions, k), sessions[k], i)
    ensures Listed(Lives(j, st, sessions), j[i])
  {
    NoGaps(j, st, to, sessions, i);
    RecordedExactly(j, st, sessions, i);
    assert Counted(j, st, sessions, i) by { HandedCounts(j, st, sessions, i); }
    hide *;
  }

  lemma HandedCounts(j: seq<Line>, st: State, sessions: seq<Session>, i: nat)
    requires Handed(j, st, sessions, i)
    requires forall k :: 0 <= k < |sessions| && Handles(j, Found(j, st, sessions, k), sessions[k], i) ==>
               Counts(j, Found(j, st, sessions, k), sessions[k], i)
    ensures Counted(j, st, sessions, i)
  {
    hide Counts, Handles, Found;
  }

  /** The first session of an empty ledger is where the account begins: its rows are lines it was handed. */
  lemma FirstSession(j: seq<Line>, instances: set<int>, now: int, s: Session)
    ensures var st := Initial(instances, now);
            && Known(j, Live(j, st, s), Stop(j, Survivors(st, s.removed), s)) && Truthful(j, st)
  {
    var st := Initial(instances, now);
    SessionKnown(j, st, s, 0);
  }

  /**
   The collector drops the error of a failed transaction.  Here two lines arrive, the first
   transaction fails, the second works, and a session that resumes behind the saved cursor is
   not handed the first line again.
   */
  lemma FailedEventIsSkipped(a: Event, b: Event, s: Session, next: Session)
    requires Valid(a) && Valid(b) && a.cursor != b.cursor && a.at <= b.at && a.instance == b.instance == 7
    requires s.row == 0 && s.count == 2 && !s.works(0) && s.works(1) && !next.overlap && s.removed == next.removed == {}
    ensures var j := [Line(a.cursor, a.at, Some(a)), Line(b.cursor, b.at, Some(b))];
            Journal(j) && Lives(j, Initial({7}, 0), [s, next]).ledger == [b]
  {
    var j := [Line(a.cursor, a.at, Some(a)), Line(b.cursor, b.at, Some(b))];
    var st0 := Initial({7}, 0);
    FirstOfTwo(a, b, s);
    hide Live, Valid, Initial;
    SecondOfTwo(a, b, Live(j, st0, s), next);
    assert [s, next][..1] == [s] && [s][..0] == [];
    assert Lives(j, st0, []) == st0;
    assert Lives(j, st0, [s]) == Live(j, st0, s);
  }

  // The first session counts the second line only.
  lemma FirstOfTwo(a: Event, b: Event, s: Session)
    requires Valid(b) && b.instance == 7 && s.row == 0 && s.count == 2 && !s.works(0) && s.works(1) && s.removed == {}
    ensures var j := [Line(a.cursor, a.at, Some(a)), Line(b.cursor, b.at, Some(b))];
            Live(j, Initial({7}, 0), s).ledger == [b]
  {
    var j := [Line(a.cursor, a.at, Some(a)), Line(b.cursor, b.at, Some(b))];
    var st0 := Initial({7}, 0);
    assert Survivors(st0, {}) == st0 && st0.ledger == [];
    assert Start(j, st0, s) == 0 && Stop(j, st0, s) == 2 && j[0..2] == j;
    hide Valid;
    assert Accepted(st0, b);
    assert Apply(st0, a, false) == st0 && Apply(st0, b, true).ledger == [b];
    hide Apply, Initial, Start, Stop, Survivors;
    assert CollectFrom(st0, j, 0, s.works) == CollectFrom(st0, j, 1, s.works);
    assert CollectFrom(st0, j, 1, s.works) == CollectFrom(Apply(st0, b, true), j, 2, s.works);
  }

  // A session that resumes behind the second line is handed nothing.
  lemma SecondOfTwo(a: Event, b: Event, st: State, next: Session)
    requires st.ledger == [b] && a.cursor != b.cursor && !next.overlap && next.removed == {}
    ensures var j := [Line(a.cursor, a.at, Some(a)), Line(b.cursor, b.at, Some(b))];
            Live(j, st, next).ledger == [b]
  {
    var j := [Line(a.cursor, a.at, Some(a)), Line(b.cursor, b.at, Some(b))];
    var found := Survivors(st, {});
    assert found.ledger == [b] && Resumed(found, next) == b;
    assert Position(j, b.cursor) == 1 by { PositionSecond(j, b.cursor); }
    hide Position, Survivors;
    assert Start(j, found, next) == 2 && Stop(j, found, next) == 2 && j[2..2] == [];
  }

  lemma {:induction false} PositionSecond(j: seq<Line>, cursor: string)
    requires |j| == 2 && j[0].cursor != cursor && j[1].cursor == cursor
    ensures Position(j, cursor) == 1
  {
    assert j[1..][0] == j[1];
  }

  // ---------- sessions, resets and deletions together ----------

  datatype Clearing = Clearing(id: int, at: int, works: bool)

  // A session with the resets that happen before each of its lines and after it.
  datatype Part = Part(session: Session, during: nat -> seq<Clearing>, after: seq<Clearing>)

  function ClearOps(cs: seq<Clearing>): seq<Op> {
    if cs == [] then [] else ClearOps(cs[..|cs| - 1]) + [Clear(cs[|cs| - 1].id, cs[|cs| - 1].at, cs[|cs| - 1].works)]
  }

  function LineOps(lines: seq<Line>, i: nat, works: nat -> bool, during: nat -> seq<Clearing>): seq<Op>
    requires i <= |lines|
    decreases |lines| - i
  {
    if i == |lines| then []
    else ClearOps(during(i)) + (if lines[i].event.Some? then [Deliver(lines[i].event.value, works(i))] else [])
         + LineOps(lines, i + 1, works, during)
  }

  // What is done to the store: an operation, or the deletion of instances.
  datatype Deed = Plainly(op: Op) | Delete(removed: set<int>)

  function DoDeed(st: State, deed: Deed): State {
    match deed
    case Plainly(op) => Do(st, op)
    case Delete(removed) => Survivors(st, removed)
  }

  function RunDeeds(st: State, deeds: seq<Deed>): State {
    if deeds == [] then st else DoDeed(RunDeeds(st, deeds[..|deeds| - 1]), deeds[|deeds| - 1])
  }

  function AsDeeds(ops: seq<Op>): (r: seq<Deed>)
    ensures |r| == |ops| && forall i :: 0 <= i < |r| ==> r[i] == Plainly(ops[i])
  {
    seq(|ops|, i requires 0 <= i < |ops| => Plainly(ops[i]))
  }

  // The deliveries and resets alone.
  function OpsOf(deeds: seq<Deed>): seq<Op> {
    if deeds == [] then []
    else
      var front, last := OpsOf(deeds[..|deeds| - 1]), deeds[|deeds| - 1];
      if last.Plainly? then front + [last.op] else front
  }

  function Gone(deeds: seq<Deed>): set<int> {
    if deeds == [] then {}
    else
      var front, last := Gone(deeds[..|deeds| - 1]), deeds[|deeds| - 1];
      if last.Delete? then front + last.removed else front
  }

  // What one part does to the store when it finds `found`.
  function PartOps(j: seq<Line>, found: State, part: Part): seq<Op> {
    LineOps(j[Start(j, found, part.session)..Stop(j, found, part.session)], 0, part.session.works, part.during)
    + ClearOps(part.after)
  }

  // Everything that is done to the store, in order.
  function History(j: seq<Line>, st: State, parts: seq<Part>): seq<Deed> {
    if parts == [] then []
    else
      var before, part := History(j, st, parts[..|parts| - 1]), parts[|parts| - 1];
      var found := Survivors(RunDeeds(st, before), part.session.removed);
      before + [Delete(part.session.removed)] + AsDeeds(PartOps(j, found, part))
  }

  function Sessions(parts: seq<Part>): (r: seq<Session>)
    ensures |r| == |parts|
  {
    if parts == [] then [] else Sessions(parts[..|parts| - 1]) + [parts[|parts| - 1].session]
  }

  predicate SameLedger(a: State, b: State) {
    a.ledger == b.ledger && a.counters.Keys == b.counters.Keys
  }

  lemma {:induction false} RunConcat(st: State, a: seq<Op>, b: seq<Op>)
    ensures Run(st, a + b) == Run(Run(st, a), b)
  {
    if b == [] {
      assert a + b == a;
    } else {
      assert (a + b)[..|a + b| - 1] == a + b[..|b| - 1];
      RunConcat(st, a, b[..|b| - 1]);
    }
  }

  lemma {:induction false} DeedsConcat(st: State, a: seq<Deed>, b: seq<Deed>)
    ensures RunDeeds(st, a + b) == RunDeeds(RunDeeds(st, a), b)
  {
    if b == [] {
      assert a + b == a;
    } else {
      assert (a + b)[..|a + b| - 1] == a + b[..|b| - 1];
      DeedsConcat(st, a, b[..|b| - 1]);
    }
  }

  lemma {:induction false} DeedsPlain(st: State, ops: seq<Op>)
    ensures RunDeeds(st, AsDeeds(ops)) == Run(st, ops)
  {
    if ops != [] {
      assert AsDeeds(ops)[..|ops| - 1] == AsDeeds(ops[..|ops| - 1]);
      DeedsPlain(st, ops[..|ops| - 1]);
    }
  }

  lemma {:induction false} DeedSnoc(st: State, deeds: seq<Deed>, deed: Deed)
    ensures RunDeeds(st, deeds + [deed]) == DoDeed(RunDeeds(st, deeds), deed)
  {
    assert (deeds + [deed])[..|deeds|] == deeds;
  }

  lemma {:induction false} ClearsKeepLedger(st: State, cs: seq<Clearing>)
    ensures SameLedger(Run(st, ClearOps(cs)), st)
  {
    if cs != [] {
      var front := ClearOps(cs[..|cs| - 1]);
      ClearsKeepLedger(st, cs[..|cs| - 1]);
      assert ClearOps(cs)[..|front|] == front;
    }
  }

  lemma {:induction false} RunOne(st: State, e: Event, works: bool)
    ensures Run(st, [Deliver(e, works)]) == Apply(st, e, works)
  {
    assert [Deliver(e, works)][..0] == [];
    assert Run(st, []) == st;
  }

  lemma {:induction false} LinesSame(a: State, b: State, lines: seq<Line>, i: nat, works: nat -> bool,
      during: nat -> seq<Clearing>)
    requires SameLedger(a, b) && i <= |lines|
    ensures SameLedger(Run(a, LineOps(lines, i, works, during)), CollectFrom(b, lines, i, works))
    decreases |lines| - i
  {
    if i < |lines| {
      var clears, rest := ClearOps(during(i)), LineOps(lines, i + 1, works, during);
      var deliver := if lines[i].event.Some? then [Deliver(lines[i].event.value, works(i))] else [];
      RunConcat(a, clears + deliver, rest);
      RunConcat(a, clears, deliver);
      ClearsKeepLedger(a, during(i));
      if lines[i].event.Some? {
        RunOne(Run(a, clears), lines[i].event.value, works(i));
      }
      hide ClearOps, Recorded, Valid, Add;
      LinesSame(Run(a, clears + deliver), if lines[i].event.Some? then Apply(b, lines[i].event.value, works(i)) else b,
          lines, i + 1, works, during);
    }
  }

  // Where a session starts depends on the ledger alone.
  lemma SameStart(j: seq<Line>, a: State, b: State, s: Session)
    requires a.ledger == b.ledger
    ensures Start(j, a, s) == Start(j, b, s) && Stop(j, a, s) == Stop(j, b, s)
  {
    hide FirstAt, Position;
  }

  // A session with resets leaves the ledger it leaves without.
  lemma {:induction false} PartSame(j: seq<Line>, a: State, b: State, part: Part)
    requires SameLedger(a, b)
    ensures var s := part.session;
            SameLedger(Run(a, PartOps(j, a, part)), Collect(b, j[Start(j, b, s)..Stop(j, b, s)], s.works))
  {
    var s := part.session;
    SameStart(j, a, b, s);
    var lines := j[Start(j, b, s)..Stop(j, b, s)];
    var ops := LineOps(lines, 0, s.works, part.during);
    hide Start, Stop, LineOps, ClearOps, CollectFrom, Run;
    RunConcat(a, ops, ClearOps(part.after));
    LinesSame(a, b, lines, 0, s.works, part.during);
    ClearsKeepLedger(Run(a, ops), part.after);
  }

  lemma SameSurvivors(a: State, b: State, removed: set<int>)
    requires SameLedger(a, b)
    ensures SameLedger(Survivors(a, removed), Survivors(b, removed))
  {}

  // Resets, whenever they happen, do not change what the ledger says.
  lemma {:induction false} HistorySame(j: seq<Line>, st: State, parts: seq<Part>)
    ensures SameLedger(RunDeeds(st, History(j, st, parts)), Lives(j, st, Sessions(parts)))
  {
    if parts != [] {
      var front, part := parts[..|parts| - 1], parts[|parts| - 1];
      HistorySame(j, st, front);
      assert Sessions(parts)[..|front|] == Sessions(front);
      hide PartOps, SameLedger, Start, Stop, Survivors, Collect;
      var before, removed := History(j, st, front), part.session.removed;
      var a, b := RunDeeds(st, before), Lives(j, st, Sessions(front));
      var found := Survivors(a, removed);
      SameSurvivors(a, b, removed);
      PartSame(j, found, Survivors(b, removed), part);
      DeedSnoc(st, before, Delete(removed));
      DeedsConcat(st, before + [Delete(removed)], AsDeeds(PartOps(j, found, part)));
      DeedsPlain(found, PartOps(j, found, part));
    }
  }

  // ---------- deletions do not touch the other counters ----------

  predicate FromLine(j: seq<Line>, op: Op) {
    op.Deliver? ==> exists k :: 0 <= k < |j| && j[k].event == Some(op.e)
  }

  ghost predicate FromJournal(j: seq<Line>, deeds: seq<Deed>) {
    forall i :: 0 <= i < |deeds| && deeds[i].Plainly? ==> FromLine(j, deeds[i].op)
  }

  lemma {:induction false} ClearsFromLine(j: seq<Line>, cs: seq<Clearing>)
    ensures forall op :: op in ClearOps(cs) ==> FromLine(j, op)
  {
    if cs != [] {
      ClearsFromLine(j, cs[..|cs| - 1]);
    }
  }

  lemma {:induction false} LinesFromLine(j: seq<Line>, start: nat, stop: nat, i: nat, works: nat -> bool,
      during: nat -> seq<Clearing>)
    requires start <= stop <= |j| && i <= stop - start
    ensures forall op :: op in LineOps(j[start..stop], i, works, during) ==> FromLine(j, op)
    decreases stop - start - i
  {
    var lines := j[start..stop];
    if i < |lines| {
      assert lines[i] == j[start + i];
      ClearsFromLine(j, during(i));
      LinesFromLine(j, start, stop, i + 1, works, during);
    }
  }

  lemma {:induction false} HistoryFromJournal(j: seq<Line>, st: State, parts: seq<Part>)
    ensures FromJournal(j, History(j, st, parts))
  {
    if parts != [] {
      var front, part := parts[..|parts| - 1], parts[|parts| - 1];
      HistoryFromJournal(j, st, front);
      hide PartOps, FromJournal, Survivors, RunDeeds;
      var before := History(j, st, front);
      var found := Survivors(RunDeeds(st, before), part.session.removed);
      PartFromLine(j, found, part);
      JournalGrows(j, before, part.session.removed, PartOps(j, found, part));
    }
  }

  lemma PartFromLine(j: seq<Line>, found: State, part: Part)
    ensures forall op :: op in PartOps(j, found, part) ==> FromLine(j, op)
  {
    var s := part.session;
    LinesFromLine(j, Start(j, found, s), Stop(j, found, s), 0, s.works, part.during);
    ClearsFromLine(j, part.after);
    hide LineOps, ClearOps, Start, Stop, FromLine;
  }

  lemma JournalGrows(j: seq<Line>, deeds: seq<Deed>, removed: set<int>, ops: seq<Op>)
    requires FromJournal(j, deeds) && forall op :: op in ops ==> FromLine(j, op)
    ensures FromJournal(j, deeds + [Delete(removed)] + AsDeeds(ops))
  {
    hide FromLine;
    assert forall i :: 0 <= i < |ops| ==> ops[i] in ops;
  }

  // With and without the deletions: the counters that remain are the same, and so are the rows of their instances.
  ghost predicate Agree(j: seq<Line>, s: State, u: State, gone: set<int>) {
    && Truthful(j, s) && Truthful(j, u) && s.counters.Keys == u.counters.Keys - gone
    && (forall id :: id in s.counters ==> s.counters[id] == u.counters[id])
    && (forall i :: 0 <= i < |j| && j[i].event.Some? && j[i].event.value.instance !in gone ==>
         (Listed(s, j[i]) <==> Listed(u, j[i])))
  }

  lemma DeliverAgrees(j: seq<Line>, s: State, u: State, gone: set<int>, k: nat, works: bool)
    requires Journal(j) && Agree(j, s, u, gone) && k < |j| && j[k].event.Some?
    ensures var e := j[k].event.value; Agree(j, Apply(s, e, works), Apply(u, e, works), gone)
  {
    var e := j[k].event.value;
    RecordedLine(j, s, k);
    RecordedLine(j, u, k);
    assert e.instance in s.counters ==> (Accepted(s, e) <==> Accepted(u, e));
    forall i: nat | i < |j|
      ensures Truthful(j, Apply(s, e, works)) && Truthful(j, Apply(u, e, works))
      ensures Listed(Apply(s, e, works), j[i]) <==>
                (Listed(s, j[i]) || (k == i && works && Countable(s.counters.Keys, j[i])))
      ensures Listed(Apply(u, e, works), j[i]) <==>
                (Listed(u, j[i]) || (k == i && works && Countable(u.counters.Keys, j[i])))
    {
      LineApplied(j, s, k, works, i);
      LineApplied(j, u, k, works, i);
    }
    hide Truthful, Journal, Recorded, Listed;
  }

  lemma DeleteAgrees(j: seq<Line>, s: State, u: State, gone: set<int>, removed: set<int>)
    requires Agree(j, s, u, gone)
    ensures Agree(j, Survivors(s, removed), u, gone + removed)
  {
    forall i: nat | i < |j|
      ensures Truthful(j, Survivors(s, removed))
      ensures Listed(Survivors(s, removed), j[i]) <==> Listed(s, j[i]) && j[i].event.value.instance !in removed
    {
      SurvivorsTruthful(j, s, removed, i);
    }
    if j == [] {
      assert Truthful(j, Survivors(s, removed));
    }
    hide Listed, Truthful, Spared;
  }

  lemma DeedAgrees(j: seq<Line>, s: State, u: State, gone: set<int>, deed: Deed)
    requires Journal(j) && Agree(j, s, u, gone) && (deed.Plainly? ==> FromLine(j, deed.op))
    ensures if deed.Plainly? then Agree(j, DoDeed(s, deed), Do(u, deed.op), gone)
            else Agree(j, DoDeed(s, deed), u, gone + deed.removed)
  {
    match deed
    case Delete(removed) =>
      hide Agree, Survivors;
      DeleteAgrees(j, s, u, gone, removed);
    case Plainly(op) =>
      if op.Deliver? {
        var k :| 0 <= k < |j| && j[k].event == Some(op.e);
        hide Agree, Apply;
        DeliverAgrees(j, s, u, gone, k, op.works);
      } else {
        hide Journal;
      }
  }

  lemma {:induction false} DeedsAgree(j: seq<Line>, st: State, deeds: seq<Deed>)
    requires Journal(j) && FromJournal(j, deeds) && Truthful(j, st)
    ensures Agree(j, RunDeeds(st, deeds), Run(st, OpsOf(deeds)), Gone(deeds))
  {
    if deeds != [] {
      var n := |deeds| - 1;
      DeedsAgree(j, st, deeds[..n]);
      var ops := OpsOf(deeds[..n]);
      if deeds[n].Plainly? {
        assert (ops + [deeds[n].op])[..|ops|] == ops;
      }
      hide Agree, Journal, DoDeed, Do;
      DeedAgrees(j, RunDeeds(st, deeds[..n]), Run(st, ops), Gone(deeds[..n]), deeds[n]);
    }
  }

  /**
   The account over sessions, resets and deletions together.  However sessions crash, resume and
   fail, whenever counters are reset and instances deleted: the counter of an instance that
   is still there is the sum over the first working deliveries of the distinct cursors since
   its last reset, and a journal line has its row exactly when it is countable, its instance
   still there, and some session that was handed it had a working transaction for it.
   */
  lemma {:induction false} Accounted(j: seq<Line>, instances: set<int>, now: int, parts: seq<Part>, id: int, i: nat)
    requires Journal(j) && i < |j|
    ensures var st, deeds := Initial(instances, now), History(j, Initial(instances, now), parts);
            var last, ops, sessions := RunDeeds(st, deeds), OpsOf(deeds), Sessions(parts);
            && last.counters.Keys == instances - Removed(sessions)
            && (id in last.counters ==>
                  && (last.counters[id].upload, last.counters[id].download) == Owed(instances, ops, |ops|, id)
                  && last.counters[id].total == last.counters[id].upload + last.counters[id].download)
            && (Listed(last, j[i]) <==> Countable(last.counters.Keys, j[i]) && Counted(j, st, sessions, i))
  {
    var st := Initial(instances, now);
    var deeds := History(j, st, parts);
    assert st.ledger == [] && Truthful(j, st) && !Listed(st, j[i]) && st.counters.Keys == instances;
    hide Journal, History, Sessions, Initial, Owed, Countable, Counted, Truthful, Run, RunDeeds, Lives, OpsOf, Gone,
        Removed;
    HistoryFromJournal(j, st, parts);
    DeedsAgree(j, st, deeds);
    HistorySame(j, st, parts);
    RecordedExactly(j, st, Sessions(parts), i);
    var last := RunDeeds(st, deeds);
    assert Listed(last, j[i]) <==> Listed(Lives(j, st, Sessions(parts)), j[i]);
    hide Listed;
    if id in last.counters {
      InstanceKnown(j, st, deeds, id);
      ExactlyOnce(instances, now, OpsOf(deeds), id);
    }
  }

  lemma {:induction false} InstanceKnown(j: seq<Line>, st: State, deeds: seq<Deed>, id: int)
    requires Agree(j, RunDeeds(st, deeds), Run(st, OpsOf(deeds)), Gone(deeds)) && id in RunDeeds(st, deeds).counters
    ensures id in st.counters
    ensures id in Run(st, OpsOf(deeds)).counters
    ensures RunDeeds(st, deeds).counters[id] == Run(st, OpsOf(deeds)).counters[id]
  {
    hide Truthful, Listed, RunDeeds, OpsOf, Gone;
    RunKeys(st, OpsOf(deeds));
  }

  lemma {:induction false} RunKeys(st: State, ops: seq<Op>)
    ensures Run(st, ops).counters.Keys == st.counters.Keys
  {
    hide Accepted, Add;
    if ops != [] {
      RunKeys(st, ops[..|ops| - 1]);
      StepKeys(Run(st, ops[..|ops| - 1]), ops[|ops| - 1]);
    }
  }

  lemma StepKeys(st: State, op: Op)
    ensures Do(st, op).counters.Keys == st.counters.Keys
  {
    hide Recorded, Valid, Add;
  }

  // ---------- where the text order differs from the order of times ----------

  // b lies in the second of a, and the digits of its fraction go on where those of a end.
  predicate Continues(a: int, b: int) {
    a / SECOND == b / SECOND && Kept(a % SECOND) < Kept(b % SECOND)
  }

  function Power(n: nat): nat {
    if n == 0 then 1 else 10 * Power(n - 1)
  }

  // The first digit in which two numbers of one width differ.
  lemma {:induction false} FixedDiffers(a: nat, b: nat, width: nat) returns (d: nat)
    requires a < b < Power(width)
    ensures d < width && Fixed(a, width)[..d] == Fixed(b, width)[..d] && Fixed(a, width)[d] < Fixed(b, width)[d]
  {
    if a / 10 == b / 10 {
      d := width - 1;
      assert Fixed(a, width)[..d] == Fixed(a / 10, d) && Fixed(b, width)[..d] == Fixed(b / 10, d);
    } else {
      d := FixedDiffers(a / 10, b / 10, width - 1);
      assert Fixed(a, width)[..d] == Fixed(a / 10, width - 1)[..d]
          && Fixed(b, width)[..d] == Fixed(b / 10, width - 1)[..d];
    }
  }

  lemma {:induction false} FixedDigits(n: nat, width: nat)
    ensures AllDigits(Fixed(n, width))
  {
    if width > 0 {
      FixedDigits(n / 10, width - 1);
    }
  }

  // What is dropped is zeros, and what is kept does not end in one.
  lemma {:induction false} Trimmed(s: string)
    ensures TrimZeros(s) <= s && forall i :: |TrimZeros(s)| <= i < |s| ==> s[i] == '0'
  {
    if s != "" && s[|s| - 1] == '0' {
      Trimmed(s[..|s| - 1]);
    }
  }

  lemma {:induction false} KeptShape(micros: nat)
    ensures AllDigits(Kept(micros)) && Kept(micros) <= Fixed(micros, 6)
    ensures forall i :: |Kept(micros)| <= i < 6 ==> Fixed(micros, 6)[i] == '0'
  {
    FixedDigits(micros, 6);
    Trimmed(Fixed(micros, 6));
    hide Fixed, TrimZeros;
  }

  lemma {:induction false} ZeroKept(width: nat)
    ensures TrimZeros(Fixed(0, width)) == ""
  {
    if width > 0 {
      ZeroKept(width - 1);
      ShiftedKept(0, width - 1);
    }
  }

  // Of two fractions the smaller has the smaller text, unless the larger continues it.
  lemma FractionOrder(a: nat, b: nat)
    requires a < b < SECOND
    ensures if Kept(a) < Kept(b)
            then TextLeq(FractionText(b), FractionText(a)) && !TextLeq(FractionText(a), FractionText(b))
            else TextLeq(FractionText(a), FractionText(b)) && !TextLeq(FractionText(b), FractionText(a))
    ensures !(Kept(b) <= Kept(a))
  {
    assert Power(1) == 10 && Power(2) == 100 && Power(3) == 1000 && Power(4) == 10000 && Power(5) == 100000
        && Power(6) == SECOND;
    var d := FixedDiffers(a, b, 6);
    KeptShape(a);
    KeptShape(b);
    ZeroKept(6);
    assert Kept(0) == "";
    hide Fixed, Kept, TrimZeros;
    KeptOrder(Fixed(a, 6), Fixed(b, 6), Kept(a), Kept(b), d);
    if a == 0 {
      TextDiffers(FractionText(b), FractionText(a), 0);
    } else {
      TailOrder(Kept(a), Kept(b), d);
    }
  }

  // The two texts first differ at k, and there x is the smaller.
  predicate BelowAt(x: string, y: string, k: nat) {
    k < |x| && k < |y| && x[..k] == y[..k] && x[k] < y[k]
  }

  // x and y are the kept parts of two digit strings that first differ at d.
  lemma KeptOrder(a: string, b: string, x: string, y: string, d: nat)
    requires |a| == |b| && d < |a| && a[..d] == b[..d] && a[d] < b[d] && AllDigits(a) && AllDigits(b)
    requires x <= a && y <= b && (forall i :: |y| <= i < |b| ==> b[i] == '0')
    ensures x < y || BelowAt(x, y, d)
    ensures !(y <= x)
  {
    assert d < |y|;
    assert y[d] == b[d] && y[..d] == b[..d];
    if |x| > d {
      assert x[d] == a[d] && x[..d] == a[..d] == y[..d];
      assert x[d] < y[d];
    } else {
      assert x == a[..d][..|x|] == b[..d][..|x|] == y[..|x|];
      assert x < y;
    }
  }

  // With a point before and the zone behind, a continued fraction comes later.
  lemma TailOrder(x: string, y: string, k: nat)
    requires AllDigits(x) && AllDigits(y)
    requires x < y || BelowAt(x, y, k)
    ensures var s, t := "." + x + "Z", "." + y + "Z";
            if x < y then TextLeq(t, s) && !TextLeq(s, t) else TextLeq(s, t) && !TextLeq(t, s)
  {
    var s, t := "." + x + "Z", "." + y + "Z";
    if x < y {
      assert IsDigit(y[|x|]);
      assert t[..1 + |x|] == "." + x == s[..1 + |x|] && t[1 + |x|] == y[|x|] && s[1 + |x|] == 'Z';
      TextDiffers(t, s, 1 + |x|);
    } else {
      assert s[..1 + k] == "." + x[..k] && t[..1 + k] == "." + y[..k];
      TextDiffers(s, t, 1 + k);
    }
  }

  /**
   Exactly when the text order gets two times wrong: when they share a second and the digits
   of the later fraction continue those of the earlier one, which has none on a whole second.
   */
  lemma TextOrderExact(a: int, b: int)
    requires a < b
    ensures !TimeTextLeq(a, b) <==> Continues(a, b)
    ensures TimeTextLeq(b, a) <==> Continues(a, b)
  {
    hide FractionText, Kept, TextLeq;
    if a / SECOND == b / SECOND {
      FractionOrder(a % SECOND, b % SECOND);
    }
  }

  lemma ContinuesLater(a: int, b: int)
    requires Continues(a, b)
    ensures a < b
  {
    hide Kept;
    if b < a {
      FractionOrder(b % SECOND, a % SECOND);
    }
  }

  /** The row the query names is the newest one exactly when no other row continues its fraction of a second. */
  lemma NamedIsNewest(ledger: seq<Event>, k: nat)
    requires k < |ledger| && NamedLast(ledger, k)
    ensures (forall i :: 0 <= i < |ledger| ==> ledger[i].at <= ledger[k].at)
            <==> (forall i :: 0 <= i < |ledger| ==> !Continues(ledger[k].at, ledger[i].at))
  {
    hide TimeTextLeq, Continues;
    forall i | 0 <= i < |ledger|
      ensures ledger[i].at <= ledger[k].at <==> !Continues(ledger[k].at, ledger[i].at)
    {
      var a, b := ledger[k].at, ledger[i].at;
      if a < b {
        TextOrderExact(a, b);
      } else if Continues(a, b) {
        ContinuesLater(a, b);
      }
    }
  }

  /** Two families of times in the wrong order: a whole second and its fractions, and 0.1 s and 0.15 s. */
  lemma TextOrderDiffers(second: nat, micros: nat)
    requires 0 < micros < SECOND
    ensures !TimeTextLeq(second * SECOND, second * SECOND + micros)
    ensures !TimeTextLeq(second * SECOND + 100000, second * SECOND + 150000)
  {
    hide Kept, TimeTextLeq, Fixed, TrimZeros;
    ZeroContinued(micros);
    KeptTenths();
    PrefixContinues(second, 0, micros);
    PrefixContinues(second, 100000, 150000);
  }

  lemma ZeroContinued(micros: nat)
    requires 0 < micros < SECOND
    ensures Kept(0) < Kept(micros)
  {
    ZeroKept(6);
    assert Kept(0) == "";
    hide Kept;
    FractionOrder(0, micros);
  }

  lemma PrefixContinues(second: nat, a: nat, b: nat)
    requires a < b < SECOND && Kept(a) < Kept(b)
    ensures !TimeTextLeq(second * SECOND + a, second * SECOND + b)
  {
    hide Kept, TimeTextLeq;
    InSecond(second, a);
    InSecond(second, b);
    TextOrderExact(second * SECOND + a, second * SECOND + b);
  }

  lemma InSecond(second: nat, micros: nat)
    requires micros < SECOND
    ensures (second * SECOND + micros) / SECOND == second && (second * SECOND + micros) % SECOND == micros
  {}

  lemma ShiftedKept(n: nat, width: nat)
    ensures TrimZeros(Fixed(10 * n, width + 1)) == TrimZeros(Fixed(n, width))
  {
    var s := Fixed(10 * n, width + 1);
    assert s[..|s| - 1] == Fixed(n, width) && s[|s| - 1] == '0';
  }

  lemma KeptTenths()
    ensures Kept(100000) < Kept(150000)
  {
    ShiftedKept(10000, 5);
    ShiftedKept(1000, 4);
    ShiftedKept(100, 3);
    ShiftedKept(10, 2);
    ShiftedKept(1, 1);
    assert Fixed(1, 0) == "" && Fixed(1, 1) == "1";
    ShiftedKept(15000, 5);
    ShiftedKept(1500, 4);
    ShiftedKept(150, 3);
    ShiftedKept(15, 2);
    assert Fixed(15, 2) == Fixed(1, 1) + "5" == "15";
  }
}
