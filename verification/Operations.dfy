/**
 The tracker of background operations in internal/server/settings.go: at most one operation
 of each kind runs, and a finished one is recorded under the time it was started itself,
 although its worker reads that time back from the shared map.
 */
module Operations {
  import opened Text

  datatype Status = Running(startedAt: int) | Finished(startedAt: int, finishedAt: int, failed: bool)

  // A worker runs its command; then it has read the start time and holds the status to record.
  datatype Worker = Working(kind: string, startedAt: int) | Recording(kind: string, startedAt: int, status: Status)

  // `workers` is keyed by a number each start takes afresh; `recorded` is the history of recordings.
  datatype State = State(
    values: map<string, Status>, workers: map<nat, Worker>, next: nat, recorded: seq<(int, Status)>)

  const IDLE := State(map[], map[], 0, [])

  datatype Step = Start(kind: string, now: int) | Collect(worker: nat, now: int, failed: bool) | Record(worker: nat)

  predicate Busy(s: State, kind: string) {
    kind in s.values && s.values[kind].Running?
  }

  // get: the start time of a kind, zero when it never ran.
  function StartedAt(s: State, kind: string): int {
    if kind in s.values then s.values[kind].startedAt else 0
  }

  function Next(s: State, step: Step): State {
    match step
    case Start(kind, now) =>
      if Busy(s, kind) then s else
      s.(values := s.values[kind := Running(now)], workers := s.workers[s.next := Working(kind, now)], next := s.next
          + 1)
    case Collect(w, now, failed) =>
      if w !in s.workers || !s.workers[w].Working? then s else
      var kind := s.workers[w].kind;
      s.(workers := s.workers[w := Recording(kind, s.workers[w].startedAt, Finished(StartedAt(s, kind), now, failed))])
    case Record(w) =>
      if w !in s.workers || !s.workers[w].Recording? then s else
      var worker := s.workers[w];
      s.(values := s.values[worker.kind := worker.status], workers := s.workers - {w},
         recorded := s.recorded + [(worker.startedAt, worker.status)])
  }

  function Run(s: State, steps: seq<Step>): State {
    if steps == [] then s else Next(Run(s, steps[..|steps| - 1]), steps[|steps| - 1])
  }

  ghost predicate Inv(s: State) {
    && (forall w :: w in s.workers ==> w < s.next)
    && (forall w :: w in s.workers ==>
          (s.workers[w].kind in s.values && s.values[s.workers[w].kind] == Running(s.workers[w].startedAt)
           && (s.workers[w].Recording? ==>
                s.workers[w].status.Finished? && s.workers[w].status.startedAt == s.workers[w].startedAt)))
    && (forall v, w :: v in s.workers && w in s.workers && s.workers[v].kind == s.workers[w].kind ==> v == w)
    && (forall kind :: Busy(s, kind) ==> exists w :: w in s.workers && s.workers[w].kind == kind)
    && (forall i :: 0 <= i < |s.recorded| ==> s.recorded[i].1.Finished? && s.recorded[i].1.startedAt == s.recorded[i].0)
  }

  lemma StartKeepsInv(s: State, step: Step)
    requires Inv(s) && step.Start?
    ensures Inv(Next(s, step))
  {
    var t := Next(s, step);
    forall kind | Busy(t, kind) ensures exists w :: w in t.workers && t.workers[w].kind == kind {
      if !Busy(s, step.kind) && kind == step.kind {
        assert t.workers[s.next].kind == kind;
      } else {
        assert Busy(s, kind);
        var w :| w in s.workers && s.workers[w].kind == kind;
        assert w in t.workers && t.workers[w].kind == kind;
      }
    }
  }

  lemma WorkKeepsInv(s: State, step: Step)
    requires Inv(s) && !step.Start?
    ensures Inv(Next(s, step))
  {
    var t := Next(s, step);
    forall kind | Busy(t, kind) ensures exists w :: w in t.workers && t.workers[w].kind == kind {
      assert Busy(s, kind);
      var w :| w in s.workers && s.workers[w].kind == kind;
      assert w in t.workers && t.workers[w].kind == kind;
    }
  }

  lemma NextKeepsInv(s: State, step: Step)
    requires Inv(s)
    ensures Inv(Next(s, step))
  {
    hide Inv, Next;
    if step.Start? {
      StartKeepsInv(s, step);
    } else {
      WorkKeepsInv(s, step);
    }
  }

  /**
   In every interleaving each kind has at most one live worker, it has one exactly while it
   shows as running, and every recorded result carries the start time of its own operation.
   */
  lemma {:induction false} OneWorkerPerKind(steps: seq<Step>)
    ensures Inv(Run(IDLE, steps))
  {
    if steps != [] {
      OneWorkerPerKind(steps[..|steps| - 1]);
      NextKeepsInv(Run(IDLE, steps[..|steps| - 1]), steps[|steps| - 1]);
    }
  }

  /** A start is refused exactly when a worker of that kind is still alive. */
  lemma {:induction false} StartRefused(steps: seq<Step>, kind: string, now: int)
    ensures var s := Run(IDLE, steps);
            Next(s, Start(kind, now)) == s <==> exists w :: w in s.workers && s.workers[w].kind == kind
  {
    OneWorkerPerKind(steps);
    var s := Run(IDLE, steps);
    var t := Next(s, Start(kind, now));
    if !Busy(s, kind) {
      assert t.next == s.next + 1;
    }
  }

  // The worker has collected this result and not recorded it yet.
  predicate Holds(s: State, w: nat, kind: string, status: Status) {
    w in s.workers && s.workers[w] == Recording(kind, status.startedAt, status)
  }

  lemma {:induction false} HoldsOn(s: State, steps: seq<Step>, w: nat, kind: string, status: Status)
    requires Inv(s) && Holds(s, w, kind, status) && status.Finished?
    requires forall i :: 0 <= i < |steps| ==> steps[i] != Record(w)
    ensures Inv(Run(s, steps)) && Holds(Run(s, steps), w, kind, status)
  {
    hide Inv;
    if steps != [] {
      var front, last := steps[..|steps| - 1], steps[|steps| - 1];
      HoldsOn(s, front, w, kind, status);
      NextKeepsInv(Run(s, front), last);
      FreshWorker(Run(s, front), w);
    }
  }

  lemma FreshWorker(s: State, w: nat)
    requires Inv(s) && w in s.workers
    ensures w < s.next
  {}

  /** What a worker collects is what is recorded of its kind in the end, whatever else happens meanwhile. */
  lemma {:induction false} RecordedAsCollected(before: seq<Step>, w: nat, now: int, failed: bool, between: seq<Step>)
    requires var s := Run(IDLE, before); w in s.workers && s.workers[w].Working?
    requires forall i :: 0 <= i < |between| ==> between[i] != Record(w)
    ensures var worker := Run(IDLE, before).workers[w];
            var t := Next(Run(Next(Run(IDLE, before), Collect(w, now, failed)), between), Record(w));
            worker.kind in t.values && t.values[worker.kind] == Finished(worker.startedAt, now, failed)
  {
    OneWorkerPerKind(before);
    var s := Run(IDLE, before);
    var worker := s.workers[w];
    var status := Finished(worker.startedAt, now, failed);
    NextKeepsInv(s, Collect(w, now, failed));
    assert Holds(Next(s, Collect(w, now, failed)), w, worker.kind, status);
    HoldsOn(Next(s, Collect(w, now, failed)), between, w, worker.kind, status);
    hide Inv, Run;
  }
}
