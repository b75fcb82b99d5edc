/**
 In which order captured tokens reach the instances.  A consumer calls UpdateWBToken after it
 has left the mutex, so a later token can overtake an earlier one.
 */
module HandoffOrder {
  import opened Text
  import opened Handoff

  predicate Increasing(s: State) {
    forall i, j :: 0 <= i < j < |s.applied| ==> s.applied[i].0 < s.applied[j].0
  }

  // Consumer `id` has erased its token and not applied it yet.
  predicate Pending(s: State, id: nat) {
    id in s.consumers && s.consumers[id].Erased?
  }

  // The step applies a token although an earlier one is still to be applied.
  ghost predicate Overtakes(s: State, step: Step) {
    && step.Apply? && Pending(s, step.id)
    && exists k :: Pending(s, k) && s.consumers[k].doc.source < s.consumers[step.id].doc.source
  }

  // Whatever may still be erased was published after everything that was erased.
  predicate Newest(s: State) {
    && (forall m :: m in s.erased && s.file.Some? && HasToken(s.file.value.fields) ==> m < s.file.value.source)
    && (forall m, k :: m in s.erased && k in s.consumers && Before(s.consumers[k]) ==> m < s.consumers[k].doc.source)
  }

  predicate Before(c: Consumer) {
    c.Holding? || c.Saved? || c.Refused?
  }

  lemma {:induction false} NewestKept(s: State, step: Step)
    requires Inv(s) && Newest(s)
    ensures Newest(Next(s, step))
  {
    match step
    case Erase(id, written) => EraseNewest(s, id, written);
    case Rewrite(id, written) => RewriteNewest(s, id, written);
    case _ => hide WasApplied, NoTokenAnswered, Fresh, Consumers, TokenOf;
  }

  lemma EraseNewest(s: State, id: nat, written: bool)
    requires Inv(s) && Newest(s)
    ensures Newest(Next(s, Erase(id, written)))
  {
    if id in s.consumers && Before(s.consumers[id]) {
      Cleared(s.consumers[id].doc, APPLYING);
      Cleared(s.consumers[id].doc, ERROR);
      hide Without, Fresh, WasApplied, NoTokenAnswered, Ledger, TokenOf;
    }
  }

  lemma RewriteNewest(s: State, id: nat, written: bool)
    requires Inv(s) && Newest(s)
    ensures Newest(Next(s, Rewrite(id, written)))
  {
    if id in s.consumers && s.consumers[id].Rewriting? {
      assert GoodConsumer(s, s.consumers[id]);
    }
    hide WasApplied, NoTokenAnswered, Ledger, Consumers, TokenOf;
  }

  lemma {:induction false} RunNewest(steps: seq<Step>)
    ensures Inv(Run(EMPTY, steps)) && Newest(Run(EMPTY, steps))
  {
    hide Inv, Next, Newest;
    RunKeepsInv(steps);
    if steps == [] {
      assert Newest(EMPTY) by { NothingErased(); }
    } else {
      RunNewest(steps[..|steps| - 1]);
      NewestKept(Run(EMPTY, steps[..|steps| - 1]), steps[|steps| - 1]);
    }
  }

  lemma NothingErased()
    ensures Newest(EMPTY)
  {}

  // ---------- without overtaking ----------

  // Everything applied is older than everything pending.
  ghost predicate Sorted(s: State) {
    && Increasing(s)
    && (forall i, k :: 0 <= i < |s.applied| && Pending(s, k) ==> s.applied[i].0 < s.consumers[k].doc.source)
  }

  lemma {:induction false} SortedKept(s: State, step: Step)
    requires Inv(s) && Newest(s) && Sorted(s) && !Overtakes(s, step)
    ensures Sorted(Next(s, step))
  {
    if step.Apply? && Pending(s, step.id) {
      ApplySorted(s, step.id);
    } else {
      assert forall i :: 0 <= i < |s.applied| ==> s.applied[i].0 in s.erased;
      hide Inv, Next, Before;
      forall k | Pending(Next(s, step), k) && !(Pending(s, k) && Next(s, step).consumers[k] == s.consumers[k])
        ensures forall m :: m in s.erased ==> m < Next(s, step).consumers[k].doc.source
      {
        NewlyPending(s, step, k);
      }
      AppliedSame(s, step);
    }
  }

  lemma AppliedSame(s: State, step: Step)
    requires !(step.Apply? && Pending(s, step.id))
    ensures Next(s, step).applied == s.applied
  {}

  // A token becomes pending by an erase that leaves the newest one.
  lemma NewlyPending(s: State, step: Step, k: nat)
    requires Inv(s) && Newest(s) && Pending(Next(s, step), k)
             && !(Pending(s, k) && Next(s, step).consumers[k] == s.consumers[k])
    ensures step.Erase? && k == step.id
    ensures forall m :: m in s.erased ==> m < Next(s, step).consumers[k].doc.source
  {
    hide Inv, HasToken, TokenOf;
    if step.Erase? && step.id in s.consumers && Before(s.consumers[step.id]) {
      SameSource(s.consumers[step.id].doc);
    }
    hide Without;
  }

  lemma SameSource(doc: Doc)
    ensures Without(doc, APPLYING).source == doc.source && Without(doc, ERROR).source == doc.source
  {}

  lemma ApplySorted(s: State, id: nat)
    requires Consumers(s) && Sorted(s) && Pending(s, id) && !Overtakes(s, Apply(id))
    ensures Sorted(Next(s, Apply(id)))
  {
    var t := Next(s, Apply(id));
    forall k | Pending(t, k) ensures s.consumers[id].doc.source < t.consumers[k].doc.source {
      assert t.consumers[k] == s.consumers[k] && !BothErased(s.consumers[k], s.consumers[id]);
    }
    hide GoodConsumer, Without;
  }

  ghost predicate InOrder(steps: seq<Step>) {
    forall i :: 0 <= i < |steps| ==> !Overtakes(Run(EMPTY, steps[..i]), steps[i])
  }

  lemma {:induction false} OrderedRun(steps: seq<Step>)
    requires InOrder(steps)
    ensures Sorted(Run(EMPTY, steps))
  {
    hide Inv, Next, Newest, Sorted, Overtakes;
    if steps == [] {
      assert Sorted(EMPTY) by { NothingApplied(); }
    } else {
      var n := |steps| - 1;
      assert forall i :: 0 <= i < n ==> steps[..n][..i] == steps[..i] && steps[..n][i] == steps[i];
      OrderedRun(steps[..n]);
      RunNewest(steps[..n]);
      SortedKept(Run(EMPTY, steps[..n]), steps[n]);
    }
  }

  lemma NothingApplied()
    ensures Sorted(EMPTY)
  {}

  // ---------- with overtaking ----------

  // A pending token is older than an applied one.
  ghost predicate Late(s: State) {
    exists i, k :: LateAt(s, i, k)
  }

  predicate LateAt(s: State, i: nat, k: nat) {
    i < |s.applied| && Pending(s, k) && s.consumers[k].doc.source < s.applied[i].0
  }

  lemma OvertakeLate(s: State, step: Step)
    requires Overtakes(s, step)
    ensures Late(Next(s, step))
  {
    var k :| Pending(s, k) && s.consumers[k].doc.source < s.consumers[step.id].doc.source;
    assert LateAt(Next(s, step), |s.applied|, k);
  }

  lemma {:induction false} LateStays(s: State, step: Step)
    requires Late(s) || !Increasing(s)
    ensures Late(Next(s, step)) || !Increasing(Next(s, step))
  {
    var t := Next(s, step);
    assert s.applied <= t.applied;
    if Late(s) {
      var i: nat, k: nat :| LateAt(s, i, k);
      if step == Apply(k) {
        assert t.applied[i].0 > t.applied[|s.applied|].0;
      } else {
        PendingStays(s, step, k);
        assert LateAt(t, i, k);
      }
    } else {
      var i, j :| 0 <= i < j < |s.applied| && !(s.applied[i].0 < s.applied[j].0);
      assert !(t.applied[i].0 < t.applied[j].0);
    }
  }

  lemma PendingStays(s: State, step: Step, k: nat)
    requires Pending(s, k) && step != Apply(k)
    ensures Pending(Next(s, step), k) && Next(s, step).consumers[k] == s.consumers[k]
  {}

  lemma {:induction false} OvertakenRun(steps: seq<Step>)
    requires !InOrder(steps)
    ensures Late(Run(EMPTY, steps)) || !Increasing(Run(EMPTY, steps))
  {
    hide Next, Late, Increasing, Overtakes;
    var n := |steps| - 1;
    var i :| 0 <= i < |steps| && Overtakes(Run(EMPTY, steps[..i]), steps[i]);
    if i == n {
      OvertakeLate(Run(EMPTY, steps[..n]), steps[n]);
    } else {
      assert steps[..n][..i] == steps[..i] && steps[..n][i] == steps[i];
      OvertakenRun(steps[..n]);
      LateStays(Run(EMPTY, steps[..n]), steps[n]);
    }
  }

  /**
   When tokens are applied in the order of their publication: in a run after which no token is
   pending, exactly when no consumer called UpdateWBToken while another one still held an
   earlier token it had erased.
   */
  lemma {:induction false} AppliedInOrder(steps: seq<Step>)
    requires forall k :: !Pending(Run(EMPTY, steps), k)
    ensures Increasing(Run(EMPTY, steps)) <==> InOrder(steps)
  {
    var s := Run(EMPTY, steps);
    hide Run, Overtakes, Pending;
    if InOrder(steps) {
      OrderedRun(steps);
    } else {
      OvertakenRun(steps);
      NoneLate(s);
    }
  }

  lemma NoneLate(s: State)
    requires forall k :: !Pending(s, k)
    ensures !Late(s)
  {}

  // ---------- such a run ----------

  // Another consumer takes a newer token all the way while `id` is about to apply its own.
  function Overtaking(b: Fields, other: nat, id: nat): seq<Step> {
    [Publish(b)] + [Read(other)] + [Save(other, true, true)] + [Erase(other, true)] + [Apply(other)] + [Apply(id)]
  }

  /** Whenever a consumer is about to apply a token, a newer one can be applied first, and the older one stays. */
  lemma {:induction false} StaleTokenStays(s: State, b: Fields, other: nat, id: nat)
    requires Inv(s) && Pending(s, id) && other !in s.consumers && MutexFree(s) && HasToken(b)
    ensures var t := Run(s, Overtaking(b, other, id));
            && t.applied == s.applied + [(|s.published|, TokenOf(b)),
               (s.consumers[id].doc.source, s.consumers[id].token)]
            && s.consumers[id].doc.source < |s.published| && !Increasing(t)
  {
    assert GoodConsumer(s, s.consumers[id]);
    hide HasToken, TokenOf, Without, Inv, Increasing, GoodConsumer, Next, Run;
    var steps := [Publish(b)] + [Read(other)] + [Save(other, true, true)] + [Erase(other, true)];
    var t := Run(s, steps);
    Taken(s, b, other);
    RunSnoc(s, steps, Apply(other));
    RunSnoc(s, steps + [Apply(other)], Apply(id));
    ApplyNow(t, other);
    ApplyNow(Next(t, Apply(other)), id);
    var newer, older := (|s.published|, TokenOf(b)), (s.consumers[id].doc.source, s.consumers[id].token);
    assert s.applied + [newer] + [older] == s.applied + [newer, older];
    LastTwo(s, Run(s, Overtaking(b, other, id)), newer, older);
  }

  lemma ApplyNow(s: State, id: nat)
    requires Pending(s, id)
    ensures Next(s, Apply(id)).applied == s.applied + [(s.consumers[id].doc.source, s.consumers[id].token)]
    ensures forall k :: k != id && k in s.consumers ==>
              k in Next(s, Apply(id)).consumers && Next(s, Apply(id)).consumers[k] == s.consumers[k]
  {}

  // Alone under the mutex, a consumer takes the token just published.
  lemma {:induction false} Taken(s: State, b: Fields, other: nat)
    requires other !in s.consumers && MutexFree(s) && HasToken(b)
    ensures var t := Run(s, [Publish(b)] + [Read(other)] + [Save(other, true, true)] + [Erase(other, true)]);
            && t.applied == s.applied && Pending(t, other)
            && t.consumers[other].doc.source == |s.published| && t.consumers[other].token == TokenOf(b)
            && (forall k :: k in s.consumers ==> k in t.consumers && t.consumers[k] == s.consumers[k])
  {
    hide HasToken, TokenOf;
    RunSnoc(s, [], Publish(b));
    RunSnoc(s, [Publish(b)], Read(other));
    RunSnoc(s, [Publish(b)] + [Read(other)], Save(other, true, true));
    RunSnoc(s, [Publish(b)] + [Read(other)] + [Save(other, true, true)], Erase(other, true));
    assert Run(s, []) == s;
    hide Run;
    var doc := Doc(b, |s.published|);
    var t1 := Next(s, Publish(b));
    var t2, t3 := At(t1, other, Holding(doc)), At(t1, other, Saved(doc)).(saved := t1.saved + {doc.source});
    assert Next(t1, Read(other)) == t2;
    assert Next(t2, Save(other, true, true)) == t3;
    SameSource(doc);
  }

  lemma LastTwo(s: State, t: State, a: (nat, string), b: (nat, string))
    requires t.applied == s.applied + [a, b] && b.0 < a.0
    ensures !Increasing(t)
  {
    assert t.applied[|s.applied|] == a && t.applied[|s.applied| + 1] == b;
  }
}
