/** What a caller of each handler of the first-run wizard can rely on, whatever writes fail. */
module WizardOutcomes {
  import opened Text
  import opened Capture
  import opened Completion
  import opened Wizard

  // The stored state stays sound, no instance is lost, and no name is added twice.
  ghost predicate Safe(w: World, v: World) {
    SoundWorld(w) ==> SoundWorld(v) && forall name :: Grown(w, v, name)
  }

  lemma HandlerSafe(w: World, e: Event)
    ensures Safe(w, Next(w, e))
  {
    hide SoundWorld, Grown, Next;
    if SoundWorld(w) {
      NextKeepsSound(w, e);
      forall name ensures Grown(w, Next(w, e), name) {
        NextGrows(w, e, name);
      }
    }
  }

  // Instances and settings are left alone.
  predicate OnlyState(w: World, v: World) {
    v == w.(persisted := v.persisted)
  }

  // ---------- refreshes ----------

  // The worker's report counts when the wizard awaits a room, or its components just got installed.
  predicate Listens(s: Setup, env: Env) {
    AwaitsRoom(s.step) || (s.step.PlaywrightInstall? && (env.installed || env.install.Done?))
  }

  // A WB room is appended if it is acceptable, new, and one of the first three.
  function WithRoom(rooms: seq<string>, room: string): seq<string> {
    Add(rooms, TrimSpace(room), RoomOK, MAX_ROOMS)
  }

  predicate Refreshed(w: World, v: World, env: Env) {
    var s := Loaded(w.persisted, env.now);
    && OnlyState(w, v) && (!WriteOK(env, 0) ==> v == w)
    && (WriteOK(env, 0) ==>
          && v.persisted.Some?
          && v.persisted.value.rooms
             == (if Listens(s, env) && env.worker.WbRoom? && env.worker.room != ""
                 then WithRoom(s.rooms, env.worker.room) else s.rooms)
          && v.persisted.value.telemost
             == (if Listens(s, env) && env.worker.TelemostRoom? && env.worker.room != "" then env.worker.room
                 else s.telemost))
  }

  lemma RoomsSnoc(rooms: seq<string>, room: string)
    requires RoomList(rooms)
    ensures Rooms(rooms + [room]) == WithRoom(rooms, room)
  {
    hide TrimSpace, RoomOK;
    RoomsKept(rooms, [room]);
    assert TrimAll(rooms + [room]) == TrimAll(rooms) + [TrimSpace(room)] by {
      assert forall i :: 0 <= i < |rooms| ==> TrimAll(rooms + [room])[i] == TrimAll(rooms)[i];
    }
    CollectSnoc(TrimAll(rooms), TrimSpace(room), RoomOK, MAX_ROOMS);
  }

  lemma InstalledListens(s: Setup, env: Env)
    ensures var t := Installed(s, env);
            t.rooms == s.rooms && t.telemost == s.telemost && (AwaitsRoom(t.step) <==> Listens(s, env))
  {
    hide Marked;
  }

  lemma CapturedTakes(s: Setup, worker: Worker)
    requires RoomList(s.rooms)
    ensures var t := Captured(s, worker);
            && t.rooms == (if AwaitsRoom(s.step) && worker.WbRoom? && worker.room != ""
               then WithRoom(s.rooms, worker.room) else s.rooms)
            && t.telemost == (if AwaitsRoom(s.step) && worker.TelemostRoom? && worker.room != "" then worker.room
               else s.telemost)
  {
    if worker.WbRoom? {
      RoomsSnoc(s.rooms, worker.room);
    }
    hide Rooms, WithRoom, RoomList, AwaitsRoom, Marked;
  }

  lemma RefreshOutcome(w: World, env: Env)
    ensures Refreshed(w, AfterRefresh(w, env), env)
  {
    hide Loaded, Rooms, WithRoom, RoomList, Captured, Installed, Listens, AwaitsRoom, Clamp;
    var s := Loaded(w.persisted, env.now);
    LoadedRooms(w.persisted, env.now);
    InstalledListens(s, env);
    CapturedTakes(Installed(s, env), env.worker);
  }

  // ---------- completions ----------

  // The order needs no complaint: its instance is there with the wanted provider, or gets created.
  predicate Served(before: seq<Instance>, order: Order, out: Outcome) {
    match Named(before, order.name)
    case Some(hit) => hit.provider == order.provider
    case None => order.name !in out.failing && order.name !in out.unread
  }

  lemma {:induction false} NoFailures(before: seq<Instance>, w: Work, orders: seq<Order>, out: Outcome)
    ensures ServeAll(before, w, orders, out).failures == []
            <==> w.failures == [] && forall i :: 0 <= i < |orders| ==> Served(before, orders[i], out)
  {
    hide Named;
    if orders != [] {
      var init := orders[..|orders| - 1];
      NoFailures(before, w, init, out);
      assert forall i :: 0 <= i < |init| ==> orders[i] == init[i];
    }
  }

  lemma {:induction false} AllStarted(created: seq<int>, notStarted: set<int>)
    ensures StartFailures(created, notStarted) == [] <==> forall id :: id in created ==> id !in notStarted
  {
    if created != [] {
      var init, last := created[..|created| - 1], created[|created| - 1];
      AllStarted(init, notStarted);
      assert created == init + [last];
    }
  }

  // A wanted name is there in the end unless creating its instance failed.
  lemma {:induction false} WantedThere(panel: Panel, a: Attempt, i: nat)
    requires |a.setup.rooms| <= 3 && i < |Orders(a.setup)| && Orders(a.setup)[i].name !in a.out.failing
    ensures Orders(a.setup)[i].name in Names(Completing(panel, a).panel.instances)
  {
    var name := Orders(a.setup)[i].name;
    assert Ordered(Orders(a.setup), name);
    CompletingCounts(panel, a, name);
    CountNames(panel.instances, name);
    CountNames(Completing(panel, a).panel.instances, name);
    hide Orders, Ordered, Completing, Count;
  }

  // Every wanted name that Create did not fail for is there.
  predicate AllThere(w: World, orders: seq<Order>, out: Outcome) {
    forall i :: 0 <= i < |orders| ==> orders[i].name in Names(w.panel.instances) || orders[i].name in out.failing
  }

  predicate NameThere(w: World, name: string, out: Outcome) {
    name in Names(w.panel.instances) || name in out.failing
  }

  // One instance for each room, under the name of its place, and one for the Telemost room unless it was skipped.
  predicate WantedAreThere(w: World, s: Setup, out: Outcome) {
    && (|s.rooms| >= 1 ==> NameThere(w, FIRST_NAME, out)) && (|s.rooms| >= 2 ==> NameThere(w, SECOND_NAME, out))
    && (|s.rooms| >= 3 ==> NameThere(w, THIRD_NAME, out))
    && (!s.skipTelemost && s.telemost != "" ==> NameThere(w, TELEMOST_NAME, out))
  }

  lemma WantedThereFrom(w: World, s: Setup, out: Outcome)
    requires |s.rooms| <= 3 && AllThere(w, Orders(s), out)
    ensures WantedAreThere(w, s, out)
  {
    hide Names, FIRST_NAME, SECOND_NAME, THIRD_NAME, TELEMOST_NAME;
    var orders := Orders(s);
    RoomOrdersAt(s.rooms, |s.rooms|);
    forall i: nat | i < |s.rooms| ensures NameThere(w, NameOf(i), out) {
      assert orders[i] == RoomOrder(s.rooms, i);
    }
    if !s.skipTelemost && s.telemost != "" {
      assert orders[|s.rooms|] == TelemostOrder(s);
    }
    hide RoomOrders;
    assert NameOf(0) == FIRST_NAME && NameOf(1) == SECOND_NAME && NameOf(2) == THIRD_NAME;
    if |s.rooms| >= 1 {
      assert NameThere(w, NameOf(0), out);
    }
    if |s.rooms| >= 2 {
      assert NameThere(w, NameOf(1), out);
    }
    if |s.rooms| >= 3 {
      assert NameThere(w, NameOf(2), out);
    }
  }

  // No order met a foreign instance or an error, and what was to be started did start.
  predicate Flawless(before: seq<Instance>, orders: seq<Order>, start: bool, created: seq<int>, env: Env) {
    && (forall i :: 0 <= i < |orders| ==> Served(before, orders[i], env.out))
    && (start ==> forall id :: id in created ==> id !in env.notStarted)
  }

  predicate Finished(w: World, v: World, s: Setup, start: bool, env: Env)
    requires |s.rooms| <= 3
  {
    && Hidden(v) && v.persisted.Some? && AllThere(v, Orders(s), env.out) && WantedAreThere(v, s, env.out)
    && var t := v.persisted.value;
       && t.step.Completed? && t.rooms == s.rooms
       && (t.trouble.NoTrouble? <==> Flawless(w.panel.instances, Orders(s), start, t.created, env))
  }

  lemma CompletingFlawless(panel: Panel, s: Setup, start: bool, env: Env)
    requires |s.rooms| <= 3
    ensures var work := Completing(panel, Attempt(s, env.out));
            var t := CompletedState(s, work, if start then StartFailures(work.created, env.notStarted) else []);
            && t.step.Completed? && t.progress == 100 && t.rooms == s.rooms && t.skipTelemost == s.skipTelemost
            && (t.trouble.NoTrouble? <==> Flawless(panel.instances, Orders(s), start, t.created, env))
  {
    hide Orders, ServeAll, Served, StartFailures, Marked;
    var work := Completing(panel, Attempt(s, env.out));
    NoFailures(panel.instances, Work(panel, s.created, []), Orders(s), env.out);
    AllStarted(work.created, env.notStarted);
    var started := if start then StartFailures(work.created, env.notStarted) else [];
    assert work.failures + started == [] <==> work.failures == [] && started == [];
  }

  lemma CompletingThere(w: World, panel: Panel, s: Setup, out: Outcome)
    requires |s.rooms| <= 3 && w.panel == Completing(panel, Attempt(s, out)).panel
    ensures AllThere(w, Orders(s), out)
  {
    hide Completing, Names, Orders;
    forall k | 0 <= k < |Orders(s)| && Orders(s)[k].name !in out.failing
      ensures Orders(s)[k].name in Names(w.panel.instances)
    {
      WantedThere(panel, Attempt(s, out), k);
    }
  }

  lemma FinishOutcome(w: World, s: Setup, start: bool, env: Env, i: nat)
    requires |s.rooms| <= 3
    ensures var r := Finish(w, s, start, env, i);
            && r.2 == (env.listed && WriteOK(env, i) && WriteOK(env, i + 1) && WriteOK(env, i + 2))
            && (r.2 ==> Finished(w, r.0, s, start, env))
            && Adds(w.panel.instances, r.0.panel.instances, s)
            && r.1.rooms == s.rooms && r.1.skipTelemost == s.skipTelemost && (!env.listed ==> r.0 == w)
            && (r.0.persisted == w.persisted
                || (r.0.persisted.Some? && r.0.persisted.value.rooms == s.rooms
                   && r.0.persisted.value.skipTelemost == s.skipTelemost))
  {
    hide Completing, CompletedState, Flawless, AllThere, Orders, StartFailures, Adds, WantedAreThere;
    CompletionAdds(w.panel, Attempt(s, env.out));
    NothingAdded(w.panel.instances, s);
    CompletingFlawless(w.panel, s, start, env);
    var there := Finish(w, s, start, env, i).0.(panel := Completing(w.panel, Attempt(s, env.out)).panel);
    CompletingThere(there, w.panel, s, env.out);
    WantedThereFrom(there, s, env.out);
  }

  lemma NothingAdded(instances: seq<Instance>, s: Setup)
    ensures Adds(instances, instances, s)
  {}

  predicate AllWritten(env: Env, from: nat, to: nat) {
    forall i :: from <= i < to ==> WriteOK(env, i)
  }

  // The state a completion request works from.
  function Request(w: World, input: CompleteInput, now: int): (s: Setup)
    ensures |s.rooms| <= 3
  {
    LoadedRooms(w.persisted, now);
    SubmittedRooms(Loaded(w.persisted, now), input);
    Submitted(Loaded(w.persisted, now), input)
  }

  ghost predicate CompletionStored(w: World, v: World, input: CompleteInput, env: Env) {
    var s := Request(w, input, env.now);
    && (!WriteOK(env, 0) ==> v == w) && Adds(w.panel.instances, v.panel.instances, s)
    && (AllWritten(env, 0, 4) && env.listed && Orders(s) != [] ==> Finished(w, v, s, input.start, env))
    && (AllWritten(env, 0, 4) && Orders(s) == [] ==>
         Hidden(v) && v.panel == w.panel && v.persisted.Some? && v.persisted.value.step.Completed?)
    && (WriteOK(env, 0) && WriteOK(env, 4) && Orders(s) != [] && !(env.listed && AllWritten(env, 1, 4)) ==>
          v.persisted.Some? && v.persisted.value.step.Failed? && v.persisted.value.rooms == s.rooms)
  }

  lemma NoOrders(s: Setup)
    requires |s.rooms| <= 3
    ensures Orders(s) == [] <==> s.rooms == [] && (s.skipTelemost || s.telemost == "")
  {
    RoomOrdersAt(s.rooms, |s.rooms|);
    hide RoomOrders;
  }

  lemma CompleteOutcome(w: World, input: CompleteInput, env: Env)
    ensures CompletionStored(w, AfterComplete(w, input, env), input, env)
  {
    hide Submitted, Finish, Orders, Loaded, Finished, WriteOK, RoomList, Adds;
    var s := Request(w, input, env.now);
    NothingAdded(w.panel.instances, s);
    var v := Save(w, s, true);
    var r := Finish(v, s, input.start, env, 1);
    FinishOutcome(v, s, input.start, env, 1);
    NoOrders(s);
    SamePanel(w, v, r.0, s, input.start, env);
  }

  lemma SamePanel(w: World, v: World, r: World, s: Setup, start: bool, env: Env)
    requires |s.rooms| <= 3 && v.panel == w.panel
    ensures Finished(v, r, s, start, env) <==> Finished(w, r, s, start, env)
  {
    hide Flawless, AllThere, Orders, WantedAreThere;
  }

  // ---------- automatic runs ----------

  // A run completes by itself once three rooms are there and nothing is left to ask or install.
  predicate Ripe(s: Setup, skip: bool, env: Env) {
    |s.rooms| == 3 && (env.installed || !env.managed) && (skip || s.telemost != "")
  }

  ghost predicate AutoRan(w: World, v: World, skip: bool, env: Env, ok: bool) {
    var s := Loaded(w.persisted, env.now);
    && Adds(w.panel.instances, v.panel.instances, s.(skipTelemost := skip))
    && (Ripe(s, skip, env) ==>
          && ok == (env.listed && AllWritten(env, 1, 4))
          && (ok ==>
                && Hidden(v) && v.persisted.Some?
                && v.persisted.value.step.Completed? && v.persisted.value.rooms == s.rooms
                && forall i :: 0 <= i < 3 ==> (NameOf(i) in Names(v.panel.instances) || NameOf(i) in env.out.failing))
          && (!env.listed ==> v == w))
    && (!Ripe(s, skip, env) ==>
          && ok == WriteOK(env, 1) && OnlyState(w, v) && (!ok ==> v == w)
          && (ok ==> v.persisted.Some? && v.persisted.value.rooms == s.rooms && 0 < v.persisted.value.progress < 100))
  }

  lemma AdvancedOutcome(s: Setup, skip: bool, env: Env)
    requires |s.rooms| <= 3
    ensures var a := Advanced(s, skip, env);
            && (a.Ready? <==> Ripe(s, skip, env))
            && a.s.rooms == s.rooms && a.s.skipTelemost == skip && a.s.telemost == s.telemost
            && (a.Waiting? ==> 0 < a.s.progress < 100)
  {
    hide Marked;
  }

  lemma RoomNames(v: World, s: Setup, out: Outcome)
    requires |s.rooms| == 3 && AllThere(v, Orders(s), out)
    ensures forall i :: 0 <= i < 3 ==> NameOf(i) in Names(v.panel.instances) || NameOf(i) in out.failing
  {
    RoomOrdersAt(s.rooms, 3);
    var orders := Orders(s);
    forall i | 0 <= i < 3 ensures NameOf(i) in Names(v.panel.instances) || NameOf(i) in out.failing {
      assert orders[i] == RoomOrder(s.rooms, i);
    }
  }

  lemma RunOutcome(w: World, skip: bool, env: Env)
    ensures var r := RunAuto(w, skip, env); AutoRan(w, r.0, skip, env, r.1)
  {
    hide Loaded, Advanced, Finish, Orders, AllThere, Flawless, Names, NameOf, Ripe, WriteOK, RoomList, Adds;
    hide WantedAreThere;
    var s := Loaded(w.persisted, env.now);
    LoadedRooms(w.persisted, env.now);
    RoomsThree(s.rooms);
    AdvancedOutcome(s, skip, env);
    var t := Advanced(s, skip, env).s;
    NothingAdded(w.panel.instances, s.(skipTelemost := skip));
    if Ripe(s, skip, env) {
      SameAdds(w.panel.instances, Finish(w, t, false, env, 1).0.panel.instances, s.(skipTelemost := skip), t);
      FinishOutcome(w, t, false, env, 1);
      RipeThree(s, skip, env);
      var v := Finish(w, t, false, env, 1).0;
      if AllThere(v, Orders(t), env.out) {
        RoomNames(v, t, env.out);
      }
    }
  }

  lemma SameAdds(before: seq<Instance>, after: seq<Instance>, s: Setup, t: Setup)
    requires s.rooms == t.rooms && s.skipTelemost == t.skipTelemost && s.telemost == t.telemost
    ensures Adds(before, after, s) <==> Adds(before, after, t)
  {
    assert forall i: Instance :: Placed(s, i) <==> Placed(t, i);
    hide Placed;
  }

  lemma RoomsThree(rooms: seq<string>)
    requires RoomList(rooms)
    ensures |rooms| <= 3
  {}

  lemma RipeThree(s: Setup, skip: bool, env: Env)
    requires Ripe(s, skip, env)
    ensures |s.rooms| == 3
  {}

  lemma RunSafe(w: World, skip: bool, env: Env)
    ensures Safe(w, RunAuto(w, skip, env).0)
  {
    hide SoundWorld, Sound, Grown, Loaded, Advanced, Finish, Save, RoomList;
    if SoundWorld(w) {
      RunAutoSound(w, skip, env);
      var s := Loaded(w.persisted, env.now);
      LoadedRooms(w.persisted, env.now);
      RoomsThree(s.rooms);
      AdvancedOutcome(s, skip, env);
      forall name ensures Grown(w, RunAuto(w, skip, env).0, name) {
        SaveGrows(w, Advanced(s, skip, env).s, WriteOK(env, 1), name);
        FinishCounts(w, Advanced(s, skip, env).s, false, env, 1, name);
      }
    }
  }

  lemma SaveGrows(w: World, s: Setup, ok: bool, name: string)
    ensures Grown(w, Save(w, s, ok), name)
  {}

  // ---------- starts ----------

  // The state a run finds right after a fresh start was stored.
  function Anew(w: World, input: StartInput, now: int): Setup {
    Loaded(Some(Begun(Loaded(w.persisted, now), input, now)), now)
  }

  predicate DraftStored(w: World, v: World, input: StartInput, env: Env) {
    && OnlyState(w, v) && (!WriteOK(env, 0) ==> v == w)
    && (SoundWorld(w) ==> Extends(w, v))
    && (WriteOK(env, 0) && input.rooms != [] ==>
          && v.persisted.Some?
          && forall i :: 0 <= i < |input.rooms| && RoomOK(TrimSpace(input.rooms[i])) ==>
               TrimSpace(input.rooms[i]) in v.persisted.value.rooms || |v.persisted.value.rooms| == MAX_ROOMS)
    && (WriteOK(env, 0) && input.skip && w.persisted.Some? ==> v.persisted.Some? && v.persisted.value.skipTelemost)
  }

  // A fresh start keeps nothing of earlier rooms, and creates instances only if the request names all it needs.
  ghost predicate StartStored(w: World, v: World, input: StartInput, env: Env) {
    && (!WriteOK(env, 0) ==> v == w)
    && Adds(w.panel.instances, v.panel.instances, Anew(w, input, env.now).(skipTelemost := input.skip))
    && (WriteOK(env, 0) ==>
          && v.persisted.Some? && v.persisted.value.rooms == Rooms(input.rooms)
          && v.persisted.value.skipTelemost == input.skip)
    && (v.panel != w.panel ==> env.listed && Ripe(Anew(w, input, env.now), input.skip, env))
    && (AllWritten(env, 0, 4) && env.listed && Ripe(Anew(w, input, env.now), input.skip, env) ==>
          Hidden(v) && forall i :: 0 <= i < 3 ==> NameOf(i) in Names(v.panel.instances) || NameOf(i) in env.out.failing)
  }

  ghost predicate Started(w: World, v: World, input: StartInput, env: Env) {
    if !input.restart && InProgress(Loaded(w.persisted, env.now)) then DraftStored(w, v, input, env)
        else StartStored(w, v, input, env)
  }

  lemma DraftTakes(s: Setup, input: StartInput)
    ensures var t := Drafted(s, input);
            && (input.rooms != [] ==>
                  forall i :: 0 <= i < |input.rooms| && RoomOK(TrimSpace(input.rooms[i])) ==>
                    TrimSpace(input.rooms[i]) in t.rooms || |t.rooms| == MAX_ROOMS)
            && (input.skip ==> t.skipTelemost)
  {
    hide CleanText, TrimSpace, RoomOK, Rooms;
    var all := s.rooms + input.rooms;
    forall i | 0 <= i < |input.rooms| && RoomOK(TrimSpace(input.rooms[i]))
      ensures TrimSpace(input.rooms[i]) in Rooms(all) || |Rooms(all)| == MAX_ROOMS
    {
      assert all[|s.rooms| + i] == input.rooms[i];
      RoomTaken(all, |s.rooms| + i);
    }
  }

  lemma RoomTaken(values: seq<string>, i: nat)
    requires i < |values| && RoomOK(TrimSpace(values[i]))
    ensures TrimSpace(values[i]) in Rooms(values) || |Rooms(values)| == MAX_ROOMS
  {
    hide TrimSpace, RoomOK, Collect;
    var all := TrimAll(values);
    CollectKeeps(all, RoomOK, MAX_ROOMS);
    assert all[i] in all;
  }

  lemma DraftOutcome(w: World, input: StartInput, env: Env)
    requires !input.restart && InProgress(Loaded(w.persisted, env.now))
    ensures DraftStored(w, AfterStart(w, input, env), input, env)
  {
    hide Drafted, RoomOK, RunAuto, Begun, TrimSpace, SoundWorld, Extends, InProgress;
    var s := Loaded(w.persisted, env.now);
    DraftTakes(s, input);
    if SoundWorld(w) {
      EventKeepsRooms(w, Start(input, env));
    }
    hide Loaded;
    assert input.skip && !Changes(s, input) ==> s.skipTelemost;
    assert w.persisted.Some? ==> s.skipTelemost == w.persisted.value.skipTelemost
        by { LoadedSkip(w.persisted, env.now); }
  }

  lemma LoadedSkip(persisted: Option<Setup>, now: int)
    ensures persisted.Some? ==> Loaded(persisted, now).skipTelemost == persisted.value.skipTelemost
  {}

  lemma RunKeeps(w: World, skip: bool, env: Env)
    ensures var v := RunAuto(w, skip, env).0;
            v.persisted == w.persisted
            || (v.persisted.Some? && v.persisted.value.rooms == Loaded(w.persisted, env.now).rooms
               && v.persisted.value.skipTelemost == skip)
  {
    hide Loaded, Advanced, Finish, Ripe, WriteOK, RoomList;
    var s := Loaded(w.persisted, env.now);
    LoadedRooms(w.persisted, env.now);
    RoomsThree(s.rooms);
    AdvancedOutcome(s, skip, env);
    FinishOutcome(w, Advanced(s, skip, env).s, false, env, 1);
  }

  lemma BegunShape(s: Setup, input: StartInput, now: int)
    ensures var b := Begun(s, input, now);
            && b.rooms == Rooms(input.rooms) && b.skipTelemost == input.skip && b.progress == 5
            && Loaded(Some(b), now).rooms == Rooms(input.rooms)
  {
    RoomsClean(input.rooms);
    RoomsKept(Rooms(input.rooms), []);
    hide Rooms, CleanText, RoomList;
  }

  lemma FreshOutcome(w: World, input: StartInput, env: Env)
    requires input.restart || !InProgress(Loaded(w.persisted, env.now))
    ensures StartStored(w, AfterStart(w, input, env), input, env)
  {
    hide Loaded, RunAuto, Begun, Drafted, Ripe, Rooms, NameOf, Names, InProgress, Adds;
    NothingAdded(w.panel.instances, Anew(w, input, env.now).(skipTelemost := input.skip));
    var begun := Begun(Loaded(w.persisted, env.now), input, env.now);
    BegunShape(Loaded(w.persisted, env.now), input, env.now);
    var v := Save(w, begun, true);
    assert v.persisted == Some(begun);
    RunKeeps(v, input.skip, env);
    RunOutcome(v, input.skip, env);
  }

  lemma StartOutcome(w: World, input: StartInput, env: Env)
    ensures Started(w, AfterStart(w, input, env), input, env)
  {
    hide DraftStored, StartStored, AfterStart, Loaded, InProgress;
    if !input.restart && InProgress(Loaded(w.persisted, env.now)) {
      DraftOutcome(w, input, env);
    } else {
      FreshOutcome(w, input, env);
    }
  }

  // ---------- skipping Telemost, and dismissals ----------

  predicate Skips(w: World) {
    w.persisted.Some? && w.persisted.value.skipTelemost
  }

  predicate TelemostStep(step: StepName) {
    step.TelemostPrompt? || step.TelemostAuthVnc? || step.TelemostRoomCreate?
  }

  predicate SkipStored(w: World, v: World, env: Env) {
    && OnlyState(w, v) && (!WriteOK(env, 0) ==> v == w)
    && (WriteOK(env, 0) ==>
          Skips(v) && v.persisted.value.telemost == "" && !TelemostStep(v.persisted.value.step)
          && v.persisted.value.rooms == Loaded(w.persisted, env.now).rooms)
  }

  lemma SkipOutcome(w: World, env: Env)
    ensures SkipStored(w, AfterSkip(w, env), env)
  {
    hide Loaded, Marked;
  }

  // Everything but a trigger and a start from the beginning.
  predicate GoesOn(w: World, e: Event) {
    match e
    case Start(input, env) => !input.restart && InProgress(Loaded(w.persisted, env.now))
    case Trigger(_) => false
    case _ => true
  }

  lemma NoTelemostOrder(s: Setup)
    requires |s.rooms| <= 3 && s.skipTelemost
    ensures !Ordered(Orders(s), TELEMOST_NAME)
  {
    RoomOrdersAt(s.rooms, |s.rooms|);
    assert TELEMOST_NAME[2] == 'T' && FIRST_NAME[2] == 'W' && SECOND_NAME[2] == 'W' && THIRD_NAME[2] == 'W';
    assert Orders(s) == RoomOrders(s.rooms, |s.rooms|);
    hide RoomOrders;
  }

  lemma FinishWithoutTelemost(w: World, s: Setup, start: bool, env: Env, i: nat)
    requires |s.rooms| <= 3 && s.skipTelemost
    ensures Count(Finish(w, s, start, env, i).0.panel.instances, TELEMOST_NAME)
            == Count(w.panel.instances, TELEMOST_NAME)
  {
    NoTelemostOrder(s);
    CompletingCounts(w.panel, Attempt(s, env.out), TELEMOST_NAME);
    hide Completing, Count, Orders, Ordered, Names;
  }

  lemma StepSkips(w: World, e: Event)
    requires Skips(w) && GoesOn(w, e)
    ensures Skips(Next(w, e))
    ensures Count(Next(w, e).panel.instances, TELEMOST_NAME) == Count(w.panel.instances, TELEMOST_NAME)
  {
    hide Count, Finish, InProgress, Orders, Adds, Finished;
    LoadedSkip(w.persisted, e.env.now);
    match e
    case Start(input, env) =>
      hide Loaded, RunAuto, Begun;
    case Complete(input, env) =>
      var s := Request(w, input, env.now);
      FinishOutcome(Save(w, s, true), s, input.start, env, 1);
      FinishWithoutTelemost(Save(w, s, true), s, input.start, env, 1);
      hide Loaded, RoomList, TrimSpace, CleanText, Marked;
    case Progress(env) =>
      CapturedSkips(Loaded(w.persisted, env.now), env);
      hide Captured, Installed, Loaded;
    case _ => hide Loaded;
  }

  lemma CapturedSkips(s: Setup, env: Env)
    ensures Captured(Installed(s, env), env.worker).skipTelemost == s.skipTelemost
  {
    hide Marked, Rooms;
  }

  /**
   A skip lasts: until the wizard is started anew or triggered, no handler creates a Telemost
   instance, not even for a completion request that names a room.
   */
  lemma {:induction false} SkipLasts(w: World, events: seq<Event>)
    requires Skips(w) && forall i :: 0 <= i < |events| ==> GoesOn(Run(w, events[..i]), events[i])
    ensures Skips(Run(w, events))
    ensures Count(Run(w, events).panel.instances, TELEMOST_NAME) == Count(w.panel.instances, TELEMOST_NAME)
  {
    hide Skips, GoesOn, Next, Count;
    if events != [] {
      var n := |events| - 1;
      var init := events[..n];
      assert forall i :: 0 <= i < n ==> init[..i] == events[..i] && init[i] == events[i];
      SkipLasts(w, init);
      StepSkips(Run(w, init), events[n]);
    }
  }

  predicate DismissalStored(w: World, v: World, env: Env) {
    var stored := WriteOK(env, 1) && WriteOK(env, 2);
    && v.panel == w.panel && (!WriteOK(env, 1) ==> v == w)
    && (WriteOK(env, 1) ==> v.persisted.Some? && v.persisted.value.step.Dismissed?
                            && v.persisted.value.rooms == Loaded(w.persisted, env.now).rooms)
    && (Shows(v) <==> if w.forced then !stored || !WriteOK(env, 3) else !stored && Shows(w))
  }

  lemma DismissOutcome(w: World, env: Env)
    ensures DismissalStored(w, AfterDismiss(w, env), env)
  {
    hide Loaded;
    DismissHides(w, env);
  }

  // ---------- reading, triggers and status requests ----------

  // Lists and texts as a reader leaves them.
  predicate Cleaned(s: Setup) {
    Sound(s) && Ids(s.created) == s.created && CleanText(s.telemost, MAX_ROOM_LENGTH) == s.telemost
  }

  /**
   A reader gets what was stored; without a stored state, the beginning; and in place of an interrupted
   creation of instances, the step before it, with everything captured so far, so that it can be repeated.
   */
  lemma LoadedResumes(s: Setup, now: int)
    requires Cleaned(s)
    ensures !s.step.CreatingInstances? ==> Loaded(Some(s), now) == s
    ensures s.step.CreatingInstances? ==>
              var t := Loaded(Some(s), now);
              t == s.(step := WbRoomsCreate, progress := t.progress) && t.progress == if |s.rooms| >= 3 then 75 else 65
    ensures Loaded(None, now) == Setup(Welcome, 0, [], [], false, [], "", NoTrouble, now)
    ensures Loaded(None, now).step.Welcome? && !InProgress(Loaded(None, now))
  {
    RoomsKept(s.rooms, []);
    hide CleanText, Rooms, Ids, RoomList, Distinct;
  }

  /** What is stored has its progress brought into range, and is otherwise as given. */
  lemma SavedAsGiven(w: World, s: Setup)
    ensures var v := Save(w, s, true);
            && v.persisted.Some? && v.persisted.value == s.(progress := v.persisted.value.progress)
            && 0 <= v.persisted.value.progress <= 100
            && (0 <= s.progress <= 100 ==> v.persisted.value == s)
            && (s.progress < 0 ==> v.persisted.value.progress == 0)
            && (s.progress > 100 ==> v.persisted.value.progress == 100)
            && Save(w, s, false) == w && OnlyState(w, v)
  {}

  /** A trigger starts the wizard anew and shows it, whatever is there; a write that fails stops it, in this order. */
  lemma TriggerOutcome(w: World, env: Env)
    ensures var v := AfterTrigger(w, env);
            && v.panel == w.panel && (!WriteOK(env, 0) ==> v == w)
            && (WriteOK(env, 0) ==> !v.firstRunDone && (v.persisted.None? <==> WriteOK(env, 1) || w.persisted.None?))
            && (AllWritten(env, 0, 3) ==> Shows(v) && v.persisted.None? && v.forced)
            && (v.forced <==> w.forced || AllWritten(env, 0, 3))
  {}

  /** A status request changes no more than a mark: that an installation with instances is not new. */
  lemma StatusOutcome(w: World, env: Env)
    ensures var v := AfterStatus(w, env);
            && v == w.(firstRunDone := v.firstRunDone) && (Shows(v) <==> Shows(w))
            && (w.firstRunDone ==> v.firstRunDone)
            && (v.firstRunDone && !w.firstRunDone <==>
                  !w.forced && !w.firstRunDone && w.panel.instances != [] && WriteOK(env, 0))
            && (Shows(w) <==> w.forced || (!w.firstRunDone && w.panel.instances == []))
  {}

  /** A wizard that was completed or dismissed is over: the next start begins anew and takes no draft. */
  lemma OverRestarts(w: World, s: Setup, start: bool, env: Env, i: nat, now: int)
    requires |s.rooms| <= 3
    ensures var r := Finish(w, s, start, env, i); r.2 ==> !InProgress(Loaded(r.0.persisted, now))
    ensures WriteOK(env, 1) ==> !InProgress(Loaded(AfterDismiss(w, env).persisted, now))
  {
    hide Completing, StartFailures, Marked, Rooms, Ids, CleanText;
  }

  /** A wizard that waits for somebody goes on with a draft. */
  lemma WaitingGoesOn(w: World, skip: bool, env: Env, now: int)
    requires !Ripe(Loaded(w.persisted, env.now), skip, env) && WriteOK(env, 1)
    ensures InProgress(Loaded(RunAuto(w, skip, env).0.persisted, now))
  {
    LoadedRooms(w.persisted, env.now);
    RoomsThree(Loaded(w.persisted, env.now).rooms);
    AdvancedOutcome(Loaded(w.persisted, env.now), skip, env);
    AdvancedSteps(Loaded(w.persisted, env.now), skip, env);
    hide Ripe, Loaded, Advanced, RoomList, Finish;
    var t := Advanced(Loaded(w.persisted, env.now), skip, env).s;
    LoadedProgress(t.(progress := Clamp(t.progress)), now);
  }

  lemma AdvancedSteps(s: Setup, skip: bool, env: Env)
    ensures var a := Advanced(s, skip, env);
            a.Waiting? ==> !a.s.step.Welcome? && !a.s.step.CreatingInstances? && !a.s.step.Unknown?
  {
    hide Marked;
  }

  lemma LoadedProgress(s: Setup, now: int)
    requires !s.step.CreatingInstances? && !s.step.Unknown?
    ensures Loaded(Some(s), now).progress == s.progress && Loaded(Some(s), now).step == s.step
  {
    hide Rooms, Ids, CleanText;
  }
}
