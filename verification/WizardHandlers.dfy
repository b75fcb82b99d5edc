/**
 The handlers of the first-run wizard, step by step, against the functions of Wizard and what
 WizardOutcomes promises their callers.
 */
module WizardHandlers {
  import opened Text
  import opened Capture
  import opened Completion
  import opened Wizard
  import opened WizardOutcomes

  class AutoSetup {
    var persisted: Option<Setup>
    var panel: Panel
    var firstRunDone: bool
    var forced: bool

    function Value(): World
      reads this
    {
      World(persisted, panel, firstRunDone, forced)
    }

    constructor (instances: Panel)
      ensures Value() == World(None, instances, false, false)
    {
      persisted, panel, firstRunDone, forced := None, instances, false, false;
    }

    method StoreState(s: Setup, ok: bool)
      modifies this`persisted
      ensures Value() == Save(old(Value()), s, ok)
    {
      if ok {
        persisted := Some(s.(progress := Clamp(s.progress)));
      }
    }

    // Create of the instance manager; it may store the instance and still return an error.
    method Create(order: Order, out: Outcome) returns (id: int, ok: bool)
      modifies this`panel
      ensures id == old(panel).nextID && (ok <==> order.name !in out.failing && order.name !in out.unread)
      ensures panel == if order.name in out.failing then old(panel)
              else Panel(old(panel).instances + [Made(order, id)], id + 1)
    {
      id, ok := panel.nextID, order.name !in out.failing && order.name !in out.unread;
      if order.name !in out.failing {
        panel := Panel(panel.instances + [Made(order, id)], id + 1);
      }
    }

    // The loop of finishAutoSetup over the rooms.
    method CreateRooms(rooms: seq<string>, created0: seq<int>, out: Outcome)
      returns (created: seq<int>, failures: seq<Failure>)
      requires |rooms| <= 3
      modifies this`panel
      ensures Work(panel, created, failures)
           == ServeAll(old(panel).instances, Work(old(panel), created0, []), RoomOrders(rooms, |rooms|), out)
    {
      hide Named, NameOf;
      var items := panel.instances;
      created, failures := created0, [];
      ghost var begin := Work(panel, created0, []);
      var index := 0;
      while index < |rooms|
        invariant 0 <= index <= |rooms|
        invariant Work(panel, created, failures) == ServeAll(items, begin, RoomOrders(rooms, index), out)
      {
        ServeNext(items, begin, rooms, index, out);
        var order := Order(NameOf(index), WB_PROVIDER, TrimSpace(rooms[index]), if index == 2 then 120 else 60);
        WbIsNotTelemost();
        index := index + 1;
        var hit := Named(items, order.name);
        if hit.Some? && hit.value.provider != WB_PROVIDER {
          failures := failures + [NameTaken(order.name)];
          continue;
        }
        var id := if hit.Some? then hit.value.id else 0;
        if hit.None? {
          var ok: bool;
          id, ok := Create(order, out);
          if !ok {
            failures := failures + [NotCreated(order.name)];
            continue;
          }
        }
        if id !in created {
          created := created + [id];
        }
      }
    }

    // Its part for Telemost.
    method CreateTelemost(items: seq<Instance>, s: Setup, created0: seq<int>, failures0: seq<Failure>, out: Outcome)
      returns (created: seq<int>, failures: seq<Failure>)
      modifies this`panel
      ensures Work(panel, created, failures)
           == ServeAll(items, Work(old(panel), created0, failures0), TelemostOrders(s), out)
    {
      created, failures := created0, failures0;
      if !s.skipTelemost && s.telemost != "" {
        var order := Order(TELEMOST_NAME, TELEMOST_PROVIDER, TrimSpace(s.telemost), 0);
        ServeSingle(items, Work(panel, created0, failures0), order, out);
        var hit := Named(items, TELEMOST_NAME);
        if hit.Some? && hit.value.provider != TELEMOST_PROVIDER {
          failures := failures + [NameTaken(TELEMOST_NAME)];
        } else if hit.None? {
          var id, ok := Create(order, out);
          if ok {
            created := created + [id];
          } else {
            failures := failures + [NotCreated(TELEMOST_NAME)];
          }
        } else if hit.value.id !in created {
          created := created + [hit.value.id];
        }
      }
    }

    // Its loop that starts what was created.
    method StartCreated(created: seq<int>, failures0: seq<Failure>,
        notStarted: set<int>) returns (failures: seq<Failure>)
      ensures failures == failures0 + StartFailures(created, notStarted)
    {
      failures := failures0;
      var i := 0;
      while i < |created|
        invariant 0 <= i <= |created|
        invariant failures == failures0 + StartFailures(created[..i], notStarted)
      {
        assert created[..i + 1][..i] == created[..i];
        if created[i] in notStarted {
          failures := failures + [NotStarted(created[i])];
        }
        i := i + 1;
      }
      assert created[..i] == created;
    }

    /** finishAutoSetup; the writes of the state and the two settings are numbered from `i`. */
    method FinishSetup(s: Setup, start: bool, env: Env, i: nat) returns (t: Setup, ok: bool)
      requires |s.rooms| <= 3
      modifies this
      ensures (Value(), t, ok) == Finish(old(Value()), s, start, env, i)
      ensures Adds(old(panel).instances, panel.instances, s)
      ensures ok ==> Finished(old(Value()), Value(), s, start, env)
    {
      hide Finish, Adds, Finished;
      FinishOutcome(Value(), s, start, env, i);
      t, ok := FinishSteps(s, start, env, i);
    }

    // Its steps.
    method FinishSteps(s: Setup, start: bool, env: Env, i: nat) returns (t: Setup, ok: bool)
      requires |s.rooms| <= 3
      modifies this
      ensures (Value(), t, ok) == Finish(old(Value()), s, start, env, i)
    {
      hide Save, ServeAll, StartFailures, Marked, RoomOrders, TelemostOrders, WriteOK;
      t := s;
      if !env.listed {
        return s, false;
      }
      var items := panel.instances;
      ghost var begin := Work(panel, s.created, []);
      var created, failures := CreateRooms(s.rooms, s.created, env.out);
      created, failures := CreateTelemost(items, s, created, failures, env.out);
      ServeConcat(items, begin, RoomOrders(s.rooms, |s.rooms|), TelemostOrders(s), env.out);
      if start {
        failures := StartCreated(created, failures, env.notStarted);
      } else {
        assert failures + [] == failures;
      }
      t := s.(created := created, step := Completed, progress := 100);
      t := t.(trouble := if failures == [] then NoTrouble else Failures(failures));
      var marks := MarkStep(t.completed, InstancesCreated);
      marks := MarkStep(marks, InstancesStarted);
      t := t.(completed := marks);
      StoreState(t, WriteOK(env, i));
      if !WriteOK(env, i) || !WriteOK(env, i + 1) {
        return t, false;
      }
      firstRunDone := true;
      ok := WriteOK(env, i + 2);
      if ok {
        forced := false;
      }
    }

    // What a refresh makes of the installation of components.
    method TakeInstall(s0: Setup, env: Env) returns (s: Setup)
      ensures s == Installed(s0, env)
    {
      s := s0;
      if s.step.PlaywrightInstall? {
        if env.installed || env.install.Done? {
          var marks := MarkStep(s.completed, PlaywrightInstalled);
          s := s.(completed := marks, step := WbAuthPrompt, progress := 25);
        } else if env.install.Broken? {
          s := s.(step := Failed, progress := env.install.percent, trouble := Message(env.install.text));
        }
      }
    }

    // What it makes of the browser worker's report.
    method TakeRoom(s0: Setup, worker: Worker) returns (s: Setup)
      ensures s == Captured(s0, worker)
    {
      hide Rooms, Marked;
      s := s0;
      if AwaitsRoom(s.step) {
        match worker {
          case NoRoom =>
          case TelemostRoom(room) =>
            if room != "" {
              var marks := MarkStep(s.completed, TelemostLoggedIn);
              s := s.(telemost := room, completed := marks, step := TelemostRoomCreate, progress := 60);
            }
          case WbRoom(room) =>
            if room != "" {
              var rooms := CleanRooms(s.rooms + [room]);
              var marks := MarkStep(s.completed, WbLoggedIn);
              s := s.(rooms := rooms, completed := marks);
              if |s.rooms| >= 3 {
                if !s.skipTelemost && s.telemost == "" {
                  s := s.(step := TelemostPrompt, progress := 80);
                } else {
                  s := s.(step := WbRoomsCreate, progress := 75);
                }
              } else {
                s := s.(step := WbRoomsCreate, progress := 65);
              }
            }
        }
      }
    }

    /** refreshAutoSetupProgress */
    method Refresh(env: Env)
      modifies this`persisted
      ensures Value() == AfterRefresh(old(Value()), env)
      ensures Safe(old(Value()), Value())
      ensures Refreshed(old(Value()), Value(), env)
    {
      hide Safe, Refreshed, Loaded, Save, Installed, Captured, Next;
      RefreshOutcome(Value(), env);
      RefreshSafe(Value(), env);
      var s := Loaded(persisted, env.now);
      s := TakeInstall(s, env);
      s := TakeRoom(s, env.worker);
      StoreState(s, WriteOK(env, 0));
    }

    // The decisions of runAutoSetup.
    method Advance(s0: Setup, skip: bool, env: Env) returns (a: Advance)
      ensures a == Advanced(s0, skip, env)
    {
      hide Marked;
      var s := s0.(skipTelemost := skip);
      if !env.installed && (env.managed || s.rooms == []) {
        if env.supported {
          s := s.(step := PlaywrightInstall, progress := 12);
        } else {
          var marks := MarkStep(s.completed, PlaywrightChecked);
          s := s.(completed := marks, step := WbAuthPrompt, progress := 22);
        }
        return Waiting(s);
      }
      var marks := MarkStep(s.completed, PlaywrightChecked);
      marks := MarkStep(marks, PlaywrightInstalled);
      s := s.(completed := marks);
      if !env.tokenSet && s.rooms == [] {
        return Waiting(s.(step := WbAuthPrompt, progress := 28));
      }
      marks := MarkStep(s.completed, WbPrompted);
      s := s.(completed := marks);
      if !skip && s.telemost == "" {
        return Waiting(s.(step := TelemostPrompt, progress := 42));
      }
      if skip {
        marks := MarkStep(s.completed, TelemostSkipped);
        s := s.(completed := marks);
      }
      if |s.rooms| < 3 {
        return Waiting(s.(step := WbRoomsCreate, progress := 65));
      }
      a := Ready(s);
    }

    /** runAutoSetup */
    method RunSetup(skip: bool, env: Env) returns (ok: bool)
      modifies this
      ensures (Value(), ok) == RunAuto(old(Value()), skip, env)
      ensures Safe(old(Value()), Value())
      ensures AutoRan(old(Value()), Value(), skip, env, ok)
    {
      hide Safe, AutoRan, Loaded, Save, Finish, Advanced, RoomList, WriteOK;
      RunOutcome(Value(), skip, env);
      RunSafe(Value(), skip, env);
      var s := Loaded(persisted, env.now);
      LoadedRooms(persisted, env.now);
      RoomsShort(s.rooms);
      AdvancedRooms(s, skip, env);
      var a := Advance(s, skip, env);
      if a.Waiting? {
        ok := WriteOK(env, 1);
        StoreState(a.s, ok);
      } else {
        var t: Setup;
        t, ok := FinishSetup(a.s, false, env, 1);
      }
    }

    /** handleAutoSetupStart */
    method StartSetup(input: StartInput, env: Env)
      modifies this
      ensures Value() == AfterStart(old(Value()), input, env)
      ensures Safe(old(Value()), Value())
      ensures Started(old(Value()), Value(), input, env)
    {
      StartOutcome(Value(), input, env);
      HandlerSafe(Value(), Start(input, env));
      hide Safe, Started, AutoRan;
      hide Loaded, Save, RunAuto, CleanText, TrimSpace, Rooms;
      var s := Loaded(persisted, env.now);
      if !input.restart && InProgress(s) {
        var changed := false;
        var step := s.step;
        if input.rooms != [] {
          var rooms := CleanRooms(s.rooms + input.rooms);
          s := s.(rooms := rooms);
          changed := true;
        }
        if TrimSpace(input.telemost) != "" {
          s := s.(telemost := CleanText(input.telemost, MAX_ROOM_LENGTH));
          changed := true;
        }
        if input.skip && !s.skipTelemost {
          s := s.(skipTelemost := true);
          changed := true;
        }
        if ValidStep(input.step) && input.step != step {
          s := s.(step := input.step);
          if input.progress > 0 {
            s := s.(progress := Clamp(input.progress));
          }
          changed := true;
        }
        if changed {
          StoreState(s, WriteOK(env, 0));
        }
        return;
      }
      if input.restart || s.progress >= 100 || s.step.Dismissed? {
        s := Default(env.now);
      }
      var rooms := CleanRooms(input.rooms);
      s := s.(skipTelemost := input.skip, rooms := rooms, telemost := CleanText(input.telemost, MAX_ROOM_LENGTH));
      s := s.(step := PlaywrightCheck, progress := 5);
      if !WriteOK(env, 0) {
        return;
      }
      StoreState(s, true);
      var ok := RunSetup(input.skip, env);
      if !ok {
        StoreState(s.(trouble := Message("start"), step := Failed), WriteOK(env, 4));
      }
    }

    // The state a completion request leaves before anything is created.
    method Submit(loaded: Setup, input: CompleteInput) returns (s: Setup)
      ensures s == Submitted(loaded, input)
    {
      hide CleanText, TrimSpace, Rooms, Ids, Marked;
      s := loaded;
      if input.rooms != [] {
        var rooms := CleanRooms(input.rooms);
        s := s.(rooms := rooms);
      }
      if TrimSpace(input.telemost) != "" {
        s := s.(telemost := CleanText(input.telemost, MAX_ROOM_LENGTH));
      } else if input.skip {
        s := s.(telemost := "");
      }
      if input.skip {
        var marks := MarkStep(s.completed, TelemostSkipped);
        s := s.(skipTelemost := true, completed := marks);
      }
      if input.created != [] {
        var ids := CleanIds(input.created);
        s := s.(created := ids);
      }
      s := s.(step := CreatingInstances, progress := 70);
    }

    /** handleAutoSetupComplete */
    method CompleteSetup(input: CompleteInput, env: Env)
      modifies this
      ensures Value() == AfterComplete(old(Value()), input, env)
      ensures Safe(old(Value()), Value())
      ensures CompletionStored(old(Value()), Value(), input, env)
    {
      CompleteOutcome(Value(), input, env);
      HandlerSafe(Value(), Complete(input, env));
      hide Safe, CompletionStored;
      hide Loaded, Save, Finish, Submitted, RoomList, Settled;
      LoadedRooms(persisted, env.now);
      SubmittedRooms(Loaded(persisted, env.now), input);
      var s := Submit(Loaded(persisted, env.now), input);
      RoomsShort(s.rooms);
      if !WriteOK(env, 0) {
        return;
      }
      StoreState(s, true);
      if s.rooms != [] || (!s.skipTelemost && s.telemost != "") {
        var t, ok := FinishSetup(s, input.start, env, 1);
        if !ok {
          StoreState(t.(step := Failed, trouble := Message("complete")), WriteOK(env, 4));
        }
      } else {
        StoreState(s.(step := Completed, progress := 100), WriteOK(env, 1));
        Settle(env);
      }
    }

    // Marks the first run as done after write number 1; a failure to clear the other setting is ignored.
    method Settle(env: Env)
      modifies this`firstRunDone, this`forced
      ensures Value() == Settled(old(Value()), env)
    {
      if WriteOK(env, 1) && WriteOK(env, 2) {
        firstRunDone := true;
        if WriteOK(env, 3) {
          forced := false;
        }
      }
    }

    /** handleAutoSetupSkipTelemost */
    method SkipTelemost(env: Env)
      modifies this`persisted
      ensures Value() == AfterSkip(old(Value()), env)
      ensures Safe(old(Value()), Value())
      ensures SkipStored(old(Value()), Value(), env)
    {
      SkipOutcome(Value(), env);
      HandlerSafe(Value(), Skip(env));
      hide Safe, SkipStored;
      hide Loaded, Save;
      var s := Loaded(persisted, env.now);
      var marks := MarkStep(s.completed, TelemostSkipped);
      var step := s.step;
      s := s.(skipTelemost := true, telemost := "", completed := marks);
      if step.TelemostPrompt? || step.TelemostAuthVnc? || step.TelemostRoomCreate? {
        s := s.(step := WbRoomsCreate, progress := if |s.rooms| >= 3 then 75 else 65);
      }
      StoreState(s, WriteOK(env, 0));
    }

    /** handleAutoSetupDismiss */
    method DismissSetup(env: Env)
      modifies this
      ensures Value() == AfterDismiss(old(Value()), env)
      ensures Safe(old(Value()), Value())
      ensures DismissalStored(old(Value()), Value(), env)
    {
      DismissOutcome(Value(), env);
      HandlerSafe(Value(), Dismiss(env));
      hide Safe, DismissalStored;
      hide Loaded, Save;
      var s := Loaded(persisted, env.now);
      StoreState(s.(step := Dismissed, progress := 100), WriteOK(env, 1));
      Settle(env);
    }
  }

  lemma RefreshSafe(w: World, env: Env)
    ensures Safe(w, AfterRefresh(w, env))
  {
    hide Safe, AfterRefresh;
    HandlerSafe(w, Progress(env));
  }

  lemma AdvancedRooms(s: Setup, skip: bool, env: Env)
    ensures Advanced(s, skip, env).s.rooms == s.rooms
  {
    hide Marked;
  }

  lemma RoomsShort(rooms: seq<string>)
    requires RoomList(rooms)
    ensures |rooms| <= 3
  {}

  lemma WbIsNotTelemost()
    ensures WB_PROVIDER != TELEMOST_PROVIDER
  {
    assert WB_PROVIDER[0] == 'w' && TELEMOST_PROVIDER[0] == 't';
  }

  lemma ServeNext(items: seq<Instance>, begin: Work, rooms: seq<string>, index: nat, out: Outcome)
    requires index < |rooms| <= 3
    ensures ServeAll(items, begin, RoomOrders(rooms, index + 1), out)
         == Serve(items, ServeAll(items, begin, RoomOrders(rooms, index), out), RoomOrder(rooms, index), out)
  {
    var orders := RoomOrders(rooms, index + 1);
    assert orders[..|orders| - 1] == RoomOrders(rooms, index);
  }

  lemma {:induction false} ServeSingle(items: seq<Instance>, begin: Work, order: Order, out: Outcome)
    ensures ServeAll(items, begin, [order], out) == Serve(items, begin, order, out)
  {
    assert [order][..0] == [];
    assert ServeAll(items, begin, [], out) == begin;
  }

  lemma {:induction false} ServeConcat(items: seq<Instance>, begin: Work, a: seq<Order>, b: seq<Order>, out: Outcome)
    ensures ServeAll(items, begin, a + b, out) == ServeAll(items, ServeAll(items, begin, a, out), b, out)
  {
    if b == [] {
      assert a + b == a;
    } else {
      assert (a + b)[..|a + b| - 1] == a + b[..|b| - 1];
      ServeConcat(items, begin, a, b[..|b| - 1], out);
    }
  }
}
