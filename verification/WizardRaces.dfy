/**
 Refreshes and drafts of the first-run wizard as they are: each reads the stored state in one
 locked section and saves in another, so that two of them can interleave.  Skipping Telemost and
 dismissing read and save in one section.
 */
module WizardRaces {
  import opened Text
  import opened Capture
  import opened Completion
  import opened Wizard
  import opened WizardOutcomes

  // A handler that has read the stored state: a refresh, or a start request that goes on as a draft.
  datatype Task = Refreshing(read: Option<Setup>) | Drafting(read: Option<Setup>)

  datatype State = State(world: World, tasks: map<nat, Task>)

  datatype Step =
    | ReadRefresh(id: nat)
    | ReadDraft(id: nat)
    | SaveRefresh(id: nat, env: Env)
    | SaveDraft(id: nat, input: StartInput, env: Env)
    | SkipStep(env: Env)
    | DismissStep(env: Env)

  predicate Saves(s: State, step: Step) {
    || (step.SaveRefresh? && step.id in s.tasks && s.tasks[step.id].Refreshing?)
    || (step.SaveDraft? && step.id in s.tasks && s.tasks[step.id].Drafting? && !step.input.restart
        && InProgress(Loaded(s.tasks[step.id].read, step.env.now)))
  }

  // The world as the handler has read it.
  function Seen(s: State, id: nat): World
    requires id in s.tasks
  {
    s.world.(persisted := s.tasks[id].read)
  }

  // What the handler wants to save, if anything.
  function Wanted(s: State, step: Step): Option<Setup>
    requires Saves(s, step)
  {
    var loaded := Loaded(s.tasks[step.id].read, step.env.now);
    if step.SaveRefresh? then Some(Captured(Installed(loaded, step.env), step.env.worker))
    else if Changes(loaded, step.input) then Some(Drafted(loaded, step.input)) else None
  }

  function Next(s: State, step: Step): State {
    match step
    case ReadRefresh(id) => if id in s.tasks then s else s.(tasks := s.tasks[id := Refreshing(s.world.persisted)])
    case ReadDraft(id) => if id in s.tasks then s else s.(tasks := s.tasks[id := Drafting(s.world.persisted)])
    case SkipStep(env) => s.(world := AfterSkip(s.world, env))
    case DismissStep(env) => s.(world := AfterDismiss(s.world, env))
    case _ =>
      if !Saves(s, step) then s
      else
        var wanted := Wanted(s, step);
        State(if wanted.Some? then Save(s.world, wanted.value, WriteOK(step.env, 0)) else s.world, s.tasks - {step.id})
  }

  function Run(s: State, steps: seq<Step>): State {
    if steps == [] then s else Next(Run(s, steps[..|steps| - 1]), steps[|steps| - 1])
  }

  /** A handler that still has the stored state before it does what Wizard says of it. */
  lemma CurrentIsHandler(s: State, step: Step)
    requires Saves(s, step) && s.tasks[step.id].read == s.world.persisted
    ensures Next(s, step).world
         == if step.SaveRefresh? then AfterRefresh(s.world, step.env) else AfterStart(s.world, step.input, step.env)
  {
    hide Loaded, Captured, Installed, Drafted, RunAuto, Begun, Changes, InProgress;
  }

  // ---------- what every interleaving keeps ----------

  predicate SoundState(s: State) {
    SoundWorld(s.world) && forall id :: id in s.tasks ==> SoundWorld(Seen(s, id))
  }

  function RoomsOf(persisted: Option<Setup>): seq<string> {
    if persisted.Some? then persisted.value.rooms else []
  }

  lemma WantedSound(s: State, step: Step)
    requires SoundState(s) && Saves(s, step)
    ensures var wanted := Wanted(s, step);
            wanted.Some? ==> Sound(wanted.value) && RoomsOf(s.tasks[step.id].read) <= wanted.value.rooms
  {
    var w := Seen(s, step.id);
    var loaded := Loaded(w.persisted, step.env.now);
    assert SoundWorld(w);
    LoadedSound(w, step.env.now);
    hide Sound, SoundWorld, Loaded, Captured, Installed, Drafted, Changes;
    if step.SaveRefresh? {
      InstalledSound(loaded, step.env);
      CapturedSound(Installed(loaded, step.env), step.env.worker);
    } else {
      DraftedSound(loaded, step.input);
    }
  }

  lemma NextSound(s: State, step: Step)
    requires SoundState(s)
    ensures SoundState(Next(s, step))
  {
    hide Sound, Loaded;
    match step
    case ReadRefresh(id) => ReadSound(s, id, Refreshing(s.world.persisted));
    case ReadDraft(id) => ReadSound(s, id, Drafting(s.world.persisted));
    case SkipStep(env) => AtomicSound(s, Skip(env));
    case DismissStep(env) => AtomicSound(s, Dismiss(env));
    case _ =>
      if Saves(s, step) {
        SaveStepSound(s, step);
      }
  }

  lemma SaveStepSound(s: State, step: Step)
    requires SoundState(s) && Saves(s, step)
    ensures SoundState(Next(s, step))
  {
    WantedSound(s, step);
    hide Wanted, Sound, Clamp, Saves;
    var t := Next(s, step);
    forall k | k in t.tasks ensures SoundWorld(Seen(t, k)) {
      assert SoundWorld(Seen(s, k));
    }
  }

  lemma ReadSound(s: State, id: nat, task: Task)
    requires SoundState(s) && task.read == s.world.persisted
    ensures SoundState(s.(tasks := s.tasks[id := task]))
  {
    hide Sound;
    var t := s.(tasks := s.tasks[id := task]);
    forall k | k in t.tasks ensures SoundWorld(Seen(t, k)) {
      assert k != id ==> Seen(t, k) == Seen(s, k);
    }
  }

  lemma AtomicSound(s: State, e: Event)
    requires SoundState(s) && (e.Skip? || e.Dismiss?)
    ensures SoundState(s.(world := Wizard.Next(s.world, e)))
  {
    hide Sound, Wizard.Next;
    NextKeepsSound(s.world, e);
    forall id | id in s.tasks ensures SoundWorld(s.world.(persisted := s.tasks[id].read)) {
      assert SoundWorld(Seen(s, id));
    }
  }

  lemma {:induction false} RunSound(s: State, steps: seq<Step>)
    requires SoundState(s)
    ensures SoundState(Run(s, steps))
  {
    hide SoundState, Next;
    if steps != [] {
      RunSound(s, steps[..|steps| - 1]);
      NextSound(Run(s, steps[..|steps| - 1]), steps[|steps| - 1]);
    }
  }

  // ---------- when a room is lost ----------

  // The rooms the handler itself brings.
  function Brought(s: State, step: Step): seq<string>
    requires Saves(s, step)
  {
    if step.SaveDraft? then step.input.rooms
    else
      var loaded := Loaded(s.tasks[step.id].read, step.env.now);
      if Listens(loaded, step.env) && step.env.worker.WbRoom? && step.env.worker.room != ""
          then [step.env.worker.room] else []
  }

  lemma WantedRooms(s: State, step: Step)
    requires SoundState(s) && Saves(s, step) && Wanted(s, step).Some?
    ensures Wanted(s, step).value.rooms == Rooms(RoomsOf(s.tasks[step.id].read) + Brought(s, step))
    ensures RoomList(RoomsOf(s.tasks[step.id].read))
  {
    var w := Seen(s, step.id);
    var loaded := Loaded(w.persisted, step.env.now);
    assert SoundWorld(w);
    LoadedSound(w, step.env.now);
    assert loaded.rooms == RoomsOf(w.persisted) && RoomList(loaded.rooms) by { LoadedEmpty(w.persisted, step.env.now); }
    RoomsKept(loaded.rooms, []);
    assert loaded.rooms + [] == loaded.rooms;
    hide Sound, SoundWorld, Loaded, Captured, Installed, RoomList, Rooms, Changes;
    if step.SaveRefresh? {
      InstalledListens(loaded, step.env);
      InstalledRooms(loaded, step.env);
      CapturedTakes(Installed(loaded, step.env), step.env.worker);
      if step.env.worker.WbRoom? {
        RoomsSnoc(loaded.rooms, step.env.worker.room);
      }
    }
  }

  lemma LoadedEmpty(persisted: Option<Setup>, now: int)
    ensures persisted.None? ==> Loaded(persisted, now).rooms == []
    ensures RoomList(Loaded(persisted, now).rooms)
  {
    LoadedRooms(persisted, now);
  }

  lemma InstalledRooms(s: Setup, env: Env)
    ensures Installed(s, env).rooms == s.rooms
  {}

  // The step writes a state, and with it a list of rooms.
  predicate Stores(s: State, step: Step) {
    Saves(s, step) && Wanted(s, step).Some? && WriteOK(step.env, 0)
  }

  /**
   Exactly when a save drops a captured room: when the handler had not read it and does not
   bring it itself.  Only a full list may also drop a room the handler brings.
   */
  lemma LostExactly(s: State, step: Step, room: string)
    requires SoundState(s) && Stores(s, step) && room in RoomsOf(s.world.persisted)
    ensures var read, kept := RoomsOf(s.tasks[step.id].read), RoomsOf(Next(s, step).world.persisted);
            && (room in read ==> room in kept)
            && (room !in read && room !in TrimAll(Brought(s, step)) ==> room !in kept)
            && (|kept| < MAX_ROOMS ==> (room in kept <==> room in read || room in TrimAll(Brought(s, step))))
  {
    WantedRooms(s, step);
    var read, more := RoomsOf(s.tasks[step.id].read), Brought(s, step);
    assert RoomOK(room) by { StoredRoom(s.world, room); }
    hide SoundState, Wanted, Brought, Loaded, RoomOK, TrimSpace, RoomList;
    RoomsKept(read, more);
    CollectKeeps(TrimAll(read + more), RoomOK, MAX_ROOMS);
    TrimmedParts(read, more);
    hide Collect;
  }

  lemma StoredRoom(w: World, room: string)
    requires SoundWorld(w) && room in RoomsOf(w.persisted)
    ensures RoomOK(room)
  {
    hide RoomOK;
  }

  lemma TrimmedParts(a: seq<string>, b: seq<string>)
    requires RoomList(a)
    ensures forall r :: r in TrimAll(a + b) <==> r in a || r in TrimAll(b)
  {
    TrimAllFixed(a);
    hide TrimSpace, RoomOK;
    var all := TrimAll(a + b);
    assert forall i :: 0 <= i < |a| ==> all[i] == TrimAll(a)[i];
    assert forall i :: 0 <= i < |b| ==> all[|a| + i] == TrimAll(b)[i];
  }

  // Since the handler read, no one has stored other rooms.
  predicate Current(s: State, step: Step) {
    Stores(s, step) ==> RoomsOf(s.tasks[step.id].read) == RoomsOf(s.world.persisted)
  }

  lemma StepKeepsRooms(s: State, step: Step)
    requires SoundState(s) && Current(s, step)
    ensures RoomsOf(s.world.persisted) <= RoomsOf(Next(s, step).world.persisted)
  {
    match step
    case ReadRefresh(_) =>
    case ReadDraft(_) =>
    case SkipStep(env) => AtomicRooms(s.world, Skip(env));
    case DismissStep(env) => AtomicRooms(s.world, Dismiss(env));
    case _ =>
      if Saves(s, step) {
        WantedSound(s, step);
        hide SoundState, Wanted, Sound, Loaded;
      }
  }

  lemma AtomicRooms(w: World, e: Event)
    requires SoundWorld(w) && (e.Skip? || e.Dismiss?)
    ensures RoomsOf(w.persisted) <= RoomsOf(Wizard.Next(w, e).persisted)
  {
    EventKeepsRooms(w, e);
    hide SoundWorld, Wizard.Next;
  }

  /**
   In every interleaving captured rooms stay in their places as long as no handler stores over
   rooms that others stored since it read.
   */
  lemma {:induction false} RoomsStay(s: State, steps: seq<Step>)
    requires SoundState(s) && forall i :: 0 <= i < |steps| ==> Current(Run(s, steps[..i]), steps[i])
    ensures RoomsOf(s.world.persisted) <= RoomsOf(Run(s, steps).world.persisted)
  {
    hide SoundState, Next, Current;
    if steps != [] {
      var n := |steps| - 1;
      assert forall i :: 0 <= i < n ==> steps[..n][..i] == steps[..i] && steps[..n][i] == steps[i];
      RoomsStay(s, steps[..n]);
      RunSound(s, steps[..n]);
      StepKeepsRooms(Run(s, steps[..n]), steps[n]);
    }
  }

  // ---------- such a loss ----------

  // A refresh and a draft both read before either saves.
  function Race(refresh: Env, draft: Env, input: StartInput): seq<Step> {
    [ReadRefresh(0)] + [ReadDraft(1)] + [SaveRefresh(0, refresh)] + [SaveDraft(1, input, draft)]
  }

  lemma {:induction false} RunSnoc(s: State, steps: seq<Step>, step: Step)
    ensures Run(s, steps + [step]) == Next(Run(s, steps), step)
  {
    assert (steps + [step])[..|steps|] == steps;
  }

  /** The room a refresh has just captured is gone once a draft that read before it saves another one. */
  lemma {:induction false} RaceLosesRoom(w: World, refresh: Env, draft: Env, input: StartInput, room: string)
    requires SoundWorld(w) && w.persisted.Some? && WriteOK(refresh, 0) && WriteOK(draft, 0)
    requires InProgress(Loaded(w.persisted, draft.now)) && !input.restart && input.rooms != []
    requires Listens(Loaded(w.persisted, refresh.now), refresh) && refresh.worker == WbRoom(room)
    requires RoomOK(room) && Trimmed(room) && room !in RoomsOf(w.persisted) && |RoomsOf(w.persisted)| < MAX_ROOMS
    requires room !in TrimAll(input.rooms)
    ensures var s := Run(State(w, map[]), [ReadRefresh(0)] + [ReadDraft(1)] + [SaveRefresh(0, refresh)]);
            room in RoomsOf(s.world.persisted)
    ensures room !in RoomsOf(Run(State(w, map[]), Race(refresh, draft, input)).world.persisted)
  {
    var s2 := BothRead(w);
    var s3 := Next(s2, SaveRefresh(0, refresh));
    hide SoundWorld, Loaded, Run, RoomOK, Next, Listens, InProgress, SoundState;
    RaceStates(w, refresh, draft, input);
    BothSound(w);
    RefreshTakes(s2, refresh, room);
    NextSound(s2, SaveRefresh(0, refresh));
    DraftLoses(w, s3, draft, input, room);
  }

  // The refresh and the draft have both read.
  function BothRead(w: World): State {
    State(w, map[0 := Refreshing(w.persisted), 1 := Drafting(w.persisted)])
  }

  lemma BothSound(w: World)
    requires SoundWorld(w)
    ensures SoundState(BothRead(w))
  {}

  lemma RaceStates(w: World, refresh: Env, draft: Env, input: StartInput)
    ensures var s0, s3 := State(w, map[]), Next(BothRead(w), SaveRefresh(0, refresh));
            && Run(s0, [ReadRefresh(0)] + [ReadDraft(1)] + [SaveRefresh(0, refresh)]) == s3
            && Run(s0, Race(refresh, draft, input)) == Next(s3, SaveDraft(1, input, draft))
            && 1 in s3.tasks && s3.tasks[1] == Drafting(w.persisted)
  {
    var s0 := State(w, map[]);
    RunSnoc(s0, [], ReadRefresh(0));
    RunSnoc(s0, [ReadRefresh(0)], ReadDraft(1));
    RunSnoc(s0, [ReadRefresh(0)] + [ReadDraft(1)], SaveRefresh(0, refresh));
    RunSnoc(s0, [ReadRefresh(0)] + [ReadDraft(1)] + [SaveRefresh(0, refresh)], SaveDraft(1, input, draft));
    assert Run(s0, []) == s0;
    hide Run, Wanted, Loaded, InProgress, WriteOK, Save;
    assert Next(Next(s0, ReadRefresh(0)), ReadDraft(1)) == BothRead(w);
  }

  lemma DraftLoses(w: World, s: State, draft: Env, input: StartInput, room: string)
    requires SoundState(s) && 1 in s.tasks && s.tasks[1] == Drafting(w.persisted) && WriteOK(draft, 0)
    requires InProgress(Loaded(w.persisted, draft.now)) && !input.restart && input.rooms != []
    requires room in RoomsOf(s.world.persisted) && room !in RoomsOf(w.persisted) && room !in TrimAll(input.rooms)
    ensures room !in RoomsOf(Next(s, SaveDraft(1, input, draft)).world.persisted)
  {
    hide SoundState, Loaded, InProgress, Next, Drafted, TrimAll;
    LostExactly(s, SaveDraft(1, input, draft), room);
  }

  lemma RefreshTakes(s: State, refresh: Env, room: string)
    requires SoundState(s) && 0 in s.tasks && s.tasks[0] == Refreshing(s.world.persisted) && WriteOK(refresh, 0)
    requires Listens(Loaded(s.world.persisted, refresh.now), refresh) && refresh.worker == WbRoom(room)
    requires RoomOK(room) && Trimmed(room) && room !in RoomsOf(s.world.persisted)
             && |RoomsOf(s.world.persisted)| < MAX_ROOMS
    ensures room in RoomsOf(Next(s, SaveRefresh(0, refresh)).world.persisted)
  {
    var step := SaveRefresh(0, refresh);
    WantedRooms(s, step);
    assert room != "";
    TrimmedFixed(room);
    assert Brought(s, step) == [room];
    hide SoundState, Wanted, Brought, Loaded, RoomOK, TrimSpace, RoomList, Listens;
    RoomsSnoc(RoomsOf(s.world.persisted), room);
  }
}
