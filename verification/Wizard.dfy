/**
 The handlers of the first-run wizard as functions of the stored state, and what every run
 of them keeps.
 */
module Wizard {
  import opened Text
  import opened Capture
  import opened Completion

  // ---------- handlers ----------

  // Everything the wizard keeps: its state, the instances, and two settings.
  datatype World = World(persisted: Option<Setup>, panel: Panel, firstRunDone: bool, forced: bool)

  // What the state file of the browser worker says, if it reports success; see workerFresh.
  datatype Worker = NoRoom | WbRoom(room: string) | TelemostRoom(room: string)

  datatype Install = Idle | Done | Broken(percent: int, text: string)

  // What a handler finds around it; `writes` tells which writes to the settings store succeed.
  datatype Env = Env(
    now: int, installed: bool, supported: bool, managed: bool, tokenSet: bool, install: Install, worker: Worker,
    listed: bool, out: Outcome, notStarted: set<int>, writes: seq<bool>)

  predicate WriteOK(env: Env, i: nat) {
    i < |env.writes| ==> env.writes[i]
  }

  // saveAutoSetupStateLocked
  function Save(w: World, s: Setup, ok: bool): World {
    if ok then w.(persisted := Some(s.(progress := Clamp(s.progress)))) else w
  }

  // The state after completing over the instances.
  function CompletedState(s: Setup, work: Work, started: seq<Failure>): Setup {
    var failures := work.failures + started;
    s.(created := work.created, step := Completed, progress := 100,
       trouble := if failures == [] then NoTrouble else Failures(failures),
       completed := Marked(Marked(s.completed, InstancesCreated), InstancesStarted))
  }

  // finishAutoSetup; the three writes from number `i` on are the state and the two settings.
  function Finish(w: World, s: Setup, start: bool, env: Env, i: nat): (World, Setup, bool)
    requires |s.rooms| <= 3
  {
    if !env.listed then (w, s, false)
    else
      var work := Completing(w.panel, Attempt(s, env.out));
      var t := CompletedState(s, work, if start then StartFailures(work.created, env.notStarted) else []);
      var v := Save(w.(panel := work.panel), t, WriteOK(env, i));
      if !WriteOK(env, i) then (v, t, false)
      else if !WriteOK(env, i + 1) then (v, t, false)
      else if !WriteOK(env, i + 2) then (v.(firstRunDone := true), t, false)
      else (v.(firstRunDone := true, forced := false), t, true)
  }

  // runAutoSetup up to the point where it saves or completes.
  datatype Advance = Waiting(s: Setup) | Ready(s: Setup)

  function Advanced(s0: Setup, skip: bool, env: Env): Advance {
    var s := s0.(skipTelemost := skip);
    if !env.installed && (env.managed || s.rooms == []) then
      Waiting(if env.supported then s.(step := PlaywrightInstall, progress := 12)
              else s.(completed := Marked(s.completed, PlaywrightChecked), step := WbAuthPrompt, progress := 22))
    else
      var checked := s.(completed := Marked(Marked(s.completed, PlaywrightChecked), PlaywrightInstalled));
      if !env.tokenSet && s.rooms == [] then Waiting(checked.(step := WbAuthPrompt, progress := 28))
      else
        var prompted := checked.(completed := Marked(checked.completed, WbPrompted));
        if !skip && s.telemost == "" then Waiting(prompted.(step := TelemostPrompt, progress := 42))
        else
          var decided := if skip then prompted.(completed := Marked(prompted.completed, TelemostSkipped)) else prompted;
          if |s.rooms| < 3 then Waiting(decided.(step := WbRoomsCreate, progress := 65)) else Ready(decided)
  }

  function RunAuto(w: World, skip: bool, env: Env): (World, bool) {
    var loaded := Loaded(w.persisted, env.now);
    LoadedRooms(w.persisted, env.now);
    match Advanced(loaded, skip, env)
    case Waiting(s) => (Save(w, s, WriteOK(env, 1)), WriteOK(env, 1))
    case Ready(s) => var r := Finish(w, s, false, env, 1); (r.0, r.2)
  }

  // The request of the start handler; `rooms` is the first non-empty of its two lists.
  datatype StartInput = StartInput(
    skip: bool, restart: bool, step: StepName, progress: int, rooms: seq<string>, telemost: string)

  // A running wizard takes a draft: captured values are added, a valid step is followed.
  function Drafted(s: Setup, input: StartInput): Setup {
    var rooms := if input.rooms != [] then s.(rooms := Rooms(s.rooms + input.rooms)) else s;
    var telemost := if TrimSpace(input.telemost) != ""
        then rooms.(telemost := CleanText(input.telemost, MAX_ROOM_LENGTH)) else rooms;
    var skipped := if input.skip then telemost.(skipTelemost := true) else telemost;
    if ValidStep(input.step) && input.step != s.step then
      skipped.(step := input.step, progress := if input.progress > 0 then Clamp(input.progress) else s.progress)
    else skipped
  }

  predicate Changes(s: Setup, input: StartInput) {
    input.rooms != [] || TrimSpace(input.telemost) != "" || (input.skip && !s.skipTelemost)
    || (ValidStep(input.step) && input.step != s.step)
  }

  predicate InProgress(s: Setup) {
    0 < s.progress < 100 && !s.step.Welcome?
  }

  function Begun(s: Setup, input: StartInput, now: int): Setup {
    var base := if input.restart || s.progress >= 100 || s.step.Dismissed? then Default(now) else s;
    base.(skipTelemost := input.skip, rooms := Rooms(input.rooms),
        telemost := CleanText(input.telemost, MAX_ROOM_LENGTH),
          step := PlaywrightCheck, progress := 5)
  }

  // handleAutoSetupStart
  function AfterStart(w: World, input: StartInput, env: Env): World {
    var s := Loaded(w.persisted, env.now);
    if !input.restart && InProgress(s) then
      if Changes(s, input) then Save(w, Drafted(s, input), WriteOK(env, 0)) else w
    else
      var begun := Begun(s, input, env.now);
      if !WriteOK(env, 0) then w
      else
        var r := RunAuto(Save(w, begun, true), input.skip, env);
        if r.1 then r.0 else Save(r.0, begun.(trouble := Message("start"), step := Failed), WriteOK(env, 4))
  }

  // What the installation of components tells a waiting wizard.
  function Installed(s: Setup, env: Env): Setup {
    if !s.step.PlaywrightInstall? then s
    else if env.installed || env.install.Done? then
      s.(completed := Marked(s.completed, PlaywrightInstalled), step := WbAuthPrompt, progress := 25)
    else if env.install.Broken? then s.(step := Failed, progress := env.install.percent,
        trouble := Message(env.install.text))
    else s
  }

  predicate AwaitsRoom(step: StepName) {
    step.WbAuthPrompt? || step.WbAuthVnc? || step.WbRoomsCreate? || step.TelemostPrompt? || step.TelemostAuthVnc?
        || step.TelemostRoomCreate?
  }

  // A room the worker reports is taken over.
  function Captured(s: Setup, worker: Worker): Setup {
    if !AwaitsRoom(s.step) then s
    else match worker
      case NoRoom => s
      case TelemostRoom(room) =>
        if room == "" then s
        else s.(telemost := room, completed := Marked(s.completed, TelemostLoggedIn), step := TelemostRoomCreate,
            progress := 60)
      case WbRoom(room) =>
        if room == "" then s
        else
          var t := s.(rooms := Rooms(s.rooms + [room]), completed := Marked(s.completed, WbLoggedIn));
          if |t.rooms| < 3 then t.(step := WbRoomsCreate, progress := 65)
          else if !t.skipTelemost && t.telemost == "" then t.(step := TelemostPrompt, progress := 80)
          else t.(step := WbRoomsCreate, progress := 75)
  }

  // refreshAutoSetupProgress
  function AfterRefresh(w: World, env: Env): World {
    Save(w, Captured(Installed(Loaded(w.persisted, env.now), env), env.worker), WriteOK(env, 0))
  }

  function Skipped(s: Setup): Setup {
    var t := s.(skipTelemost := true, telemost := "", completed := Marked(s.completed, TelemostSkipped));
    if s.step.TelemostPrompt? || s.step.TelemostAuthVnc? || s.step.TelemostRoomCreate? then
      t.(step := WbRoomsCreate, progress := if |s.rooms| >= 3 then 75 else 65)
    else t
  }

  // handleAutoSetupSkipTelemost
  function AfterSkip(w: World, env: Env): World {
    Save(w, Skipped(Loaded(w.persisted, env.now)), WriteOK(env, 0))
  }

  datatype CompleteInput = CompleteInput(rooms: seq<string>, telemost: string, skip: bool, start: bool,
      created: seq<int>)

  function Submitted(s: Setup, input: CompleteInput): Setup {
    s.(rooms := if input.rooms != [] then Rooms(input.rooms) else s.rooms,
       telemost := if TrimSpace(input.telemost) != "" then CleanText(input.telemost, MAX_ROOM_LENGTH)
                   else if input.skip then "" else s.telemost,
       skipTelemost := s.skipTelemost || input.skip,
       completed := if input.skip then Marked(s.completed, TelemostSkipped) else s.completed,
       created := if input.created != [] then Ids(input.created) else s.created,
       step := CreatingInstances, progress := 70)
  }

  // handleAutoSetupComplete
  function AfterComplete(w: World, input: CompleteInput, env: Env): World {
    var s := Submitted(Loaded(w.persisted, env.now), input);
    LoadedRooms(w.persisted, env.now);
    SubmittedRooms(Loaded(w.persisted, env.now), input);
    if !WriteOK(env, 0) then w
    else
      var v := Save(w, s, true);
      if s.rooms != [] || (!s.skipTelemost && s.telemost != "") then
        var r := Finish(v, s, input.start, env, 1);
        if r.2 then r.0 else Save(r.0, r.1.(step := Failed, trouble := Message("complete")), WriteOK(env, 4))
      else Settled(Save(v, s.(step := Completed, progress := 100), WriteOK(env, 1)), env)
  }

  // The two settings after the state was saved by write number 1.
  function Settled(w: World, env: Env): World {
    if !WriteOK(env, 1) || !WriteOK(env, 2) then w
    else w.(firstRunDone := true, forced := if WriteOK(env, 3) then false else w.forced)
  }

  // handleAutoSetupDismiss
  function AfterDismiss(w: World, env: Env): World {
    Settled(Save(w, Loaded(w.persisted, env.now).(step := Dismissed, progress := 100), WriteOK(env, 1)), env)
  }

  // handleTriggerAutoSetup
  function AfterTrigger(w: World, env: Env): World {
    if !WriteOK(env, 0) then w
    else if !WriteOK(env, 1) then w.(firstRunDone := false)
    else if !WriteOK(env, 2) then w.(firstRunDone := false, persisted := None)
    else w.(firstRunDone := false, persisted := None, forced := true)
  }

  // shouldShowAutoSetup: an installation that has instances is not new.
  predicate Shows(w: World) {
    w.forced || (!w.firstRunDone && w.panel.instances == [])
  }

  function AfterStatus(w: World, env: Env): World {
    if !w.forced && !w.firstRunDone && w.panel.instances != [] && WriteOK(env, 0) then w.(firstRunDone := true) else w
  }

  datatype Event =
    | Start(start: StartInput, env: Env)
    | Progress(env: Env)
    | Skip(env: Env)
    | Complete(complete: CompleteInput, env: Env)
    | Dismiss(env: Env)
    | Trigger(env: Env)
    | Status(env: Env)

  function Next(w: World, e: Event): World {
    match e
    case Start(input, env) => AfterStart(w, input, env)
    case Progress(env) => AfterRefresh(w, env)
    case Skip(env) => AfterSkip(w, env)
    case Complete(input, env) => AfterComplete(w, input, env)
    case Dismiss(env) => AfterDismiss(w, env)
    case Trigger(env) => AfterTrigger(w, env)
    case Status(env) => AfterStatus(w, env)
  }

  function Run(w: World, events: seq<Event>): World {
    if events == [] then w else Next(Run(w, events[..|events| - 1]), events[|events| - 1])
  }

  // ---------- what every persisted state satisfies ----------

  predicate Sound(s: Setup) {
    RoomList(s.rooms) && Distinct(s.completed) && ValidStep(s.step)
  }

  predicate SoundWorld(w: World) {
    w.persisted.Some? ==> Sound(w.persisted.value) && 0 <= w.persisted.value.progress <= 100
  }

  lemma LoadedRooms(persisted: Option<Setup>, now: int)
    ensures RoomList(Loaded(persisted, now).rooms)
  {
    if persisted.Some? {
      RoomsClean(persisted.value.rooms);
    }
  }

  lemma SubmittedRooms(s: Setup, input: CompleteInput)
    requires RoomList(s.rooms)
    ensures RoomList(Submitted(s, input).rooms)
  {
    RoomsClean(input.rooms);
  }

  lemma MarkedDistinct(completed: seq<Mark>, mark: Mark)
    requires Distinct(completed)
    ensures Distinct(Marked(completed, mark))
  {}

  lemma SaveSound(w: World, s: Setup, ok: bool)
    requires SoundWorld(w) && Sound(s)
    ensures SoundWorld(Save(w, s, ok))
  {}

  lemma DefaultSound(now: int)
    ensures Sound(Default(now))
  {}

  lemma LoadedSound(w: World, now: int)
    requires SoundWorld(w)
    ensures Sound(Loaded(w.persisted, now))
    ensures w.persisted.Some? ==> Loaded(w.persisted, now).rooms == w.persisted.value.rooms
  {
    DefaultSound(now);
    if w.persisted.Some? {
      RoomsKept(w.persisted.value.rooms, []);
    }
  }

  lemma FinishSound(w: World, s: Setup, start: bool, env: Env, i: nat)
    requires SoundWorld(w) && Sound(s)
    ensures SoundWorld(Finish(w, s, start, env, i).0) && Sound(Finish(w, s, start, env, i).1)
  {
    hide RoomList, Completing, Distinct;
    MarkedDistinct(s.completed, InstancesCreated);
    MarkedDistinct(Marked(s.completed, InstancesCreated), InstancesStarted);
  }

  lemma AdvancedSound(s: Setup, skip: bool, env: Env)
    requires Sound(s)
    ensures Sound(Advanced(s, skip, env).s)
  {
    hide RoomList, Distinct, Marked;
    var checked := Marked(s.completed, PlaywrightChecked);
    var installed := Marked(checked, PlaywrightInstalled);
    var prompted := Marked(installed, WbPrompted);
    MarkedDistinct(s.completed, PlaywrightChecked);
    MarkedDistinct(checked, PlaywrightInstalled);
    MarkedDistinct(installed, WbPrompted);
    MarkedDistinct(prompted, TelemostSkipped);
  }

  lemma DraftedSound(s: Setup, input: StartInput)
    requires Sound(s)
    ensures Sound(Drafted(s, input))
    ensures s.rooms <= Drafted(s, input).rooms
  {
    hide Distinct, RoomList, CleanText, TrimSpace;
    RoomsClean(s.rooms + input.rooms);
    RoomsKept(s.rooms, input.rooms);
  }

  lemma BegunSound(s: Setup, input: StartInput, now: int)
    requires Sound(s)
    ensures Sound(Begun(s, input, now))
  {
    RoomsClean(input.rooms);
  }

  lemma InstalledSound(s: Setup, env: Env)
    requires Sound(s)
    ensures Sound(Installed(s, env)) && Installed(s, env).rooms == s.rooms
  {
    MarkedDistinct(s.completed, PlaywrightInstalled);
  }

  lemma CapturedSound(s: Setup, worker: Worker)
    requires Sound(s)
    ensures Sound(Captured(s, worker)) && s.rooms <= Captured(s, worker).rooms
  {
    hide Distinct, RoomList, Rooms;
    MarkedDistinct(s.completed, TelemostLoggedIn);
    MarkedDistinct(s.completed, WbLoggedIn);
    if worker.WbRoom? {
      RoomsClean(s.rooms + [worker.room]);
      RoomsKept(s.rooms, [worker.room]);
    }
  }

  lemma StartKeepsSound(w: World, input: StartInput, env: Env)
    requires SoundWorld(w)
    ensures SoundWorld(AfterStart(w, input, env))
  {
    hide SoundWorld, Sound, Begun, Drafted, Loaded, Changes, Advanced, Finish, Save;
    LoadedSound(w, env.now);
    var s := Loaded(w.persisted, env.now);
    DraftedSound(s, input);
    SaveSound(w, Drafted(s, input), WriteOK(env, 0));
    var begun := Begun(s, input, env.now);
    BegunSound(s, input, env.now);
    var failed := begun.(trouble := Message("start"), step := Failed);
    assert Sound(failed) by { StepSound(begun, failed); }
    SaveSound(w, begun, true);
    RunAutoSound(Save(w, begun, true), input.skip, env);
    SaveSound(RunAuto(Save(w, begun, true), input.skip, env).0, failed, WriteOK(env, 4));
  }

  // Soundness does not depend on the other fields.
  lemma StepSound(s: Setup, t: Setup)
    requires Sound(s) && t.rooms == s.rooms && t.completed == s.completed && ValidStep(t.step)
    ensures Sound(t)
  {}

  lemma RunAutoSound(w: World, skip: bool, env: Env)
    requires SoundWorld(w)
    ensures SoundWorld(RunAuto(w, skip, env).0)
  {
    hide SoundWorld, Sound, Loaded, Advanced, Finish, Save, RoomList;
    LoadedSound(w, env.now);
    var s := Loaded(w.persisted, env.now);
    AdvancedSound(s, skip, env);
    LoadedRooms(w.persisted, env.now);
    match Advanced(s, skip, env)
    case Waiting(t) => SaveSound(w, t, WriteOK(env, 1));
    case Ready(t) =>
      assert |t.rooms| <= 3 by { SoundShort(t); }
      FinishSound(w, t, false, env, 1);
  }

  lemma SoundShort(s: Setup)
    requires Sound(s)
    ensures |s.rooms| <= 3
  {}

  lemma CompleteKeepsSound(w: World, input: CompleteInput, env: Env)
    requires SoundWorld(w)
    ensures SoundWorld(AfterComplete(w, input, env))
  {
    LoadedSound(w, env.now);
    var s := Submitted(Loaded(w.persisted, env.now), input);
    SubmittedRooms(Loaded(w.persisted, env.now), input);
    MarkedDistinct(Loaded(w.persisted, env.now).completed, TelemostSkipped);
    assert Sound(s);
    hide SoundWorld, Sound, Loaded, Submitted, Finish, Save, RoomList;
    SoundShort(s);
    var v := Save(w, s, true);
    SaveSound(w, s, true);
    FinishSound(v, s, input.start, env, 1);
    var r := Finish(v, s, input.start, env, 1);
    StepSound(r.1, r.1.(step := Failed, trouble := Message("complete")));
    SaveSound(r.0, r.1.(step := Failed, trouble := Message("complete")), WriteOK(env, 4));
    StepSound(s, s.(step := Completed, progress := 100));
    SaveSound(v, s.(step := Completed, progress := 100), WriteOK(env, 1));
    SettledSound(Save(v, s.(step := Completed, progress := 100), WriteOK(env, 1)), env);
  }

  lemma SettledSound(w: World, env: Env)
    requires SoundWorld(w)
    ensures SoundWorld(Settled(w, env))
  {}

  lemma SimpleKeepsSound(w: World, e: Event)
    requires SoundWorld(w) && !e.Start? && !e.Complete?
    ensures SoundWorld(Next(w, e))
  {
    hide Loaded, Installed, Captured, Skipped, Sound, Clamp;
    var s := Loaded(w.persisted, e.env.now);
    LoadedSound(w, e.env.now);
    match e
    case Progress(env) =>
      hide SoundWorld, Save;
      InstalledSound(s, env);
      CapturedSound(Installed(s, env), env.worker);
      SaveSound(w, Captured(Installed(s, env), env.worker), WriteOK(env, 0));
    case Skip(env) =>
      hide SoundWorld, Save;
      SkippedSound(s);
      SaveSound(w, Skipped(s), WriteOK(env, 0));
    case Dismiss(env) =>
      hide SoundWorld, Save, Settled;
      StepSound(s, s.(step := Dismissed, progress := 100));
      SaveSound(w, s.(step := Dismissed, progress := 100), WriteOK(env, 1));
      SettledSound(Save(w, s.(step := Dismissed, progress := 100), WriteOK(env, 1)), env);
    case _ =>
  }

  lemma SkippedSound(s: Setup)
    requires Sound(s)
    ensures Sound(Skipped(s))
  {
    MarkedDistinct(s.completed, TelemostSkipped);
    hide Distinct, Marked, RoomList;
  }

  /** Every state the wizard ever stores has clean rooms, a valid step, distinct marks and a progress of 0 to 100. */
  lemma {:induction false} StoredStatesAreSound(w: World, events: seq<Event>)
    requires SoundWorld(w)
    ensures SoundWorld(Run(w, events))
  {
    hide SoundWorld, Next;
    if events != [] {
      var v, e := Run(w, events[..|events| - 1]), events[|events| - 1];
      StoredStatesAreSound(w, events[..|events| - 1]);
      NextKeepsSound(v, e);
    }
  }

  lemma NextKeepsSound(w: World, e: Event)
    requires SoundWorld(w)
    ensures SoundWorld(Next(w, e))
  {
    hide SoundWorld, AfterStart, AfterComplete;
    match e
    case Start(input, env) => StartKeepsSound(w, input, env);
    case Complete(input, env) => CompleteKeepsSound(w, input, env);
    case Progress(_) => SimpleKeepsSound(w, e);
    case Skip(_) => SimpleKeepsSound(w, e);
    case Dismiss(_) => SimpleKeepsSound(w, e);
    case Trigger(_) => SimpleKeepsSound(w, e);
    case Status(_) => SimpleKeepsSound(w, e);
  }

  // ---------- captured rooms ----------

  // Refreshes, drafts, skips and dismissals: everything but a restart, a completion or a reset.
  predicate KeepsRooms(w: World, e: Event) {
    match e
    case Start(input, env) => !input.restart && InProgress(Loaded(w.persisted, env.now))
    case Complete(_, _) => false
    case Trigger(_) => false
    case _ => true
  }

  predicate Extends(w: World, v: World) {
    w.persisted.Some? ==> v.persisted.Some? && w.persisted.value.rooms <= v.persisted.value.rooms
  }

  lemma EventKeepsRooms(w: World, e: Event)
    requires SoundWorld(w) && KeepsRooms(w, e)
    ensures Extends(w, Next(w, e))
  {
    hide Loaded, Sound, SoundWorld, Captured, Installed, Drafted, Marked, InProgress, Changes, WriteOK;
    var s := Loaded(w.persisted, e.env.now);
    LoadedSound(w, e.env.now);
    match e
    case Progress(env) =>
      InstalledSound(s, env);
      CapturedSound(Installed(s, env), env.worker);
    case Start(input, _) => DraftedSound(s, input);
    case _ =>
  }

  /** Rooms already captured stay, in their places, through any number of refreshes, drafts, skips and dismissals. */
  lemma {:induction false} CapturedRoomsStay(w: World, events: seq<Event>)
    requires SoundWorld(w) && forall i :: 0 <= i < |events| ==> KeepsRooms(Run(w, events[..i]), events[i])
    ensures Extends(w, Run(w, events))
  {
    hide SoundWorld, KeepsRooms, Next;
    if events != [] {
      var n := |events| - 1;
      var init := events[..n];
      assert forall i :: 0 <= i < n ==> init[..i] == events[..i] && init[i] == events[i];
      CapturedRoomsStay(w, init);
      StoredStatesAreSound(w, init);
      EventKeepsRooms(Run(w, init), events[n]);
    }
  }

  // ---------- instances over whole runs ----------

  lemma FinishCounts(w: World, s: Setup, start: bool, env: Env, i: nat, name: string)
    requires |s.rooms| <= 3
    ensures Grown(w, Finish(w, s, start, env, i).0, name)
  {
    CompletingCounts(w.panel, Attempt(s, env.out), name);
    CountNames(w.panel.instances, name);
    hide Completing, Count;
  }

  // No instance is lost, and a name is added only when it is missing, and then once.
  predicate Grown(w: World, v: World, name: string) {
    && w.panel.instances <= v.panel.instances
    && (Count(v.panel.instances, name) == Count(w.panel.instances, name)
        || (Count(w.panel.instances, name) == 0 && Count(v.panel.instances, name) == 1))
  }

  lemma NextGrows(w: World, e: Event, name: string)
    requires SoundWorld(w)
    ensures Grown(w, Next(w, e), name)
  {
    hide SoundWorld, Loaded, Drafted, Begun, Advanced, Finish, Captured, Installed, Skipped, Submitted, Count;
    LoadedSound(w, e.env.now);
    var s := Loaded(w.persisted, e.env.now);
    match e
    case Start(input, env) =>
      var begun := Begun(s, input, env.now);
      BegunSound(s, input, env.now);
      var v := Save(w, begun, true);
      SaveSound(w, begun, true);
      LoadedSound(v, env.now);
      AdvancedSound(Loaded(v.persisted, env.now), input.skip, env);
      var t := Advanced(Loaded(v.persisted, env.now), input.skip, env).s;
      FinishCounts(v, t, false, env, 1, name);
    case Complete(input, env) =>
      var t := Submitted(s, input);
      SubmittedRooms(s, input);
      FinishCounts(Save(w, t, true), t, input.start, env, 1, name);
    case _ =>
  }

  /** Over every run of the wizard no instance is lost and no name is ever created twice. */
  lemma {:induction false} NoInstanceTwice(w: World, events: seq<Event>, name: string)
    requires SoundWorld(w)
    ensures Grown(w, Run(w, events), name)
  {
    hide SoundWorld, Next, Count;
    if events != [] {
      NoInstanceTwice(w, events[..|events| - 1], name);
      StoredStatesAreSound(w, events[..|events| - 1]);
      NextGrows(Run(w, events[..|events| - 1]), events[|events| - 1], name);
    }
  }

  // ---------- when the wizard shows ----------

  predicate Hidden(w: World) {
    w.firstRunDone && !w.forced
  }

  lemma NextHides(w: World, e: Event)
    requires Hidden(w) && !e.Trigger?
    ensures Hidden(Next(w, e))
  {
    hide Loaded, Drafted, Begun, Advanced, Captured, Installed, Skipped, Submitted, Completing;
  }

  /** Once it is done, the wizard never shows again unless it is triggered. */
  lemma {:induction false} HiddenUntilTriggered(w: World, events: seq<Event>)
    requires Hidden(w) && forall i :: 0 <= i < |events| ==> !events[i].Trigger?
    ensures !Shows(Run(w, events)) && Hidden(Run(w, events))
  {
    hide Next;
    if events != [] {
      HiddenUntilTriggered(w, events[..|events| - 1]);
      NextHides(Run(w, events[..|events| - 1]), events[|events| - 1]);
    }
  }

  /** A dismissal hides a forced wizard only if all three writes succeed; otherwise the first two suffice. */
  lemma DismissHides(w: World, env: Env)
    ensures var stored := WriteOK(env, 1) && WriteOK(env, 2);
            Shows(AfterDismiss(w, env)) <==> if w.forced then !stored || !WriteOK(env, 3) else !stored && Shows(w)
  {
    hide Loaded;
  }
}
