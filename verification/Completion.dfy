/**
 The state of the first-run wizard (internal/server/auto_setup.go) and its completion, which
 creates the wanted instances that are missing and can be repeated after failures.
 Display texts and the time of the last update are left out of the state.
 */
module Completion {
  import opened Text
  import opened Capture

  datatype StepName =
    | Welcome | PlaywrightCheck | PlaywrightInstall | WbAuthPrompt | WbAuthVnc | TelemostPrompt | TelemostAuthVnc
    | WbRoomsCreate | TelemostRoomCreate | CreatingInstances | StartingInstances | Completed | Dismissed | Failed
    | Unknown(text: string)

  // validAutoSetupStep
  predicate ValidStep(step: StepName) {
    !step.Unknown?
  }

  datatype Mark =
    | PlaywrightChecked | PlaywrightInstalled | WbPrompted | WbLoggedIn | TelemostLoggedIn | TelemostSkipped
    | InstancesCreated | InstancesStarted

  datatype Failure = NameTaken(name: string) | NotCreated(name: string) | NotStarted(id: int)

  datatype Trouble = NoTrouble | Message(text: string) | Failures(list: seq<Failure>)

  datatype Setup = Setup(
    step: StepName, progress: int, completed: seq<Mark>, created: seq<int>, skipTelemost: bool,
    rooms: seq<string>, telemost: string, trouble: Trouble, startedAt: int)

  function Default(now: int): Setup {
    Setup(Welcome, 0, [], [], false, [], "", NoTrouble, now)
  }

  // clampAutoSetupProgress
  function Clamp(value: int): int {
    if value < 0 then 0 else if value > 100 then 100 else value
  }

  function Marked(completed: seq<Mark>, mark: Mark): seq<Mark> {
    if mark in completed then completed else completed + [mark]
  }

  /** markAutoSetupStep */
  method MarkStep(completed: seq<Mark>, mark: Mark) returns (r: seq<Mark>)
    ensures r == Marked(completed, mark)
  {
    for i := 0 to |completed|
      invariant forall j :: 0 <= j < i ==> completed[j] != mark
    {
      if completed[i] == mark {
        return completed;
      }
    }
    r := completed + [mark];
  }

  /** readAutoSetupStateLocked: what a reader makes of the stored state. */
  function Loaded(persisted: Option<Setup>, now: int): Setup {
    if persisted.None? then Default(now)
    else
      var s := persisted.value;
      var rooms := Rooms(s.rooms);
      s.(rooms := rooms, created := Ids(s.created), telemost := CleanText(s.telemost, MAX_ROOM_LENGTH),
         step := if s.step == Unknown("") then Welcome else if s.step.CreatingInstances? then WbRoomsCreate else s.step,
         progress := if s.step.CreatingInstances? then (if |rooms| >= 3 then 75 else 65) else s.progress)
  }

  // ---------- instances ----------

  const WB_PROVIDER := "wbstream"
  const TELEMOST_PROVIDER := "telemost"
  const FIRST_NAME := "# WB 1\U{e2}\U{9a}\U{a1}"
  const SECOND_NAME := "# WB 2\U{e2}\U{9a}\U{a1}"
  const THIRD_NAME := "# WB 3\U{f0}\U{9f}\U{9a}\U{80}"
  const TELEMOST_NAME := "# TLM 1\U{f0}\U{9f}\U{9f}\U{a1}"

  // autoSetupWBName for the indices a list of at most three rooms has
  function NameOf(index: nat): string
    requires index < 3
  {
    if index == 0 then FIRST_NAME else if index == 1 then SECOND_NAME else THIRD_NAME
  }

  // fps 0 stands for the default of the provider
  datatype Instance = Instance(id: int, name: string, provider: string, room: string, fps: int)

  datatype Panel = Panel(instances: seq<Instance>, nextID: int)

  // An instance the wizard wants.
  datatype Order = Order(name: string, provider: string, room: string, fps: int)

  function RoomOrder(rooms: seq<string>, index: nat): Order
    requires index < |rooms| <= 3
  {
    Order(NameOf(index), WB_PROVIDER, TrimSpace(rooms[index]), if index == 2 then 120 else 60)
  }

  function RoomOrders(rooms: seq<string>, count: nat): seq<Order>
    requires count <= |rooms| <= 3
  {
    if count == 0 then [] else RoomOrders(rooms, count - 1) + [RoomOrder(rooms, count - 1)]
  }

  function TelemostOrder(s: Setup): Order {
    Order(TELEMOST_NAME, TELEMOST_PROVIDER, TrimSpace(s.telemost), 0)
  }

  function TelemostOrders(s: Setup): seq<Order> {
    if !s.skipTelemost && s.telemost != "" then [TelemostOrder(s)] else []
  }

  function Orders(s: Setup): seq<Order>
    requires |s.rooms| <= 3
  {
    RoomOrders(s.rooms, |s.rooms|) + TelemostOrders(s)
  }

  // The last instance of a name: a map filled in list order keeps that one.
  function Named(instances: seq<Instance>, name: string): Option<Instance> {
    if instances == [] then None
    else if instances[|instances| - 1].name == name then Some(instances[|instances| - 1])
    else Named(instances[..|instances| - 1], name)
  }

  function Names(instances: seq<Instance>): set<string> {
    set i | 0 <= i < |instances| :: instances[i].name
  }

  lemma {:induction false} NamedFinds(instances: seq<Instance>, name: string)
    ensures Named(instances, name).Some? <==> name in Names(instances)
    ensures Named(instances, name).Some? ==>
              Named(instances, name).value in instances && Named(instances, name).value.name == name
  {
    if instances != [] {
      var last := |instances| - 1;
      NamedFinds(instances[..last], name);
      assert forall n :: n in Names(instances[..last]) ==> n in Names(instances);
      if name in Names(instances) && instances[last].name != name {
        var i :| 0 <= i < |instances| && instances[i].name == name;
        assert instances[..last][i].name == name;
      }
    }
  }

  // What completing has done so far.
  datatype Work = Work(panel: Panel, created: seq<int>, failures: seq<Failure>)

  function Made(order: Order, id: int): Instance {
    Instance(id, order.name, order.provider, order.room, order.fps)
  }

  function Include(created: seq<int>, id: int): seq<int> {
    if id in created then created else created + [id]
  }

  // The names for which Create stores nothing, and those for which it stores the instance but
  // still returns an error, because the closing read of the unit's state fails.
  datatype Outcome = Outcome(failing: set<string>, unread: set<string>)

  // One order; `before` is the list of instances when completing began.
  function Serve(before: seq<Instance>, w: Work, order: Order, out: Outcome): Work {
    var hit := Named(before, order.name);
    if hit.Some? && hit.value.provider != order.provider then w.(failures := w.failures + [NameTaken(order.name)])
    else if hit.Some? then w.(created := Include(w.created, hit.value.id))
    else if order.name in out.failing then w.(failures := w.failures + [NotCreated(order.name)])
    else
      var id := w.panel.nextID;
      var panel := Panel(w.panel.instances + [Made(order, id)], id + 1);
      if order.name in out.unread then w.(panel := panel, failures := w.failures + [NotCreated(order.name)])
      else Work(panel, if order.provider == TELEMOST_PROVIDER then w.created + [id]
          else Include(w.created, id), w.failures)
  }

  function ServeAll(before: seq<Instance>, w: Work, orders: seq<Order>, out: Outcome): Work {
    if orders == [] then w
    else Serve(before, ServeAll(before, w, orders[..|orders| - 1], out), orders[|orders| - 1], out)
  }

  function StartFailures(created: seq<int>, notStarted: set<int>): seq<Failure> {
    if created == [] then []
    else
      var init, last := created[..|created| - 1], created[|created| - 1];
      if last in notStarted then StartFailures(init, notStarted) + [NotStarted(last)]
          else StartFailures(init, notStarted)
  }

  // The instances a list of orders adds when the missing ones that do not fail are created in order.
  function Additions(before: seq<Instance>, orders: seq<Order>, failing: set<string>, nextID: int): seq<Instance> {
    if orders == [] then []
    else
      var init := Additions(before, orders[..|orders| - 1], failing, nextID);
      var order := orders[|orders| - 1];
      if order.name in Names(before) || order.name in failing then init else init + [Made(order, nextID + |init|)]
  }

  /** Completing keeps every instance and stores exactly the missing names for which Create stores one. */
  lemma {:induction false} OnlyMissingCreated(before: seq<Instance>, w: Work, orders: seq<Order>, out: Outcome)
    ensures var r := ServeAll(before, w, orders, out);
            var more := Additions(before, orders, out.failing, w.panel.nextID);
            r.panel == Panel(w.panel.instances + more, w.panel.nextID + |more|)
  {
    if orders == [] {
      assert w.panel.instances + [] == w.panel.instances;
    } else {
      OnlyMissingCreated(before, w, orders[..|orders| - 1], out);
      NamedFinds(before, orders[|orders| - 1].name);
    }
  }

  predicate Ordered(orders: seq<Order>, name: string) {
    exists i :: 0 <= i < |orders| && orders[i].name == name
  }

  lemma {:induction false} AddedNames(before: seq<Instance>, orders: seq<Order>, failing: set<string>, nextID: int,
      name: string)
    ensures name in Names(Additions(before, orders, failing, nextID))
            <==> Ordered(orders, name) && name !in Names(before) && name !in failing
  {
    if orders != [] {
      var init, last := orders[..|orders| - 1], orders[|orders| - 1];
      AddedNames(before, init, failing, nextID, name);
      assert orders == init + [last];
      var more := Additions(before, init, failing, nextID);
      NamesOfConcat(more, [Made(last, nextID + |more|)]);
      NamesOfOne(Made(last, nextID + |more|));
      OrderedSnoc(init, last, name);
      hide Ordered, Names;
    }
  }

  lemma OrderedSnoc(init: seq<Order>, last: Order, name: string)
    ensures Ordered(init + [last], name) <==> Ordered(init, name) || last.name == name
  {
    var orders := init + [last];
    if i :| 0 <= i < |init| && init[i].name == name {
      assert orders[i].name == name;
    }
    if i :| 0 <= i < |orders| && orders[i].name == name {
      assert i < |init| ==> init[i].name == name;
    }
    assert orders[|init|] == last;
  }

  lemma {:induction false} FailuresReported(before: seq<Instance>, w: Work, orders: seq<Order>, out: Outcome,
      name: string)
    ensures NotCreated(name) in ServeAll(before, w, orders, out).failures
            <==> (NotCreated(name) in w.failures
                  || (Ordered(orders, name) && name !in Names(before) && (name in out.failing || name in out.unread)))
  {
    if orders != [] {
      var init, last := orders[..|orders| - 1], orders[|orders| - 1];
      FailuresReported(before, w, init, out, name);
      assert orders == init + [last];
      OrderedSnoc(init, last, name);
      NamedFinds(before, last.name);
      hide Ordered, Names, Named;
    }
  }

  /**
   What a completion reports.  A wanted name that was missing is reported as not created
   exactly when Create returned an error; and the instance is there all the same exactly when
   only the closing read of its unit's state had failed.
   */
  lemma ReportedFailures(panel: Panel, a: Attempt, name: string)
    requires |a.setup.rooms| <= 3 && Ordered(Orders(a.setup), name) && name !in Names(panel.instances)
    ensures var w := Completing(panel, a);
            && (NotCreated(name) in w.failures <==> name in a.out.failing || name in a.out.unread)
            && (name in Names(w.panel.instances) <==> name !in a.out.failing)
  {
    var start := Work(panel, a.setup.created, []);
    FailuresReported(panel.instances, start, Orders(a.setup), a.out, name);
    OnlyMissingCreated(panel.instances, start, Orders(a.setup), a.out);
    AddedNames(panel.instances, Orders(a.setup), a.out.failing, panel.nextID, name);
    NamesOfConcat(panel.instances, Additions(panel.instances, Orders(a.setup), a.out.failing, panel.nextID));
  }

  lemma {:induction false} FoundKept(before: seq<Instance>, w: Work, orders: seq<Order>, out: Outcome, id: int)
    requires id in w.created
    ensures id in ServeAll(before, w, orders, out).created
  {
    if orders != [] {
      FoundKept(before, w, orders[..|orders| - 1], out, id);
    }
  }

  /** An instance that is there under a wanted name and provider is listed as created, so a repetition picks it up. */
  lemma {:induction false} FoundListed(before: seq<Instance>, w: Work, orders: seq<Order>, out: Outcome, i: nat)
    requires i < |orders| && Named(before, orders[i].name).Some?
             && Named(before, orders[i].name).value.provider == orders[i].provider
    ensures Named(before, orders[i].name).value.id in ServeAll(before, w, orders, out).created
  {
    hide Named;
    if i < |orders| - 1 {
      FoundListed(before, w, orders[..|orders| - 1], out, i);
    }
  }

  lemma NamesOfOne(item: Instance)
    ensures Names([item]) == {item.name}
  {
    assert [item][0].name == item.name;
  }

  lemma NamesOfConcat(a: seq<Instance>, b: seq<Instance>)
    ensures Names(a + b) == Names(a) + Names(b)
  {
    forall n ensures n in Names(a + b) <==> n in Names(a) || n in Names(b) {
      if n in Names(a) {
        var i :| 0 <= i < |a| && a[i].name == n;
        assert (a + b)[i].name == n;
      }
      if n in Names(b) {
        var i :| 0 <= i < |b| && b[i].name == n;
        assert (a + b)[|a| + i].name == n;
      }
    }
  }

  function Count(instances: seq<Instance>, name: string): nat {
    if instances == [] then 0
    else Count(instances[..|instances| - 1], name) + if instances[|instances| - 1].name == name then 1 else 0
  }

  lemma {:induction false} CountConcat(a: seq<Instance>, b: seq<Instance>, name: string)
    ensures Count(a + b, name) == Count(a, name) + Count(b, name)
  {
    if b == [] {
      assert a + b == a;
    } else {
      assert (a + b)[..|a + b| - 1] == a + b[..|b| - 1];
      CountConcat(a, b[..|b| - 1], name);
    }
  }

  predicate DistinctNames(orders: seq<Order>) {
    forall i, j :: 0 <= i < j < |orders| ==> orders[i].name != orders[j].name
  }

  lemma {:induction false} AddedOnce(before: seq<Instance>, orders: seq<Order>, failing: set<string>, nextID: int,
      name: string)
    requires DistinctNames(orders)
    ensures Count(Additions(before, orders, failing, nextID), name)
         == if Ordered(orders, name) && name !in Names(before) && name !in failing then 1 else 0
  {
    if orders != [] {
      var init, last := orders[..|orders| - 1], orders[|orders| - 1];
      AddedOnce(before, init, failing, nextID, name);
      assert orders == init + [last];
      OrderedSnoc(init, last, name);
      LastIsNew(init, last);
      var more := Additions(before, init, failing, nextID);
      CountSnoc(more, Made(last, nextID + |more|), name);
      hide Ordered, Names, Count, DistinctNames;
    }
  }

  lemma LastIsNew(init: seq<Order>, last: Order)
    requires DistinctNames(init + [last])
    ensures !Ordered(init, last.name) && DistinctNames(init)
  {
    var orders := init + [last];
    assert forall i :: 0 <= i < |init| ==> orders[i] == init[i];
    assert orders[|init|] == last;
  }

  lemma {:induction false} CountSnoc(instances: seq<Instance>, last: Instance, name: string)
    ensures Count(instances + [last], name) == Count(instances, name) + if last.name == name then 1 else 0
  {
    assert (instances + [last])[..|instances|] == instances;
  }

  lemma OrdersDistinct(s: Setup)
    requires |s.rooms| <= 3
    ensures DistinctNames(Orders(s))
  {
    assert FIRST_NAME[5] == '1' && SECOND_NAME[5] == '2' && THIRD_NAME[5] == '3';
    assert TELEMOST_NAME[2] == 'T' && FIRST_NAME[2] == 'W' && SECOND_NAME[2] == 'W' && THIRD_NAME[2] == 'W';
    RoomOrdersAt(s.rooms, |s.rooms|);
  }

  lemma {:induction false} RoomOrdersAt(rooms: seq<string>, count: nat)
    requires count <= |rooms| <= 3
    ensures |RoomOrders(rooms, count)| == count
    ensures forall i :: 0 <= i < count ==> RoomOrders(rooms, count)[i] == RoomOrder(rooms, i)
  {
    if count > 0 {
      RoomOrdersAt(rooms, count - 1);
    }
  }

  // One completion attempt over the instances: the state it works from and how creations end.
  datatype Attempt = Attempt(setup: Setup, out: Outcome)

  function Completing(panel: Panel, a: Attempt): Work
    requires |a.setup.rooms| <= 3
  {
    ServeAll(panel.instances, Work(panel, a.setup.created, []), Orders(a.setup), a.out)
  }

  function CompleteAll(panel: Panel, attempts: seq<Attempt>): Panel
    requires forall i :: 0 <= i < |attempts| ==> |attempts[i].setup.rooms| <= 3
  {
    if attempts == [] then panel
    else Completing(CompleteAll(panel, attempts[..|attempts| - 1]), attempts[|attempts| - 1]).panel
  }

  // Some attempt wanted this name and its creation stored an instance, whatever it returned.
  predicate Succeeds(attempts: seq<Attempt>, name: string)
    requires forall i :: 0 <= i < |attempts| ==> |attempts[i].setup.rooms| <= 3
  {
    exists i :: 0 <= i < |attempts| && Ordered(Orders(attempts[i].setup), name) && name !in attempts[i].out.failing
  }

  lemma {:induction false} CompletingCounts(panel: Panel, a: Attempt, name: string)
    requires |a.setup.rooms| <= 3
    ensures panel.instances <= Completing(panel, a).panel.instances
    ensures Count(Completing(panel, a).panel.instances, name) == Count(panel.instances, name)
            + if Ordered(Orders(a.setup), name) && name !in Names(panel.instances) && name !in a.out.failing then 1
                else 0
  {
    OnlyMissingCreated(panel.instances, Work(panel, a.setup.created, []), Orders(a.setup), a.out);
    OrdersDistinct(a.setup);
    AddedOnce(panel.instances, Orders(a.setup), a.out.failing, panel.nextID, name);
    CountConcat(panel.instances, Additions(panel.instances, Orders(a.setup), a.out.failing, panel.nextID), name);
  }

  lemma {:induction false} CountNames(instances: seq<Instance>, name: string)
    ensures name in Names(instances) <==> Count(instances, name) > 0
  {
    if instances != [] {
      var init, last := instances[..|instances| - 1], instances[|instances| - 1];
      CountNames(init, name);
      assert instances == init + [last];
      NamesOfOne(last);
      NamesOfConcat(init, [last]);
    }
  }

  /**
   However often completing is repeated and whichever creations fail on the way, no instance
   is lost, no name is created twice, and a missing name is there in the end exactly when
   some attempt that wanted it succeeded.
   */
  lemma {:induction false} RepeatedCompletion(panel: Panel, attempts: seq<Attempt>, name: string)
    requires forall i :: 0 <= i < |attempts| ==> |attempts[i].setup.rooms| <= 3
    ensures panel.instances <= CompleteAll(panel, attempts).instances
    ensures Count(CompleteAll(panel, attempts).instances, name)
         == if Count(panel.instances, name) == 0 && Succeeds(attempts, name) then 1 else Count(panel.instances, name)
  {
    if attempts != [] {
      var init, last := attempts[..|attempts| - 1], attempts[|attempts| - 1];
      RepeatedCompletion(panel, init, name);
      var middle := CompleteAll(panel, init);
      CompletingCounts(middle, last, name);
      CountNames(middle.instances, name);
      SucceedsSplit(attempts, name);
    }
  }

  lemma SucceedsSplit(attempts: seq<Attempt>, name: string)
    requires attempts != [] && forall i :: 0 <= i < |attempts| ==> |attempts[i].setup.rooms| <= 3
    ensures var init, last := attempts[..|attempts| - 1], attempts[|attempts| - 1];
            Succeeds(attempts, name) <==>
              (Succeeds(init, name) || (Ordered(Orders(last.setup), name) && name !in last.out.failing))
  {
    hide Ordered, Orders;
    var init, last := attempts[..|attempts| - 1], attempts[|attempts| - 1];
    assert forall i :: 0 <= i < |init| ==> init[i] == attempts[i];
    if Succeeds(attempts, name) && !(Ordered(Orders(last.setup), name) && name !in last.out.failing) {
      var i :| 0 <= i < |attempts| && Ordered(Orders(attempts[i].setup), name) && name !in attempts[i].out.failing;
      assert init[i] == attempts[i];
    }
    assert attempts[|attempts| - 1] == last;
  }

  // ---------- what a completion adds ----------

  /** The instance under the name of that index: WB, the room of that index, and 120 frames for the third, else 60. */
  predicate RoomPlaced(rooms: seq<string>, index: nat, name: string, item: Instance) {
    && item.name == name && index < |rooms| && item.provider == WB_PROVIDER && item.room == TrimSpace(rooms[index])
    && item.fps == (if index == 2 then 120 else 60)
  }

  predicate Placed(s: Setup, item: Instance) {
    || RoomPlaced(s.rooms, 0, FIRST_NAME, item) || RoomPlaced(s.rooms, 1, SECOND_NAME, item)
    || RoomPlaced(s.rooms, 2, THIRD_NAME, item)
    || (&& item.name == TELEMOST_NAME && !s.skipTelemost && s.telemost != "" && item.provider == TELEMOST_PROVIDER
        && item.room == TrimSpace(s.telemost) && item.fps == 0)
  }

  // Every instance added is where it belongs, and no two added ones share a name, nor a WB room.
  ghost predicate Adds(before: seq<Instance>, after: seq<Instance>, s: Setup) {
    && before <= after
    && (forall k :: |before| <= k < |after| ==> Placed(s, after[k]))
    && (forall j, k :: |before| <= j < k < |after| ==> after[j].name != after[k].name)
    && (RoomList(s.rooms) ==>
          && (forall k :: |before| <= k < |after| && after[k].provider == WB_PROVIDER ==> after[k].room in s.rooms)
          && (forall j, k :: |before| <= j < k < |after| && after[j].provider == after[k].provider == WB_PROVIDER ==>
                after[j].room != after[k].room))
  }

  predicate NamesApart(items: seq<Instance>) {
    forall j, k :: 0 <= j < k < |items| ==> items[j].name != items[k].name
  }

  lemma {:induction false} AdditionsMade(before: seq<Instance>, orders: seq<Order>, failing: set<string>, nextID: int)
    ensures forall m :: m in Additions(before, orders, failing, nextID) ==>
              exists i :: 0 <= i < |orders| && m == Made(orders[i], m.id)
  {
    if orders != [] {
      var init := orders[..|orders| - 1];
      AdditionsMade(before, init, failing, nextID);
      assert forall i :: 0 <= i < |init| ==> init[i] == orders[i];
    }
  }

  lemma {:induction false} AdditionsDistinct(before: seq<Instance>, orders: seq<Order>, failing: set<string>,
      nextID: int)
    requires DistinctNames(orders)
    ensures NamesApart(Additions(before, orders, failing, nextID))
  {
    if orders != [] {
      var init, last := orders[..|orders| - 1], orders[|orders| - 1];
      assert orders == init + [last];
      LastIsNew(init, last);
      AdditionsDistinct(before, init, failing, nextID);
      AdditionsMade(before, init, failing, nextID);
      var more := Additions(before, init, failing, nextID);
      forall j | 0 <= j < |more| ensures more[j].name != last.name {
        assert more[j] in more;
        var i :| 0 <= i < |init| && more[j] == Made(init[i], more[j].id);
        assert init[i].name != last.name;
      }
      var made := Made(last, nextID + |more|);
      NewName(more, made);
      hide DistinctNames, Names, NamesApart;
      assert Additions(before, orders, failing, nextID) == more
             || Additions(before, orders, failing, nextID) == more + [made];
    }
  }

  lemma NewName(items: seq<Instance>, last: Instance)
    requires NamesApart(items) && forall j :: 0 <= j < |items| ==> items[j].name != last.name
    ensures NamesApart(items + [last])
  {
    var more := items + [last];
    forall j, k | 0 <= j < k < |more| ensures more[j].name != more[k].name {
      assert more[j] == items[j] && more[|items|] == last;
    }
  }

  lemma OrderPlaced(s: Setup, i: nat, id: int)
    requires |s.rooms| <= 3 && i < |Orders(s)|
    ensures Placed(s, Made(Orders(s)[i], id))
  {
    hide FIRST_NAME, SECOND_NAME, THIRD_NAME, TELEMOST_NAME, WB_PROVIDER, TELEMOST_PROVIDER, TrimSpace;
    RoomOrdersAt(s.rooms, |s.rooms|);
    hide RoomOrders;
  }

  lemma PlacedRooms(s: Setup, a: Instance, b: Instance)
    requires RoomList(s.rooms) && Placed(s, a) && Placed(s, b)
    ensures a.provider == WB_PROVIDER ==> a.room in s.rooms
    ensures a.provider == b.provider == WB_PROVIDER && a.name != b.name ==> a.room != b.room
  {
    assert TELEMOST_PROVIDER != WB_PROVIDER by {
      assert WB_PROVIDER[0] == 'w' && TELEMOST_PROVIDER[0] == 't';
    }
    forall i | 0 <= i < |s.rooms| ensures TrimSpace(s.rooms[i]) == s.rooms[i] {
      TrimmedFixed(s.rooms[i]);
    }
    hide FIRST_NAME, SECOND_NAME, THIRD_NAME, TELEMOST_NAME, WB_PROVIDER, TELEMOST_PROVIDER, TrimSpace, RoomOK;
  }

  /** Whatever was there and whichever creations fail, a completion adds only instances that are where they belong. */
  lemma CompletionAdds(panel: Panel, a: Attempt)
    requires |a.setup.rooms| <= 3
    ensures Adds(panel.instances, Completing(panel, a).panel.instances, a.setup)
  {
    var s, before, after := a.setup, panel.instances, Completing(panel, a).panel.instances;
    var more := Additions(before, Orders(s), a.out.failing, panel.nextID);
    OnlyMissingCreated(before, Work(panel, s.created, []), Orders(s), a.out);
    OrdersDistinct(s);
    AdditionsMade(before, Orders(s), a.out.failing, panel.nextID);
    AdditionsDistinct(before, Orders(s), a.out.failing, panel.nextID);
    hide Placed, Completing, Orders, Additions, RoomList, DistinctNames;
    assert after == before + more;
    forall k | |before| <= k < |after| ensures Placed(s, after[k]) {
      assert after[k] == more[k - |before|] && after[k] in more;
      var i :| 0 <= i < |Orders(s)| && after[k] == Made(Orders(s)[i], after[k].id);
      OrderPlaced(s, i, after[k].id);
    }
    if RoomList(s.rooms) {
      forall j, k | |before| <= j < k < |after|
        ensures after[j].provider == after[k].provider == WB_PROVIDER ==> after[j].room != after[k].room
      {
        PlacedRooms(s, after[j], after[k]);
      }
      forall k | |before| <= k < |after| ensures after[k].provider == WB_PROVIDER ==> after[k].room in s.rooms {
        PlacedRooms(s, after[k], after[k]);
      }
    }
  }
}
