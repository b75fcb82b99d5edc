/**
 The lists the first-run wizard keeps (internal/server/auto_setup.go): room IDs and instance
 IDs are collected in order, without repetitions, up to a limit.
 */
module Capture {
  import opened Text
  import opened InstanceConfig

  const MAX_ROOM_LENGTH := 512
  const MAX_ROOMS := 3
  const MAX_IDS := 1000
  const FORBIDDEN: set<char> := {'\0', '\r', '\n', '?', '<', '>', '@', '#', '$'}

  predicate RoomOK(value: string) {
    value != "" && RuneCount(value) <= MAX_ROOM_LENGTH && !ContainsAny(value, FORBIDDEN)
  }

  predicate IdOK(id: int) {
    id >= 1
  }

  predicate Distinct<T(==)>(s: seq<T>) {
    forall i, j :: 0 <= i < j < |s| ==> s[i] != s[j]
  }

  // The state of the collecting loop after one more value; a full list ignores the rest.
  function Add<T(==)>(kept: seq<T>, value: T, ok: T -> bool, limit: nat): seq<T> {
    if |kept| >= limit || !ok(value) || value in kept then kept else kept + [value]
  }

  function Collect<T(==)>(values: seq<T>, ok: T -> bool, limit: nat): seq<T> {
    if values == [] then [] else Add(Collect(values[..|values| - 1], ok, limit), values[|values| - 1], ok, limit)
  }

  predicate Collected<T(==)>(kept: seq<T>, ok: T -> bool, limit: nat) {
    |kept| <= limit && Distinct(kept) && forall i :: 0 <= i < |kept| ==> ok(kept[i])
  }

  /** The list is short, distinct and sound, and misses an acceptable value only when it is full. */
  lemma {:induction false} CollectKeeps<T>(values: seq<T>, ok: T -> bool, limit: nat)
    ensures Collected(Collect(values, ok, limit), ok, limit)
    ensures forall v :: v in Collect(values, ok, limit) ==> v in values
    ensures forall v :: v in values && ok(v) ==>
              v in Collect(values, ok, limit) || |Collect(values, ok, limit)| == limit
  {
    if values != [] {
      CollectKeeps(values[..|values| - 1], ok, limit);
    }
  }

  /** More input only appends: values keep the order of their first occurrence. */
  lemma {:induction false} CollectAppends<T>(a: seq<T>, b: seq<T>, ok: T -> bool, limit: nat)
    ensures Collect(a, ok, limit) <= Collect(a + b, ok, limit)
  {
    if b == [] {
      assert a + b == a;
    } else {
      assert (a + b)[..|a + b| - 1] == a + b[..|b| - 1];
      CollectAppends(a, b[..|b| - 1], ok, limit);
    }
  }

  /** A collected list is its own collection. */
  lemma {:induction false} CollectFixed<T>(kept: seq<T>, ok: T -> bool, limit: nat)
    requires Collected(kept, ok, limit)
    ensures Collect(kept, ok, limit) == kept
  {
    hide Collect;
    if kept == [] {
      CollectNone(kept, ok, limit);
    } else {
      var init := kept[..|kept| - 1];
      CollectFixed(init, ok, limit);
      CollectSnoc(init, kept[|kept| - 1], ok, limit);
      assert kept == init + [kept[|kept| - 1]];
    }
  }

  lemma {:induction false} CollectNone<T>(values: seq<T>, ok: T -> bool, limit: nat)
    ensures Collect(values[..0], ok, limit) == []
  {}

  lemma {:induction false} CollectSnoc<T>(values: seq<T>, value: T, ok: T -> bool, limit: nat)
    ensures Collect(values + [value], ok, limit) == Add(Collect(values, ok, limit), value, ok, limit)
  {
    assert (values + [value])[..|values|] == values;
  }

  // A full list stays as it is, which is why the loops may stop there.
  lemma {:induction false} CollectFull<T>(a: seq<T>, b: seq<T>, ok: T -> bool, limit: nat)
    requires |Collect(a, ok, limit)| >= limit
    ensures Collect(a + b, ok, limit) == Collect(a, ok, limit)
  {
    if b == [] {
      assert a + b == a;
    } else {
      assert (a + b)[..|a + b| - 1] == a + b[..|b| - 1];
      CollectFull(a, b[..|b| - 1], ok, limit);
    }
  }

  lemma {:induction false} CollectStep<T>(values: seq<T>, i: nat, ok: T -> bool, limit: nat)
    requires i < |values|
    ensures Collect(values[..i + 1], ok, limit) == Add(Collect(values[..i], ok, limit), values[i], ok, limit)
  {
    assert values[..i + 1][..i] == values[..i];
  }

  lemma {:induction false} CollectEnd<T>(values: seq<T>, i: nat, ok: T -> bool, limit: nat)
    requires i <= |values| && (i == |values| || |Collect(values[..i], ok, limit)| == limit)
    ensures Collect(values[..i], ok, limit) == Collect(values, ok, limit)
  {
    var head, tail := values[..i], values[i..];
    assert head + tail == values;
    if i == |values| {
      assert head == values;
    } else {
      CollectFull(head, tail, ok, limit);
    }
  }

  function TrimAll(values: seq<string>): (r: seq<string>)
    ensures |r| == |values| && forall i :: 0 <= i < |r| ==> r[i] == TrimSpace(values[i])
  {
    seq(|values|, i requires 0 <= i < |values| => TrimSpace(values[i]))
  }

  function Rooms(values: seq<string>): seq<string> {
    Collect(TrimAll(values), RoomOK, MAX_ROOMS)
  }

  function Ids(values: seq<int>): seq<int> {
    Collect(values, IdOK, MAX_IDS)
  }

  // What every stored list of rooms satisfies.
  predicate RoomList(rooms: seq<string>) {
    Collected(rooms, RoomOK, MAX_ROOMS) && forall i :: 0 <= i < |rooms| ==> Trimmed(rooms[i])
  }

  lemma RoomsClean(values: seq<string>)
    ensures RoomList(Rooms(values))
  {
    var trimmed := TrimAll(values);
    CollectKeeps(trimmed, RoomOK, MAX_ROOMS);
    forall i | 0 <= i < |Rooms(values)| ensures Trimmed(Rooms(values)[i]) {
      assert Rooms(values)[i] in trimmed;
      var k :| 0 <= k < |values| && trimmed[k] == Rooms(values)[i];
      TrimSpaceTrims(values[k]);
    }
  }

  lemma TrimAllFixed(rooms: seq<string>)
    requires forall i :: 0 <= i < |rooms| ==> Trimmed(rooms[i])
    ensures TrimAll(rooms) == rooms
  {
    forall i | 0 <= i < |rooms| ensures TrimAll(rooms)[i] == rooms[i] {
      TrimmedFixed(rooms[i]);
    }
  }

  /** Cleaning a stored list changes nothing, and cleaning it with more rooms keeps it as a prefix. */
  lemma RoomsKept(rooms: seq<string>, more: seq<string>)
    requires RoomList(rooms)
    ensures Rooms(rooms) == rooms && rooms <= Rooms(rooms + more)
  {
    TrimAllFixed(rooms);
    CollectFixed(rooms, RoomOK, MAX_ROOMS);
    assert TrimAll(rooms + more) == rooms + TrimAll(more) by {
      assert forall i :: 0 <= i < |rooms| ==> TrimAll(rooms + more)[i] == TrimAll(rooms)[i];
    }
    CollectAppends(rooms, TrimAll(more), RoomOK, MAX_ROOMS);
  }

  /** The rooms the wizard takes are those an instance can have, up to 512 runes. */
  lemma {:induction false} RoomsFit(checks: Checks, item: Plain, room: string)
    requires Trimmed(room) && item.provider != "jitsi" && Validate(checks, item)
    ensures RoomOK(room) <==> RuneCount(room) <= 512 && Validate(checks, item.(roomID := room))
  {
    TrimmedFixed(room);
    hide TrimSpace, RuneCount, ValidTransport;
  }

  /** Three different rooms fill the list, whatever follows. */
  lemma {:induction false} ThreeRooms(a: string, b: string, c: string, more: seq<string>)
    requires RoomOK(a) && RoomOK(b) && RoomOK(c) && Trimmed(a) && Trimmed(b) && Trimmed(c)
    requires a != b && a != c && b != c
    ensures Rooms([a, b, c] + more) == [a, b, c]
  {
    hide RoomOK, Trimmed, Rooms;
    RoomsKept([a, b, c], more);
    RoomsClean([a, b, c] + more);
    assert |Rooms([a, b, c] + more)| <= 3;
  }

  /** autoSetupRooms: the loop with its set of seen rooms and its early end. */
  method CleanRooms(values: seq<string>) returns (rooms: seq<string>)
    ensures rooms == Rooms(values)
  {
    hide Collect, TrimSpace, RuneCount, ContainsAny;
    var seen: set<string> := {};
    rooms := [];
    var i := 0;
    ghost var trimmed := TrimAll(values);
    CollectNone(trimmed, RoomOK, MAX_ROOMS);
    while i < |values|
      invariant 0 <= i <= |values|
      invariant rooms == Collect(trimmed[..i], RoomOK, MAX_ROOMS) && |rooms| < MAX_ROOMS
      invariant forall r :: r in seen <==> r in rooms
    {
      CollectStep(trimmed, i, RoomOK, MAX_ROOMS);
      var value := TrimSpace(values[i]);
      i := i + 1;
      if value == "" || RuneCount(value) > MAX_ROOM_LENGTH || ContainsAny(value, FORBIDDEN) {
        continue;
      }
      if value in seen {
        continue;
      }
      seen := seen + {value};
      rooms := rooms + [value];
      if |rooms| == MAX_ROOMS {
        break;
      }
    }
    CollectEnd(trimmed, i, RoomOK, MAX_ROOMS);
  }

  /** autoSetupInstanceIDs */
  method CleanIds(values: seq<int>) returns (ids: seq<int>)
    ensures ids == Ids(values)
  {
    hide Collect;
    var seen: set<int> := {};
    ids := [];
    var i := 0;
    CollectNone(values, IdOK, MAX_IDS);
    while i < |values|
      invariant 0 <= i <= |values|
      invariant ids == Collect(values[..i], IdOK, MAX_IDS) && |ids| < MAX_IDS
      invariant forall id :: id in seen <==> id in ids
    {
      CollectStep(values, i, IdOK, MAX_IDS);
      var value := values[i];
      i := i + 1;
      if value < 1 || value in seen {
        continue;
      }
      seen := seen + {value};
      ids := ids + [value];
      if |ids| == MAX_IDS {
        break;
      }
    }
    CollectEnd(values, i, IdOK, MAX_IDS);
  }

  // ---------- free text ----------

  predicate PlainChar(c: char) {
    c != '\0' && c != '\r' && c != '\n'
  }

  function OnlyPlain(s: string): string {
    if s == "" then "" else (if PlainChar(s[0]) then [s[0]] else "") + OnlyPlain(s[1..])
  }

  // The longest prefix of at most `limit` runes.
  function TakeRunes(s: string, limit: nat): string {
    if s == "" then ""
    else if Continuation(s[0]) then [s[0]] + TakeRunes(s[1..], limit)
    else if limit == 0 then "" else [s[0]] + TakeRunes(s[1..], limit - 1)
  }

  /** cleanAutoSetupText */
  function CleanText(value: string, limit: nat): string {
    TakeRunes(OnlyPlain(TrimSpace(value)), limit)
  }

  lemma {:induction false} CleanTextIsClean(value: string, limit: nat)
    ensures RuneCount(CleanText(value, limit)) <= limit
    ensures forall c :: c in CleanText(value, limit) ==> PlainChar(c)
  {
    var s := OnlyPlain(TrimSpace(value));
    PlainOnly(TrimSpace(value));
    TakeRunesBounded(s, limit);
  }

  lemma {:induction false} PlainOnly(s: string)
    ensures forall c :: c in OnlyPlain(s) ==> PlainChar(c)
  {
    if s != "" {
      PlainOnly(s[1..]);
    }
  }

  lemma {:induction false} TakeRunesBounded(s: string, limit: nat)
    ensures RuneCount(TakeRunes(s, limit)) <= limit && TakeRunes(s, limit) <= s
  {
    if s != "" {
      if Continuation(s[0]) {
        TakeRunesBounded(s[1..], limit);
        assert ([s[0]] + TakeRunes(s[1..], limit))[1..] == TakeRunes(s[1..], limit);
      } else if limit > 0 {
        TakeRunesBounded(s[1..], limit - 1);
        assert ([s[0]] + TakeRunes(s[1..], limit - 1))[1..] == TakeRunes(s[1..], limit - 1);
      }
    }
  }

  lemma {:induction false} AllPlain(s: string)
    requires forall c :: c in s ==> PlainChar(c)
    ensures OnlyPlain(s) == s
  {
    if s != "" {
      assert s[0] in s;
      AllPlain(s[1..]);
    }
  }

  lemma {:induction false} AllRunes(s: string, limit: nat)
    requires RuneCount(s) <= limit
    ensures TakeRunes(s, limit) == s
  {
    if s != "" {
      AllRunes(s[1..], if Continuation(s[0]) then limit else limit - 1);
    }
  }

  /** Text that is clean and short enough stays as it is. */
  lemma {:induction false} CleanTextKept(value: string, limit: nat)
    requires Trimmed(value) && RuneCount(value) <= limit && forall c :: c in value ==> PlainChar(c)
    ensures CleanText(value, limit) == value
  {
    TrimmedFixed(value);
    AllPlain(value);
    AllRunes(value, limit);
  }
}
