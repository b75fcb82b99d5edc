/**
 The order of a subscription's entries and its revision: the check of a requested order
 (internal/server/subscriptions.go) and the transactions that store it
 (internal/store/subscriptions.go).
 */
module Entries {
  import opened Text
  import opened Sorting

  // The row of an entry, by its id.
  datatype Row = Row(subscription: int, sortOrder: int)

  type Rows = map<int, Row>

  predicate Of(rows: Rows, sub: int, id: int) {
    id in rows && rows[id].subscription == sub
  }

  predicate Precedes(rows: Rows, a: int, b: int)
    requires a in rows && b in rows
  {
    rows[a].sortOrder < rows[b].sortOrder || (rows[a].sortOrder == rows[b].sortOrder && a < b)
  }

  /** `ids` is what SubscriptionEntries reads: every entry of the subscription, by sort order and id. */
  ghost predicate Listing(rows: Rows, sub: int, ids: seq<int>) {
    && (forall i :: 0 <= i < |ids| ==> Of(rows, sub, ids[i]))
    && (forall id :: Of(rows, sub, id) ==> id in ids)
    && (forall i, j :: 0 <= i < j < |ids| ==> Precedes(rows, ids[i], ids[j]))
  }

  /** There is one listing. */
  lemma {:induction false} ListingUnique(rows: Rows, sub: int, a: seq<int>, b: seq<int>)
    requires Listing(rows, sub, a) && Listing(rows, sub, b)
    ensures a == b
  {
    if a != [] || b != [] {
      assert a != [] ==> Of(rows, sub, a[0]) && a[0] in b;
      assert b != [] ==> Of(rows, sub, b[0]) && b[0] in a;
      if a[0] != b[0] {
        var i :| 0 <= i < |a| && a[i] == b[0];
        var j :| 0 <= j < |b| && b[j] == a[0];
        assert Precedes(rows, a[0], b[0]) && Precedes(rows, b[0], a[0]);
        assert false;
      }
      var rest := rows - {a[0]};
      TailListing(rows, sub, a);
      TailListing(rows, sub, b);
      ListingUnique(rest, sub, a[1..], b[1..]);
      assert a == [a[0]] + a[1..] && b == [b[0]] + b[1..];
    }
  }

  lemma TailListing(rows: Rows, sub: int, ids: seq<int>)
    requires ids != [] && Listing(rows, sub, ids)
    ensures Listing(rows - {ids[0]}, sub, ids[1..])
  {
    forall id | Of(rows - {ids[0]}, sub, id) ensures id in ids[1..] {
      assert Of(rows, sub, id);
    }
  }

  lemma {:induction false} SortCompares(a: seq<int>, b: seq<int>)
    ensures |Sort(IntLeq, a)| == |a| && |Sort(IntLeq, b)| == |b|
    ensures Sort(IntLeq, a) == Sort(IntLeq, b) <==> multiset(a) == multiset(b)
    ensures multiset(a) == multiset(b) ==> |a| == |b|
  {
    IntOrder();
    SortSorts(IntLeq, a);
    SortSorts(IntLeq, b);
    var want, got := Sort(IntLeq, a), Sort(IntLeq, b);
    hide Sort, SortedBy, TotalOrder;
    assert |multiset(want)| == |want| && |multiset(got)| == |got|;
    assert |multiset(a)| == |a| && |multiset(b)| == |b|;
    if multiset(a) == multiset(b) {
      SortedUnique(IntLeq, want, got);
    }
  }

  /** The check of handleEntriesReorder: both lists are sorted and compared element by element. */
  method AcceptsOrder(current: seq<int>, requested: seq<int>) returns (ok: bool)
    ensures ok <==> multiset(current) == multiset(requested)
  {
    hide Sort;
    SortCompares(current, requested);
    if |requested| != |current| {
      return false;
    }
    var want, got := Sort(IntLeq, current), Sort(IntLeq, requested);
    for i := 0 to |want|
      invariant want[..i] == got[..i]
    {
      if want[i] != got[i] {
        return false;
      }
    }
    assert want[..|want|] == want && got[..|got|] == got;
    ok := true;
  }

  // The rows after the first updates of a reordering.
  function Renumbered(rows: Rows, ids: seq<int>): (r: Rows)
    requires forall i :: 0 <= i < |ids| ==> ids[i] in rows
    ensures r.Keys == rows.Keys
  {
    if ids == [] then rows
    else
      var init := Renumbered(rows, ids[..|ids| - 1]);
      var id := ids[|ids| - 1];
      init[id := init[id].(sortOrder := |ids| - 1)]
  }

  class EntryStore {
    var rows: Rows

    constructor (initial: Rows)
      ensures rows == initial
    {
      rows := initial;
    }

    /** ReorderSubscriptionEntries; `failing` is the update at which the database fails, |ids| is the commit. */
    method Reorder(sub: int, ids: seq<int>, failing: Option<nat>) returns (ok: bool)
      modifies this
      ensures ok <==>
                ((forall i :: 0 <= i < |ids| ==> Of(old(rows), sub, ids[i]))
                 && (failing.Some? ==> failing.value > |ids|))
      ensures rows == if ok then Renumbered(old(rows), ids) else old(rows)
    {
      var tx := rows;
      for i := 0 to |ids|
        invariant rows == old(rows) && tx.Keys == rows.Keys
        invariant failing.Some? ==> failing.value >= i
        invariant forall k :: 0 <= k < i ==> Of(rows, sub, ids[k])
        invariant forall id :: id in rows ==> tx[id].subscription == rows[id].subscription
        invariant tx == Renumbered(rows, ids[..i])
      {
        if failing == Some(i) {
          return false;
        }
        if !Of(tx, sub, ids[i]) {
          return false;
        }
        assert ids[..i + 1][..i] == ids[..i];
        tx := tx[ids[i] := tx[ids[i]].(sortOrder := i)];
      }
      assert ids[..|ids|] == ids;
      if failing == Some(|ids|) {
        return false;
      }
      rows := tx;
      ok := true;
    }
  }

  predicate Distinct<T(==)>(ids: seq<T>) {
    forall i, j :: 0 <= i < j < |ids| ==> ids[i] != ids[j]
  }

  lemma {:induction false} RenumberedAt(rows: Rows, ids: seq<int>)
    requires Distinct(ids) && forall i :: 0 <= i < |ids| ==> ids[i] in rows
    ensures Renumbered(rows, ids).Keys == rows.Keys
    ensures forall i :: 0 <= i < |ids| ==> Renumbered(rows, ids)[ids[i]] == rows[ids[i]].(sortOrder := i)
    ensures forall id :: id in rows && id !in ids ==> Renumbered(rows, ids)[id] == rows[id]
  {
    if ids != [] {
      RenumberedAt(rows, ids[..|ids| - 1]);
    }
  }

  lemma ListingDistinct(rows: Rows, sub: int, ids: seq<int>)
    requires Listing(rows, sub, ids)
    ensures Distinct(ids)
  {
    forall i, j | 0 <= i < j < |ids| ensures ids[i] != ids[j] {
      assert Precedes(rows, ids[i], ids[j]);
    }
  }

  lemma {:induction false} DistinctMultiset(ids: seq<int>)
    ensures Distinct(ids) <==> forall x :: multiset(ids)[x] <= 1
  {
    if ids != [] {
      var init, last := ids[..|ids| - 1], ids[|ids| - 1];
      assert ids == init + [last];
      DistinctMultiset(init);
      assert multiset(ids)[last] == multiset(init)[last] + 1;
      if last in init {
        var k :| 0 <= k < |init| && init[k] == last;
        assert ids[k] == ids[|ids| - 1];
      } else {
        assert multiset(init)[last] == 0;
        assert forall x :: x != last ==> multiset(ids)[x] == multiset(init)[x];
        if Distinct(init) {
          assert Distinct(ids);
        }
      }
    }
  }

  /**
   The requested order is stored: when the check accepts a list against what is read, the
   update succeeds unless the database fails, reading afterwards gives exactly that list, and
   no other row changes.
   */
  lemma {:induction false} OrderIsStored(rows: Rows, sub: int, current: seq<int>, requested: seq<int>)
    requires Listing(rows, sub, current) && multiset(current) == multiset(requested)
    ensures forall i :: 0 <= i < |requested| ==> Of(rows, sub, requested[i])
    ensures var t := Renumbered(rows, requested);
            && Listing(t, sub, requested)
            && (forall after :: Listing(t, sub, after) ==> after == requested)
            && t.Keys == rows.Keys && forall id :: id in rows && !Of(rows, sub, id) ==> t[id] == rows[id]
  {
    ListingDistinct(rows, sub, current);
    DistinctMultiset(current);
    DistinctMultiset(requested);
    forall id ensures id in requested <==> id in current {
      assert id in requested <==> id in multiset(requested);
      assert id in current <==> id in multiset(current);
    }
    forall i | 0 <= i < |requested| ensures Of(rows, sub, requested[i]) {
      assert requested[i] in current;
    }
    RenumberedAt(rows, requested);
    var t := Renumbered(rows, requested);
    hide Renumbered;
    assert Listing(t, sub, requested) by {
      forall id | Of(t, sub, id) ensures id in requested {
        assert id in requested || t[id] == rows[id];
        assert Of(rows, sub, id);
      }
    }
    forall after | Listing(t, sub, after) ensures after == requested {
      ListingUnique(t, sub, after, requested);
    }
  }

  // ---------- revisions ----------

  // The second of a subscription's last update, by slug.
  type Revisions = map<string, int>

  function Later(current: int, now: int): int {
    if now <= current then current + 1 else now
  }

  /** The least revision that is newer than the current one and not older than the clock. */
  lemma LaterIsLeast(current: int, now: int, other: int)
    ensures Later(current, now) > current && Later(current, now) >= now
    ensures other > current && other >= now ==> Later(current, now) <= other
  {}

  class RevisionStore {
    var revisions: Revisions

    constructor (initial: Revisions)
      ensures revisions == initial
    {
      revisions := initial;
    }

    /** TouchSubscriptions; `clock` gives the time at each slug, `committed` the outcome of the transaction. */
    method Touch(slugs: seq<string>, clock: nat -> int, committed: bool)
      modifies this
      ensures !committed ==> revisions == old(revisions)
      ensures revisions.Keys == old(revisions).Keys
      ensures forall slug :: slug in revisions && slug !in slugs ==> revisions[slug] == old(revisions)[slug]
      ensures committed ==> forall slug :: slug in revisions && slug in slugs ==> revisions[slug] > old(revisions)[slug]
      ensures committed && Distinct(slugs) ==> forall i :: 0 <= i < |slugs| && slugs[i] in revisions ==>
                revisions[slugs[i]] == Later(old(revisions)[slugs[i]], clock(i))
    {
      var tx := revisions;
      for i := 0 to |slugs|
        invariant revisions == old(revisions) && tx.Keys == revisions.Keys
        invariant forall slug :: slug in tx && slug !in slugs[..i] ==> tx[slug] == revisions[slug]
        invariant forall slug :: slug in tx && slug in slugs[..i] ==> tx[slug] > revisions[slug]
        invariant Distinct(slugs) ==> forall k :: 0 <= k < i && slugs[k] in tx ==>
                    tx[slugs[k]] == Later(revisions[slugs[k]], clock(k))
      {
        assert slugs[..i + 1] == slugs[..i] + [slugs[i]];
        if slugs[i] in tx {
          assert Distinct(slugs) ==> slugs[i] !in slugs[..i];
          tx := tx[slugs[i] := Later(tx[slugs[i]], clock(i))];
        }
      }
      assert slugs[..|slugs|] == slugs;
      if committed {
        revisions := tx;
      }
    }
  }
}
