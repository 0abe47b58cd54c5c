/**
 * The dashboard's local order list and the two realtime transitions on it:
 * a new order is put in front, an update is spread into the order with the
 * same id.
 */
module OrderList {
  import opened Wrappers
  import opened Orders

  /** `[newOrder, ...prev]`: the new order goes first; nothing is checked against the list. */
  function Prepend(prev: seq<Order>, newOrder: Order): (r: seq<Order>)
    ensures |r| == |prev| + 1
    ensures r[0] == newOrder && r[1..] == prev
  {
    [newOrder] + prev
  }

  /** The callback of the update `map`: spread the update into an order of the same id. */
  function MergeIfSameId(order: Order, updated: Order): (r: Order)
    ensures SameId(r, order)
    ensures SameId(order, updated) ==> r == Merge(order, updated)
    ensures r == order || SameId(order, updated)
  {
    if SameId(order, updated) then Merge(order, updated) else order
  }

  /** `prev.map(order => order.id === updated.id ? {...order, ...updated} : order)` */
  function ApplyUpdate(prev: seq<Order>, updated: Order): (r: seq<Order>)
    ensures |r| == |prev|
    ensures forall i :: 0 <= i < |prev| && SameId(prev[i], updated) ==> r[i] == Merge(prev[i], updated)
    ensures forall i :: 0 <= i < |prev| && !SameId(prev[i], updated) ==> r[i] == prev[i]
  {
    if prev == [] then [] else [MergeIfSameId(prev[0], updated)] + ApplyUpdate(prev[1..], updated)
  }

  /** The ids of the list, in list order (None for an order without an `id`). */
  function Ids(s: seq<Order>): (r: seq<Option<Value>>)
    ensures |r| == |s|
    ensures forall i :: 0 <= i < |s| ==> r[i] == Field(s[i], IdField)
  {
    if s == [] then [] else [Field(s[0], IdField)] + Ids(s[1..])
  }

  // ---------------------------------------------------------------------------
  // Update events

  /** An update keeps the list's length and every order's position and id. */
  lemma UpdateKeepsIds(prev: seq<Order>, updated: Order)
    ensures Ids(ApplyUpdate(prev, updated)) == Ids(prev)
  {
  }

  /** In an order the update reaches, a field of the update takes the update's value, any other field keeps its own. */
  lemma UpdatedFields(prev: seq<Order>, updated: Order, i: nat, k: string)
    requires i < |prev| && SameId(prev[i], updated)
    ensures var o := ApplyUpdate(prev, updated)[i];
            (k in o <==> k in prev[i] || k in updated) &&
            (k in updated ==> o[k] == updated[k]) &&
            (k in prev[i] && k !in updated ==> o[k] == prev[i][k])
  {
  }

  /** An update whose id matches no order leaves the list as it was. */
  lemma UpdateOfAbsentId(prev: seq<Order>, updated: Order)
    requires Field(updated, IdField) !in Ids(prev)
    ensures ApplyUpdate(prev, updated) == prev
  {
  }

  /** Delivering the same update twice gives the list one delivery gives. */
  lemma {:induction false} UpdateIdempotent(prev: seq<Order>, updated: Order)
    ensures ApplyUpdate(ApplyUpdate(prev, updated), updated) == ApplyUpdate(prev, updated)
  {
    var once := ApplyUpdate(prev, updated);
    var twice := ApplyUpdate(once, updated);
    forall i | 0 <= i < |prev|
      ensures twice[i] == once[i]
    {
      if SameId(prev[i], updated) {
        MergeKeepsId(prev[i], updated);
        MergeIdempotent(prev[i], updated);
      }
    }
  }

  /** Two updates of the same order in turn act as one update carrying the later fields over the earlier. */
  lemma {:induction false} UpdatesCompose(prev: seq<Order>, u1: Order, u2: Order)
    requires SameId(u1, u2)
    ensures ApplyUpdate(ApplyUpdate(prev, u1), u2) == ApplyUpdate(prev, Merge(u1, u2))
  {
    var u := Merge(u1, u2);
    var stepwise := ApplyUpdate(ApplyUpdate(prev, u1), u2);
    var combined := ApplyUpdate(prev, u);
    MergeKeepsId(u1, u2);
    forall i | 0 <= i < |prev|
      ensures stepwise[i] == combined[i]
    {
      if SameId(prev[i], u1) {
        MergeKeepsId(prev[i], u1);
        MergeAssociative(prev[i], u1, u2);
      }
    }
  }

  /**
   * Two updates for one id in sequence: in the order they reach, the later
   * update's fields win, and a field absent from it keeps the earlier value.
   */
  lemma LaterUpdateWins(prev: seq<Order>, u1: Order, u2: Order, i: nat, k: string)
    requires SameId(u1, u2) && i < |prev| && SameId(prev[i], u1)
    ensures var o := ApplyUpdate(ApplyUpdate(prev, u1), u2)[i];
            (k in o <==> k in prev[i] || k in u1 || k in u2) &&
            (k in u2 ==> o[k] == u2[k]) &&
            (k !in u2 && k in u1 ==> o[k] == u1[k]) &&
            (k !in u2 && k !in u1 && k in prev[i] ==> o[k] == prev[i][k])
  {
  }

  /**
   * An update never removes an order: one that moves an order to a status
   * outside the active set leaves it in the list with that status.
   */
  lemma UpdateSetsStatus(prev: seq<Order>, updated: Order, i: nat, s: string)
    requires i < |prev| && SameId(prev[i], updated)
    requires Field(updated, StatusField) == Some(Text(s))
    ensures |ApplyUpdate(prev, updated)| == |prev|
    ensures StatusOf(ApplyUpdate(prev, updated)[i]) == ParseStatus(s)
  {
  }

  // ---------------------------------------------------------------------------
  // New-order events

  /** A new order is counted once more under its id, whether or not that id is already listed. */
  lemma PrependCountsId(prev: seq<Order>, newOrder: Order)
    ensures Ids(Prepend(prev, newOrder)) == [Field(newOrder, IdField)] + Ids(prev)
    ensures multiset(Ids(Prepend(prev, newOrder)))[Field(newOrder, IdField)] ==
            multiset(Ids(prev))[Field(newOrder, IdField)] + 1
  {
  }

  /** No de-duplication: an insert delivered twice leaves the same order in the first two places. */
  lemma RedeliveredInsertDuplicates(prev: seq<Order>, newOrder: Order)
    ensures var r := Prepend(Prepend(prev, newOrder), newOrder);
            |r| == |prev| + 2 && r[0] == r[1] == newOrder && SameId(r[0], r[1]) && r[2..] == prev
  {
  }

  // ---------------------------------------------------------------------------
  // A sequence of realtime events

  /** One realtime callback: a new order (insert feed) or the raw fields of an update (update feed). */
  datatype Change = Inserted(order: Order) | Updated(fields: Order)

  function Step(prev: seq<Order>, c: Change): (r: seq<Order>)
    ensures |r| == |prev| + (if c.Inserted? then 1 else 0)
    ensures c.Inserted? ==> r[0] == c.order && r[1..] == prev
    ensures c.Updated? ==> Ids(r) == Ids(prev)
  {
    match c
    case Inserted(o) => Prepend(prev, o)
    case Updated(u) => ApplyUpdate(prev, u)
  }

  /** The list after the callbacks run in the given order, each on the state the previous one left. */
  function Replay(prev: seq<Order>, cs: seq<Change>): (r: seq<Order>)
    ensures |prev| <= |r| <= |prev| + |cs|
    decreases |cs|
  {
    if cs == [] then prev else Replay(Step(prev, cs[0]), cs[1..])
  }

  /** After one callback the old list's ids are still the tail of the new list's ids. */
  lemma StepKeepsIds(prev: seq<Order>, c: Change)
    ensures Ids(Step(prev, c))[|Step(prev, c)| - |prev|..] == Ids(prev)
  {
    if c.Updated? {
      UpdateKeepsIds(prev, c.fields);
    }
  }

  /** A tail of a tail is a tail. */
  lemma SuffixOfSuffix<T>(a: seq<T>, b: seq<T>, c: seq<T>)
    requires |c| <= |b| <= |a|
    requires a[|a| - |b|..] == b && b[|b| - |c|..] == c
    ensures a[|a| - |c|..] == c
  {
    assert a[|a| - |c|..] == a[|a| - |b|..][|b| - |c|..];
  }

  /** No callback removes an order: the starting list's ids stay, in order, at the end of the list. */
  lemma {:induction false} ReplayKeepsOldIds(prev: seq<Order>, cs: seq<Change>)
    ensures Ids(Replay(prev, cs))[|Replay(prev, cs)| - |prev|..] == Ids(prev)
    decreases |cs|
  {
    if cs != [] {
      var next := Step(prev, cs[0]);
      ReplayKeepsOldIds(next, cs[1..]);
      StepKeepsIds(prev, cs[0]);
      SuffixOfSuffix(Ids(Replay(prev, cs)), Ids(next), Ids(prev));
    }
  }

  /** The number of insert events in a run. */
  function Inserts(cs: seq<Change>): (n: nat)
    ensures n <= |cs|
    ensures n == 0 <==> forall j :: 0 <= j < |cs| ==> cs[j].Updated?
  {
    if cs == [] then 0 else (if cs[0].Inserted? then 1 else 0) + Inserts(cs[1..])
  }

  /** The list grows by exactly one per insert and by nothing per update. */
  lemma {:induction false} ReplayLength(prev: seq<Order>, cs: seq<Change>)
    ensures |Replay(prev, cs)| == |prev| + Inserts(cs)
    decreases |cs|
  {
    if cs != [] {
      ReplayLength(Step(prev, cs[0]), cs[1..]);
    }
  }

  /** Updates alone never add, drop, reorder or re-identify an order. */
  lemma {:induction false} ReplayUpdatesKeepIds(prev: seq<Order>, cs: seq<Change>)
    requires forall j :: 0 <= j < |cs| ==> cs[j].Updated?
    ensures Ids(Replay(prev, cs)) == Ids(prev)
    decreases |cs|
  {
    if cs != [] {
      UpdateKeepsIds(prev, cs[0].fields);
      ReplayUpdatesKeepIds(Step(prev, cs[0]), cs[1..]);
    }
  }

  /** Replaying two runs of events one after the other is replaying their concatenation. */
  lemma {:induction false} ReplayConcat(prev: seq<Order>, a: seq<Change>, b: seq<Change>)
    ensures Replay(prev, a + b) == Replay(Replay(prev, a), b)
    decreases |a|
  {
    if a == [] {
      assert a + b == b;
    } else {
      assert (a + b)[0] == a[0];
      assert (a + b)[1..] == a[1..] + b;
      ReplayConcat(Step(prev, a[0]), a[1..], b);
    }
  }
}
