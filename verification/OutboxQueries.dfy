/** What the outbox's limited queries return, without their sorting and
    cutting: which row is taken is decided by how many rows come before it. */
module OutboxQueries {
  import opened Common
  import opened Outbox

  /** `ORDER BY key, id`. */
  ghost predicate Before(key: nat -> int, x: nat, y: nat) {
    key(x) < key(y) || (key(x) == key(y) && x < y)
  }

  ghost function Ahead(among: set<nat>, key: nat -> int, id: nat): set<nat> {
    set x | x in among && Before(key, x, id)
  }

  ghost function Behind(among: set<nat>, key: nat -> int, id: nat): set<nat> {
    set x | x in among && Before(key, id, x)
  }

  /** `ORDER BY id`. */
  ghost function ById(): nat -> int {
    (id: nat) => 0
  }

  /** The rows of ids 1 to `hi` that satisfy `keep`. */
  ghost function Where(rows: Table, hi: nat, keep: Row -> bool): set<nat> {
    set id | id in rows && 1 <= id < hi && keep(rows[id])
  }

  // ------------------------------------------------------- positions in an order

  lemma {:induction false} DistinctCount(ids: seq<nat>)
    requires forall i, j :: 0 <= i < j < |ids| ==> ids[i] != ids[j]
    ensures |AsSet(ids)| == |ids|
    decreases |ids|
  {
    if ids == [] {
      assert AsSet(ids) == {};
    } else {
      var n := |ids| - 1;
      DistinctCount(ids[..n]);
      assert AsSet(ids) == AsSet(ids[..n]) + {ids[n]};
    }
  }

  /** As many entries come before an entry as its index says. */
  lemma PositionCounts(ids: seq<nat>, key: nat -> int, i: nat)
    requires Ordered(ids, key) && i < |ids|
    ensures |Ahead(AsSet(ids), key, ids[i])| == i
    ensures |Behind(AsSet(ids), key, ids[i])| == |ids| - 1 - i
  {
    var ahead, behind := ids[..i], ids[i + 1..];
    assert Ahead(AsSet(ids), key, ids[i]) == AsSet(ahead) by {
      forall x | x in AsSet(ids)
        ensures Before(key, x, ids[i]) <==> x in ahead
      {
        PlaceDecides(ids, key, i, x);
      }
    }
    assert Behind(AsSet(ids), key, ids[i]) == AsSet(behind) by {
      forall x | x in AsSet(ids)
        ensures Before(key, ids[i], x) <==> x in behind
      {
        PlaceDecides(ids, key, i, x);
      }
    }
    DistinctCount(ahead);
    DistinctCount(behind);
  }

  lemma PlaceDecides(ids: seq<nat>, key: nat -> int, i: nat, x: nat)
    requires Ordered(ids, key) && i < |ids| && x in ids
    ensures Before(key, x, ids[i]) <==> x in ids[..i]
    ensures Before(key, ids[i], x) <==> x in ids[i + 1..]
  {
    var j :| 0 <= j < |ids| && ids[j] == x;
    if j < i {
      assert ids[..i][j] == x;
    } else if j > i {
      assert ids[i + 1..][j - i - 1] == x;
    }
  }

  /** A limit takes those with fewer entries before them than the limit. */
  lemma LimitTakesFirst(ids: seq<nat>, key: nat -> int, limit: nat, id: nat)
    requires Ordered(ids, key)
    ensures id in Limit(ids, limit) <==> id in ids && |Ahead(AsSet(ids), key, id)| < limit
  {
    if id in ids {
      var i :| 0 <= i < |ids| && ids[i] == id;
      PositionCounts(ids, key, i);
      if i < limit {
        assert Limit(ids, limit)[i] == id;
      }
    }
  }

  lemma AscendingIsOrdered(ids: seq<nat>)
    requires Ascending(ids)
    ensures Ordered(ids, ById())
  {
  }

  lemma OldestAreTaken(rows: Table, hi: nat, keep: Row -> bool, key: nat -> int, limit: nat, id: nat)
    ensures id in Limit(OrderBy(Select(rows, 1, hi, keep), key), limit)
            <==> id in Where(rows, hi, keep) && |Ahead(Where(rows, hi, keep), key, id)| < limit
  {
    var found := Select(rows, 1, hi, keep);
    OrderByIsOrdered(found, key);
    LimitTakesFirst(OrderBy(found, key), key, limit, id);
    assert AsSet(OrderBy(found, key)) == Where(rows, hi, keep);
  }

  // -------------------------------------------------------------- the queries

  /** A claim takes the due rows of the oldest events, and as many as it may. */
  lemma ClaimTakesOldestDue(rows: Table, next: nat, at: int, stale: int, limit: nat, id: nat)
    ensures var due := Where(rows, next, IsDue(at, stale));
            id in DueIds(rows, next, at, stale, limit)
            <==> id in due && |Ahead(due, OccurredAt(rows), id)| < limit
    ensures Ordered(DueIds(rows, next, at, stale, limit), OccurredAt(rows))
  {
    OldestAreTaken(rows, next, IsDue(at, stale), OccurredAt(rows), limit, id);
    OrderByIsOrdered(Select(rows, 1, next, IsDue(at, stale)), OccurredAt(rows));
  }

  /** The retention prune takes the longest delivered first. */
  lemma PruneTakesOldestDelivered(rows: Table, next: nat, before: int, limit: nat, floor: int, id: nat)
    ensures var old' := Where(rows, UpTo(floor, next), DeliveredBefore(before));
            id in OldDelivered(rows, next, before, limit, floor)
            <==> id in old' && |Ahead(old', DeliveredAt(rows), id)| < limit
  {
    OldestAreTaken(rows, UpTo(floor, next), DeliveredBefore(before), DeliveredAt(rows), limit, id);
  }

  /** The failed rows go oldest event first. */
  lemma PruneTakesOldestFailed(rows: Table, next: nat, before: int, limit: nat, floor: int, id: nat)
    ensures var old' := Where(rows, UpTo(floor, next), FailedBefore(before));
            id in OldFailed(rows, next, before, limit, floor)
            <==> id in old' && |Ahead(old', OccurredAt(rows), id)| < limit
  {
    OldestAreTaken(rows, UpTo(floor, next), FailedBefore(before), OccurredAt(rows), limit, id);
  }

  /** The delivered rows up to the floor that at least `keep` newer ones follow. */
  ghost function Surplus(rows: Table, next: nat, keep: nat, floor: int): set<nat> {
    var delivered := Where(rows, UpTo(floor, next), IsDelivered());
    set id | id in delivered && |Behind(delivered, DeliveredAt(rows), id)| >= keep
  }

  /** The count prune keeps the newest `keep` delivered rows up to the floor, and
      takes the rest lowest id first. */
  lemma PruneKeepsNewest(rows: Table, next: nat, keep: nat, limit: nat, floor: int, id: nat)
    ensures var surplus := Surplus(rows, next, keep, floor);
            id in OverCount(rows, next, keep, limit, floor)
            <==> id in surplus && |Ahead(surplus, ById(), id)| < limit
  {
    var found := Select(rows, 1, UpTo(floor, next), IsDelivered());
    var byAge := OrderBy(found, DeliveredAt(rows));
    OrderByIsOrdered(found, DeliveredAt(rows));
    assert AsSet(byAge) == Where(rows, UpTo(floor, next), IsDelivered());
    var cut := SaturatingSub(|byAge|, keep);
    assert AsSet(byAge[..cut]) == Surplus(rows, next, keep, floor) by {
      SurplusIsCut(byAge, DeliveredAt(rows), keep);
    }
    var ids := SelectIn(1, next, AsSet(byAge[..cut]));
    AscendingIsOrdered(ids);
    LimitTakesFirst(ids, ById(), limit, id);
    assert AsSet(ids) == AsSet(byAge[..cut]);
  }

  lemma SurplusIsCut(ids: seq<nat>, key: nat -> int, keep: nat)
    requires Ordered(ids, key)
    ensures AsSet(ids[..SaturatingSub(|ids|, keep)])
            == set id | id in AsSet(ids) && |Behind(AsSet(ids), key, id)| >= keep
  {
    var cut := SaturatingSub(|ids|, keep);
    forall id | id in ids
      ensures id in ids[..cut] <==> |Behind(AsSet(ids), key, id)| >= keep
    {
      var i :| 0 <= i < |ids| && ids[i] == id;
      PositionCounts(ids, key, i);
      if i < cut {
        assert ids[..cut][i] == id;
      }
    }
  }

  lemma FoundIsWhere(rows: Table, hi: nat)
    ensures AsSet(Select(rows, 1, hi, AnyRow())) == Where(rows, hi, AnyRow())
  {
  }

  /** The floor prune takes the lowest ids, whatever their status, and nothing
      without a real floor. */
  lemma FloorPruneTakesLowest(rows: Table, next: nat, floor: int, limit: nat, id: nat)
    ensures var below := Where(rows, UpTo(floor, next), AnyRow());
            id in BelowFloor(rows, next, floor, limit)
            <==> floor != I64_MAX && id in below && |Ahead(below, ById(), id)| < limit
  {
    hide Ahead, Limit, Where;
    var found := Select(rows, 1, UpTo(floor, next), AnyRow());
    AscendingIsOrdered(found);
    LimitTakesFirst(found, ById(), limit, id);
    assert AsSet(found) == Where(rows, UpTo(floor, next), AnyRow()) by { FoundIsWhere(rows, UpTo(floor, next)); }
  }

  /** A read takes the lowest ids after the cursor. */
  lemma ReadTakesNext(rows: Table, next: nat, after: int, limit: nat, id: nat)
    ensures var newer := set x | x in Where(rows, next, AnyRow()) && x > after;
            id in Since(rows, next, after, limit) <==> id in newer && |Ahead(newer, ById(), id)| < limit
  {
    var newer := set x | x in Where(rows, next, AnyRow()) && x > after;
    var found := Select(rows, if after < 0 then 1 else after + 1, next, AnyRow());
    AscendingIsOrdered(found);
    LimitTakesFirst(found, ById(), limit, id);
    assert AsSet(found) == newer;
  }

  // ------------------------------------------------------- older rows go first

  lemma AheadIsSmaller(among: set<nat>, key: nat -> int, x: nat, y: nat)
    requires Before(key, x, y)
    ensures |Ahead(among, key, x)| <= |Ahead(among, key, y)| && |Behind(among, key, x)| >= |Behind(among, key, y)|
  {
    assert Ahead(among, key, x) <= Ahead(among, key, y);
    assert Ahead(among, key, y) == Ahead(among, key, x) + (Ahead(among, key, y) - Ahead(among, key, x));
    assert Behind(among, key, y) <= Behind(among, key, x);
    assert Behind(among, key, x) == Behind(among, key, y) + (Behind(among, key, x) - Behind(among, key, y));
  }

  /** Of two due rows the one of the older event is claimed first. */
  lemma OlderEventIsClaimedFirst(rows: Table, next: nat, at: int, stale: int, limit: nat, x: nat, y: nat)
    requires 1 <= x < next && x in rows && Due(rows[x], at, stale) && y in DueIds(rows, next, at, stale, limit)
    requires rows[x].occurredAt < rows[y].occurredAt || (rows[x].occurredAt == rows[y].occurredAt && x < y)
    ensures x in DueIds(rows, next, at, stale, limit)
  {
    hide DueIds, Due, Ahead;
    ClaimTakesOldestDue(rows, next, at, stale, limit, x);
    ClaimTakesOldestDue(rows, next, at, stale, limit, y);
    AheadIsSmaller(Where(rows, next, IsDue(at, stale)), OccurredAt(rows), x, y);
  }

  /** Of two delivered rows the one delivered earlier is surplus first. */
  lemma EarlierDeliveredIsSurplusFirst(rows: Table, next: nat, keep: nat, floor: int, x: nat, y: nat)
    requires 1 <= x < next && x <= floor && x in rows && rows[x].status == Delivered && y in Surplus(rows, next, keep, floor)
    requires rows[x].deliveredAt.Some? && rows[y].deliveredAt.Some? && rows[x].deliveredAt.value < rows[y].deliveredAt.value
    ensures x in Surplus(rows, next, keep, floor)
  {
    hide Behind;
    AheadIsSmaller(Where(rows, UpTo(floor, next), IsDelivered()), DeliveredAt(rows), x, y);
  }

  /** Of two rows past the retention the one delivered earlier is pruned first. */
  lemma EarlierDeliveredIsPrunedFirst(rows: Table, next: nat, before: int, limit: nat, floor: int, x: nat, y: nat)
    requires 1 <= x < next && x <= floor && x in rows && rows[x].status == Delivered && y in OldDelivered(rows, next, before, limit, floor)
    requires rows[x].deliveredAt.Some? && rows[x].deliveredAt.value < rows[y].deliveredAt.value
    ensures x in OldDelivered(rows, next, before, limit, floor)
  {
    hide OldDelivered, Ahead;
    PruneTakesOldestDelivered(rows, next, before, limit, floor, x);
    PruneTakesOldestDelivered(rows, next, before, limit, floor, y);
    AheadIsSmaller(Where(rows, UpTo(floor, next), DeliveredBefore(before)), DeliveredAt(rows), x, y);
  }

  /** Of two failed rows past their age the one of the older event is pruned first. */
  lemma OlderFailedIsPrunedFirst(rows: Table, next: nat, before: int, limit: nat, floor: int, x: nat, y: nat)
    requires 1 <= x < next && x <= floor && x in rows && rows[x].status == Failed && y in OldFailed(rows, next, before, limit, floor)
    requires rows[x].occurredAt < rows[y].occurredAt
    ensures x in OldFailed(rows, next, before, limit, floor)
  {
    hide OldFailed, Ahead;
    PruneTakesOldestFailed(rows, next, before, limit, floor, x);
    PruneTakesOldestFailed(rows, next, before, limit, floor, y);
    AheadIsSmaller(Where(rows, UpTo(floor, next), FailedBefore(before)), OccurredAt(rows), x, y);
  }
}
