/** The durable event outbox and its listener cursors (src/event_outbox.rs): the
    table on values, each statement as a function of the table. */
module Outbox {
  import opened Common

  const I64_MAX: int := 0x7FFF_FFFF_FFFF_FFFF
  const I64_MIN: int := -0x8000_0000_0000_0000

  type i64 = n: int | -0x8000_0000_0000_0000 <= n <= 0x7FFF_FFFF_FFFF_FFFF

  datatype Status = Pending | InProgress | Delivered | Failed

  datatype Row = Row(
    event: string,
    occurredAt: int,
    status: Status,
    attempts: nat,
    nextAttemptAt: Option<int>,
    claimedBy: Option<string>,
    claimedAt: Option<int>,
    deliveredAt: Option<int>,
    lastError: Option<string>)

  /** Rows by id. Ids start at 1, rise by one and are never used again. */
  type Table = map<nat, Row>

  datatype Cursor = Cursor(last: int, updatedAt: int)

  // ------------------------------------------------------------------ queries

  ghost predicate Ascending(ids: seq<nat>) {
    forall i, j :: 0 <= i < j < |ids| ==> ids[i] < ids[j]
  }

  lemma AscendingFrom(x: nat, ids: seq<nat>)
    requires Ascending(ids) && forall y :: y in ids ==> x < y
    ensures Ascending([x] + ids)
  {
    forall i, j | 0 <= i < j < |ids| + 1
      ensures ([x] + ids)[i] < ([x] + ids)[j]
    {
      assert ([x] + ids)[j] == ids[j - 1] && ids[j - 1] in ids;
    }
  }

  /** The ids in `[lo, hi)` of rows that satisfy `keep`, in id order. */
  function Select(rows: Table, lo: nat, hi: nat, keep: Row -> bool): (ids: seq<nat>)
    ensures forall id :: id in ids <==> lo <= id < hi && id in rows && keep(rows[id])
    ensures Ascending(ids)
    decreases hi - lo
  {
    if lo >= hi then []
    else if lo in rows && keep(rows[lo]) then
      var rest := Select(rows, lo + 1, hi, keep);
      AscendingFrom(lo, rest);
      [lo] + rest
    else Select(rows, lo + 1, hi, keep)
  }

  /** `id` put in before the first entry with a larger key. */
  function Insert(id: nat, ids: seq<nat>, key: nat -> int): (r: seq<nat>)
    ensures forall x :: x in r <==> x == id || x in ids
    ensures |r| == |ids| + 1
  {
    if ids == [] then [id]
    else if key(id) <= key(ids[0]) then [id] + ids
    else [ids[0]] + Insert(id, ids[1..], key)
  }

  /** Sorted by `key`; entries with equal keys keep their order. */
  function OrderBy(ids: seq<nat>, key: nat -> int): (r: seq<nat>)
    ensures forall x :: x in r <==> x in ids
    ensures |r| == |ids|
  {
    if ids == [] then [] else Insert(ids[0], OrderBy(ids[1..], key), key)
  }

  /** Ordered by key, then by id. */
  ghost predicate Ordered(ids: seq<nat>, key: nat -> int) {
    forall i, j :: 0 <= i < j < |ids| ==>
      key(ids[i]) < key(ids[j]) || (key(ids[i]) == key(ids[j]) && ids[i] < ids[j])
  }

  lemma {:induction false} InsertKeepsOrder(id: nat, ids: seq<nat>, key: nat -> int)
    requires Ordered(ids, key) && forall x :: x in ids ==> id < x
    ensures Ordered(Insert(id, ids, key), key)
  {
    if ids != [] && key(id) <= key(ids[0]) {
      var r := [id] + ids;
      forall j | 1 <= j < |r|
        ensures key(id) < key(r[j]) || (key(id) == key(r[j]) && id < r[j])
      {
        assert r[j] == ids[j - 1] && ids[j - 1] in ids;
      }
    } else if ids != [] {
      assert Ordered(ids[1..], key);
      assert forall x :: x in ids[1..] ==> x in ids;
      InsertKeepsOrder(id, ids[1..], key);
      var rest := Insert(id, ids[1..], key);
      forall j | 0 <= j < |rest|
        ensures key(ids[0]) < key(rest[j]) || (key(ids[0]) == key(rest[j]) && ids[0] < rest[j])
      {
        assert rest[j] in rest;
      }
    }
  }

  /** `ORDER BY key, id` on rows scanned in id order. */
  lemma {:induction false} OrderByIsOrdered(ids: seq<nat>, key: nat -> int)
    requires Ascending(ids)
    ensures Ordered(OrderBy(ids, key), key)
  {
    if ids != [] {
      OrderByIsOrdered(ids[1..], key);
      InsertKeepsOrder(ids[0], OrderBy(ids[1..], key), key);
    }
  }

  function Limit(ids: seq<nat>, n: nat): (r: seq<nat>)
    ensures r <= ids && |r| <= n
    ensures forall x :: x in r ==> x in ids
  {
    if |ids| <= n then ids else ids[..n]
  }

  function AsSet(ids: seq<nat>): (r: set<nat>)
    ensures forall x :: x in r <==> x in ids
  {
    set x | x in ids
  }

  // ------------------------------------------------------------- the life of a row

  /** `i64::saturating_sub` and `saturating_add`. */
  function Clamp(n: int): int {
    if n > I64_MAX then I64_MAX else if n < I64_MIN then I64_MIN else n
  }

  function NewRow(event: string, occurredAt: int): Row {
    Row(event, occurredAt, Pending, 0, None, None, None, None, None)
  }

  /** The newest claim time that counts as stale. */
  function StaleBefore(at: int, stale: int): int {
    Clamp(at - Max(stale, 1))
  }

  /** A row that may be claimed: due, or held by a claim gone stale. */
  predicate Due(row: Row, at: int, stale: int) {
    || (row.status == Pending && (row.nextAttemptAt.None? || row.nextAttemptAt.value <= at))
    || (row.status == InProgress && row.claimedAt.Some? && row.claimedAt.value <= StaleBefore(at, stale))
  }

  function ClaimRow(row: Row, claimant: string, at: int): Row {
    row.(status := InProgress, attempts := row.attempts + 1, claimedBy := Some(claimant),
         claimedAt := Some(at), lastError := None)
  }

  function OccurredAt(rows: Table): nat -> int {
    (id: nat) => if id in rows then rows[id].occurredAt else 0
  }

  function IsDue(at: int, stale: int): Row -> bool {
    (row: Row) => Due(row, at, stale)
  }

  /** The ids claim_due picks: due rows, oldest event first. */
  function DueIds(rows: Table, next: nat, at: int, stale: int, limit: nat): (ids: seq<nat>)
    ensures forall id :: id in ids ==> id in rows && Due(rows[id], at, stale)
  {
    Limit(OrderBy(Select(rows, 1, next, IsDue(at, stale)), OccurredAt(rows)), limit)
  }

  lemma DueIdsAreDistinct(rows: Table, next: nat, at: int, stale: int, limit: nat)
    ensures var ids := DueIds(rows, next, at, stale, limit);
            forall i, j :: 0 <= i < j < |ids| ==> ids[i] != ids[j]
  {
    OrderByIsOrdered(Select(rows, 1, next, IsDue(at, stale)), OccurredAt(rows));
  }

  function ClaimAll(rows: Table, ids: set<nat>, claimant: string, at: int): Table {
    map id | id in rows :: if id in ids then ClaimRow(rows[id], claimant, at) else rows[id]
  }

  /** mark_delivered: it checks neither the claimant nor the status. */
  function MarkDelivered(rows: Table, id: nat, at: int): Table {
    if id in rows then
      rows[id := rows[id].(status := Delivered, deliveredAt := Some(at), claimedBy := None, claimedAt := None,
                           nextAttemptAt := None, lastError := None)]
    else rows
  }

  /** mark_failed: to be retried at `retryAt`, or failed for good. */
  function MarkFailed(rows: Table, id: nat, error: string, retryAt: Option<int>): Table {
    if id in rows then
      rows[id := rows[id].(status := if retryAt.Some? then Pending else Failed, nextAttemptAt := retryAt,
                           claimedBy := None, claimedAt := None, lastError := Some(error))]
    else rows
  }

  function RequeueRow(row: Row, at: int): Row {
    if row.status == Failed
    then row.(status := Pending, nextAttemptAt := Some(at), claimedBy := None, claimedAt := None,
              deliveredAt := None, lastError := None)
    else row
  }

  function Requeue(rows: Table, ids: set<nat>, at: int): Table {
    map id | id in rows :: if id in ids then RequeueRow(rows[id], at) else rows[id]
  }

  // ------------------------------------------------------------------- pruning

  /** Ids up to the floor, among those ever given out. */
  function UpTo(floor: int, next: nat): nat {
    if floor < 0 then 0 else Min(floor + 1, next)
  }

  function DeliveredAt(rows: Table): nat -> int {
    (id: nat) => if id in rows && rows[id].deliveredAt.Some? then rows[id].deliveredAt.value else OccurredAt(rows)(id)
  }

  function AnyRow(): Row -> bool {
    (row: Row) => true
  }

  function IsFailed(): Row -> bool {
    (row: Row) => row.status == Failed
  }

  function IsDelivered(): Row -> bool {
    (row: Row) => row.status == Delivered
  }

  function DeliveredBefore(before: int): Row -> bool {
    (row: Row) => row.status == Delivered && row.deliveredAt.Some? && row.deliveredAt.value < before
  }

  function FailedBefore(before: int): Row -> bool {
    (row: Row) => row.status == Failed && row.occurredAt < before
  }

  /** prune_delivered_before. */
  function OldDelivered(rows: Table, next: nat, before: int, limit: nat, floor: int): (ids: seq<nat>)
    ensures forall id :: id in ids ==> id in rows && id <= floor && rows[id].status == Delivered
    ensures forall id :: id in ids ==> rows[id].deliveredAt.Some? && rows[id].deliveredAt.value < before
  {
    Limit(OrderBy(Select(rows, 1, UpTo(floor, next), DeliveredBefore(before)), DeliveredAt(rows)), limit)
  }

  /** prune_delivered_over_count: all but the newest `keep`, at most `limit`. */
  function OverCount(rows: Table, next: nat, keep: nat, limit: nat, floor: int): (ids: seq<nat>)
    ensures forall id :: id in ids ==> id in rows && id <= floor && rows[id].status == Delivered
  {
    var byAge := OrderBy(Select(rows, 1, UpTo(floor, next), IsDelivered()), DeliveredAt(rows));
    var surplus := AsSet(byAge[..SaturatingSub(|byAge|, keep)]);
    Limit(SelectIn(1, next, surplus), limit)
  }

  /** The ids of `chosen` in id order. */
  function SelectIn(lo: nat, hi: nat, chosen: set<nat>): (ids: seq<nat>)
    ensures forall id :: id in ids <==> lo <= id < hi && id in chosen
    ensures Ascending(ids)
    decreases hi - lo
  {
    if lo >= hi then []
    else if lo in chosen then
      var rest := SelectIn(lo + 1, hi, chosen);
      AscendingFrom(lo, rest);
      [lo] + rest
    else SelectIn(lo + 1, hi, chosen)
  }

  /** prune_failed_before. */
  function OldFailed(rows: Table, next: nat, before: int, limit: nat, floor: int): (ids: seq<nat>)
    ensures forall id :: id in ids ==> id in rows && id <= floor && rows[id].status == Failed
    ensures forall id :: id in ids ==> rows[id].occurredAt < before
  {
    Limit(OrderBy(Select(rows, 1, UpTo(floor, next), FailedBefore(before)), OccurredAt(rows)), limit)
  }

  /** purge_failed: every failed row up to the floor. */
  function AllFailed(rows: Table, next: nat, floor: int): (ids: seq<nat>)
    ensures forall id :: id in ids <==> 1 <= id < next && id in rows && id <= floor && rows[id].status == Failed
  {
    Select(rows, 1, UpTo(floor, next), IsFailed())
  }

  /** failed_above_floor counts these. */
  function FailedAbove(rows: Table, next: nat, floor: int): (ids: seq<nat>)
    ensures forall id :: id in ids <==> 1 <= id < next && id in rows && id > floor && rows[id].status == Failed
  {
    Select(rows, Max(1, if floor < 0 then 1 else floor + 1), next, IsFailed())
  }

  /** prune_below_floor: any status, and nothing when there is no real floor. */
  function BelowFloor(rows: Table, next: nat, floor: int, limit: nat): (ids: seq<nat>)
    ensures forall id :: id in ids ==> id in rows && id <= floor && floor != I64_MAX
  {
    if limit == 0 || floor <= 0 || floor == I64_MAX then []
    else Limit(Select(rows, 1, UpTo(floor, next), AnyRow()), limit)
  }

  // ------------------------------------------------------------------- listeners

  /** event_outbox_since: the next rows after `after`, oldest first. */
  function Since(rows: Table, next: nat, after: int, limit: nat): (ids: seq<nat>)
    ensures forall id :: id in ids ==> id in rows && id > after
    ensures Ascending(ids)
  {
    Limit(Select(rows, if after < 0 then 1 else after + 1, next, AnyRow()), limit)
  }

  /** listener_cursor_advance: never back, and touched only by a real advance. */
  function Advance(cursors: map<string, Cursor>, listener: string, last: int, at: int): map<string, Cursor> {
    if listener !in cursors then cursors[listener := Cursor(last, at)]
    else if last > cursors[listener].last then cursors[listener := Cursor(last, at)]
    else cursors
  }

  /** The cursors touched at `cutoff` or later. */
  function ActiveCursors(cursors: map<string, Cursor>, cutoff: int): map<string, Cursor> {
    map l | l in cursors && cursors[l].updatedAt >= cutoff :: cursors[l]
  }

  /** `MIN(last_event_id)`, if there is any cursor. */
  ghost function MinPosition(cursors: map<string, Cursor>): (m: Option<int>)
    ensures m.None? <==> cursors == map[]
    ensures forall l :: l in cursors ==> m.Some? && m.value <= cursors[l].last
    ensures m.Some? ==> exists l :: l in cursors && cursors[l].last == m.value
    decreases |cursors|
  {
    if cursors == map[] then None
    else
      var l :| l in cursors;
      assert |cursors - {l}| < |cursors| by { SmallerWithout(cursors, l); }
      var rest := MinPosition(cursors - {l});
      assert forall k :: k in cursors ==> k == l || k in cursors - {l};
      if rest.Some? && rest.value < cursors[l].last then rest else Some(cursors[l].last)
  }

  const LISTENER_CURSOR_STALE_SECS: int := 3600
  const FAILED_ROW_MAX_AGE_SECS: int := 86400

  /** The prune floor: a query error and no active cursor both mean no floor. */
  ghost function Floor(cursors: map<string, Cursor>, at: int, queryOk: bool): int {
    var m := MinPosition(ActiveCursors(cursors, Clamp(at - LISTENER_CURSOR_STALE_SECS)));
    if queryOk && m.Some? then m.value else I64_MAX
  }

  /** The floor of the operator purge, where stale cursors still count unless
      replication is retired. */
  ghost function PurgeFloor(cursors: map<string, Cursor>, at: int, retired: bool, queryOk: bool): int {
    if retired then Floor(cursors, at, queryOk)
    else
      var m := MinPosition(cursors);
      if queryOk && m.Some? then m.value else I64_MAX
  }

  /** How many of `ids` come before the first failed one. */
  function Handled(ids: seq<nat>, failed: set<nat>): (k: nat)
    ensures k <= |ids| && forall i :: 0 <= i < k ==> ids[i] !in failed
    ensures k < |ids| ==> ids[k] in failed
  {
    if ids == [] || ids[0] in failed then 0 else 1 + Handled(ids[1..], failed)
  }

  /** contiguous_watermark: the last id before the first failed one. */
  function Watermark(ids: seq<nat>, failed: set<nat>, cursor: int): int {
    var k := Handled(ids, failed);
    if k == 0 then cursor else ids[k - 1]
  }
}
