/** When a row may be tried, again or at last: a failed attempt waits for its
    delay and no longer, a requeued row is due at once, a row is given up only
    after its attempts, and fresh rows outlive the prunes. */
module OutboxWaits {
  import opened Common
  import opened Outbox
  import opened OutboxQueries
  import opened OutboxSystem
  import opened OutboxAttempts

  // -------------------------------------------------------------------- due

  /** A claim may take a pending row once its time has come, and a row in progress
      once its claim is stale; never any other. */
  lemma DueExactlyWhen(row: Row, at: int, stale: i64)
    requires 0 <= at <= I64_MAX
    ensures Due(row, at, stale) <==>
              match row.status
              case Pending => row.nextAttemptAt.Some? ==> at >= row.nextAttemptAt.value
              case InProgress => row.claimedAt.Some? && at >= row.claimedAt.value + Max(1, stale)
              case _ => false
  {
  }

  // ---------------------------------------------------------------- retries

  /** The step marks an attempt at row `id` as failed, with attempts left. */
  ghost predicate FailsForRetry(s: Sys, a: Action, id: nat) {
    && a.Dispatcher? && a.step.MarkHead? && a.step.written && DispatchEnabled(s, a.d, a.step)
    && var w := s.dispatchers[a.d];
       && w.queue[0].id == id && id in s.rows && w.outcome == Some(false)
       && w.queue[0].attempts < Max(a.cfg.maxAttempts, 1)
  }

  ghost function DelayOf(s: Sys, a: Action): nat
    requires a.Dispatcher? && a.step.MarkHead? && DispatchEnabled(s, a.d, a.step)
  {
    Delay(a.cfg, s.dispatchers[a.d].queue[0].attempts)
  }

  /** The time of the tick plus the delay, or the end of time. */
  ghost function RetryAt(s: Sys, a: Action): int
    requires a.Dispatcher? && a.step.MarkHead? && DispatchEnabled(s, a.d, a.step)
  {
    Min(s.dispatchers[a.d].at + DelayOf(s, a), I64_MAX)
  }

  /** The retry time lies before the tick exactly when the delay is too long for a
      signed 64-bit number. */
  lemma RetryLiesAheadExactlyWhenItFits(cfg: DeliveryConfig, attempts: nat, at: int)
    requires 0 <= at <= I64_MAX && cfg.retryMax <= U64_MAX && attempts < Max(cfg.maxAttempts, 1)
    ensures var t := NextAttemptAfter(cfg, attempts, at);
            && t.Some? && (t.value >= at <==> Delay(cfg, attempts) <= I64_MAX)
            && (Delay(cfg, attempts) <= I64_MAX ==> t.value == Min(at + Delay(cfg, attempts), I64_MAX))
  {
    hide Pow2, SaturatingMul;
  }

  /** There is a next attempt exactly when fewer were made than are allowed. */
  lemma GivesUpExactlyAfterAllowed(cfg: DeliveryConfig, attempts: nat, at: int)
    ensures NextAttemptAfter(cfg, attempts, at).None? <==> attempts >= Max(cfg.maxAttempts, 1)
  {
  }

  /** The row waits for `t`, or is gone. */
  ghost predicate WaitsUntil(s: Sys, id: nat, t: int) {
    id < s.next && (id in s.rows ==> s.rows[id].status == Pending && s.rows[id].nextAttemptAt == Some(t))
  }

  lemma FailureWaits(s: Sys, a: Action, id: nat)
    requires IdsInv(s) && FailsForRetry(s, a, id) && Enabled(s, a)
    requires 0 <= s.dispatchers[a.d].at <= I64_MAX && DelayOf(s, a) <= I64_MAX
    ensures WaitsUntil(Do(s, a), id, RetryAt(s, a))
  {
    hide Delay;
  }

  lemma WaitStays(s: Sys, a: Action, id: nat, t: int)
    requires IdsInv(s) && Enabled(s, a) && WaitsUntil(s, id, t) && !MarksRow(s, a, id) && !ClaimsRow(s, a, id)
    ensures WaitsUntil(Do(s, a), id, t)
  {
    hide DueIds, Floor, Delay, PurgeFloor, OldDelivered, OldFailed, OverCount, AllFailed, FailedAbove, BelowFloor,
      NextAttemptAfter, Since, Handled;
    if a.InsertEvents? {
      InsertedRows(s.rows, s.next, a.events);
    }
  }

  lemma {:induction false} WaitLasts(states: seq<Sys>, acts: seq<Action>, i: nat, j: nat, id: nat, t: int)
    requires IsRun(states, acts) && i <= j < |states| && WaitsUntil(states[i], id, t)
    requires forall k :: i <= k < j ==> !MarksRow(states[k], acts[k], id) && !ClaimsRow(states[k], acts[k], id)
    ensures WaitsUntil(states[j], id, t)
    decreases j
  {
    hide Do, Enabled, MarksRow, ClaimsRow, WaitsUntil;
    if i < j {
      WaitLasts(states, acts, i, j - 1, id, t);
      IdsAlways(states, acts, j - 1);
      WaitStays(states[j - 1], acts[j - 1], id, t);
    }
  }

  /** Dispatchers work with the time of their claim. */
  ghost predicate TicksInv(s: Sys) {
    forall d :: d in s.dispatchers && s.dispatchers[d].Working? ==> 0 <= s.dispatchers[d].at <= I64_MAX
  }

  lemma {:induction false} TicksAlways(states: seq<Sys>, acts: seq<Action>, i: nat)
    requires IsRun(states, acts) && i < |states|
    ensures TicksInv(states[i])
    decreases i
  {
    if i > 0 {
      TicksAlways(states, acts, i - 1);
      TicksStep(states[i - 1], acts[i - 1]);
    }
  }

  lemma TicksStep(s: Sys, a: Action)
    requires TicksInv(s) && Enabled(s, a)
    ensures TicksInv(Do(s, a))
  {
    hide DueIds, Floor, PruneIds, BelowFloor, NextAttemptAfter, Since, Handled, Inserted, Marked;
  }

  /** From a failed attempt until the row's next mark or claim, the row, if it is
      still there, is due exactly from the tick's time plus the delay on, if that
      delay fits. */
  lemma RetryIsDueExactlyFrom(states: seq<Sys>, acts: seq<Action>, i: nat, j: nat, id: nat, at: int, stale: i64)
    requires IsRun(states, acts) && i < j < |states| && FailsForRetry(states[i], acts[i], id)
    requires DelayOf(states[i], acts[i]) <= I64_MAX && 0 <= at <= I64_MAX
    requires forall k :: i < k < j ==> !MarksRow(states[k], acts[k], id) && !ClaimsRow(states[k], acts[k], id)
    ensures id in states[j].rows ==> (Due(states[j].rows[id], at, stale) <==> at >= RetryAt(states[i], acts[i]))
  {
    hide Do, MarksRow, ClaimsRow, Delay, Due;
    IdsAlways(states, acts, i);
    TicksAlways(states, acts, i);
    assert Enabled(states[i], acts[i]) && states[i + 1] == Do(states[i], acts[i]);
    FailureWaits(states[i], acts[i], id);
    WaitLasts(states, acts, i + 1, j, id, RetryAt(states[i], acts[i]));
    if id in states[j].rows {
      DueExactlyWhen(states[j].rows[id], at, stale);
    }
  }

  /** The next claim of a row after a failed attempt is made no earlier than the
      delay demands, whoever makes it. */
  lemma RetriesWait(states: seq<Sys>, acts: seq<Action>, i: nat, j: nat, id: nat)
    requires IsRun(states, acts) && i < j < |acts| && FailsForRetry(states[i], acts[i], id)
    requires DelayOf(states[i], acts[i]) <= I64_MAX && ClaimsRow(states[j], acts[j], id)
    requires forall k :: i < k < j ==> !MarksRow(states[k], acts[k], id) && !ClaimsRow(states[k], acts[k], id)
    ensures acts[j].step.at >= RetryAt(states[i], acts[i])
  {
    hide Do, MarksRow, DueIds, Due;
    assert Enabled(states[j], acts[j]);
    RetryIsDueExactlyFrom(states, acts, i, j, id, acts[j].step.at, acts[j].cfg.staleAfter);
  }

  // -------------------------------------------------------------- requeueing

  /** A requeue makes exactly the failed rows among the ids pending, due from that
      moment on and with the attempts they had; it touches no other row. */
  lemma RequeuedIsDueAtOnce(s: Sys, ids: set<nat>, at: int, id: nat, later: int, stale: i64)
    requires id in s.rows && 0 <= later <= I64_MAX
    ensures var rows' := DoRequeue(s, ids, at).rows;
            && id in rows'
            && (id in ids && s.rows[id].status == Failed ==>
                  && rows'[id].status == Pending && rows'[id].attempts == s.rows[id].attempts
                  && rows'[id].event == s.rows[id].event && rows'[id].occurredAt == s.rows[id].occurredAt
                  && (Due(rows'[id], later, stale) <==> later >= at))
            && (!(id in ids && s.rows[id].status == Failed) ==> rows'[id] == s.rows[id])
  {
  }

  // ------------------------------------------------------------------ claims

  /** A claim takes at most 500 rows, and at most the batch if that is positive. */
  lemma ClaimIsBounded(s: Sys, d: nat, cfg: DeliveryConfig, at: int, claimant: string)
    ensures var w := DoClaim(s, d, cfg, at, claimant).dispatchers[d];
            w.Working? && |w.queue| <= 500 && (cfg.batch > 0 ==> |w.queue| <= cfg.batch) && (cfg.batch == 0 ==> |w.queue| <= 1)
  {
  }

  // ------------------------------------------------------------------- purge

  /** An operator purge removes every failed row, or changes nothing because a
      failed row lies above the floor. */
  lemma PurgeTakesAllFailedOrNothing(s: Sys, retired: bool, at: int, queryOk: bool)
    requires IdsInv(s)
    ensures var s', floor := DoPurge(s, retired, at, queryOk), PurgeFloor(s.cursors, at, retired, queryOk);
            if exists id :: id in s.rows && s.rows[id].status == Failed && id > floor then s' == s
            else forall id :: id in s'.rows <==> id in s.rows && s.rows[id].status != Failed
  {
    hide PurgeFloor;
    var floor := PurgeFloor(s.cursors, at, retired, queryOk);
    var above := FailedAbove(s.rows, s.next, floor);
    if id :| id in s.rows && s.rows[id].status == Failed && id > floor {
      assert id in above;
    }
    assert above != [] ==> above[0] in above;
  }

  // ------------------------------------------------------------------ prunes

  /** What the prunes of an active tick leave: delivered rows within the retention,
      and failed rows within a day or the retention, if that is longer. */
  lemma FreshRowsOutliveTicks(s: Sys, d: nat, cfg: DeliveryConfig, id: nat)
    requires d in s.dispatchers && s.dispatchers[d].Pruning? && id in s.rows
    requires 0 <= s.dispatchers[d].at <= I64_MAX && I64_MIN <= cfg.retention <= I64_MAX
    ensures var w, row := s.dispatchers[d], s.rows[id];
            id !in DoPrune(s, d, cfg, true).rows ==>
              && id <= w.floor
              && (w.stage == 0 ==> cfg.retention > 0 && row.status == Delivered && row.deliveredAt.Some?
                                   && w.at - row.deliveredAt.value > cfg.retention)
              && (w.stage == 1 ==> row.status == Failed && w.at - row.occurredAt > 86400 && w.at - row.occurredAt > cfg.retention)
              && (w.stage >= 2 ==> row.status == Delivered)
  {
    hide OldDelivered, OldFailed, OverCount;
  }

  // ------------------------------------------------------------------- drains

  /** At the end of a drain the cursor stands at the last row read before the first
      failed one, or where it was if that is further. */
  lemma DrainAdvancesOverHandled(s: Sys, k: nat, failed: set<nat>, at: int, n: nat)
    requires k in s.drains && s.drains[k].ids.Some? && Ascending(s.drains[k].ids.value)
    requires forall id :: id in s.drains[k].ids.value ==> id > s.drains[k].cursor
    requires n <= |s.drains[k].ids.value| && (forall i :: 0 <= i < n ==> s.drains[k].ids.value[i] !in failed)
    requires n < |s.drains[k].ids.value| ==> s.drains[k].ids.value[n] in failed
    ensures var dr, cursors' := s.drains[k], DoDrainEnd(s, k, failed, at).cursors;
            && (n == 0 ==> cursors' == s.cursors)
            && (n > 0 ==> CursorOf(cursors', dr.listener) == Max(CursorOf(s.cursors, dr.listener), dr.ids.value[n - 1]))
            && (n > 0 && dr.ids.value[n - 1] > CursorOf(s.cursors, dr.listener) ==>
                  dr.listener in cursors' && cursors'[dr.listener].updatedAt == at)
            && (forall l :: l != dr.listener ==> CursorOf(cursors', l) == CursorOf(s.cursors, l))
  {
    var ids := s.drains[k].ids.value;
    var h := Handled(ids, failed);
    assert h == n;
    if n > 0 {
      assert ids[n - 1] in ids;
    }
  }

  /** Only a real advance touches a cursor; one that stands still ages. */
  lemma IdleAdvanceTouchesNothing(cursors: map<string, Cursor>, l: string, last: int, at: int)
    requires l in cursors && last <= cursors[l].last
    ensures Advance(cursors, l, last, at) == cursors
  {
  }

  // ----------------------------------------------------------------- delivery

  /** A row marked delivered carries the time of that mark, and is due never again. */
  lemma DeliveryIsStamped(s: Sys, d: nat, cfg: DeliveryConfig, at: int, later: int, stale: i64)
    requires DispatchEnabled(s, d, MarkHead(at, true)) && s.dispatchers[d].outcome == Some(true)
    requires s.dispatchers[d].queue[0].id in s.rows && 0 <= later <= I64_MAX
    ensures var id := s.dispatchers[d].queue[0].id;
            var row := DoMark(s, d, cfg, at, true).rows[id];
            && row.status == Delivered && row.deliveredAt == Some(at) && row.attempts == s.rows[id].attempts
            && !Due(row, later, stale)
  {
  }
}
