/** Listeners read the outbox by cursor while dispatchers prune it: a listener
    that holds the prune floor down loses no event and skips none. */
module OutboxListeners {
  import opened Common
  import opened Outbox
  import opened OutboxSystem

  // -------------------------------------------------------------- the floor

  /** Some active cursor stands at or below the listener's. */
  ghost predicate Pinned(cursors: map<string, Cursor>, at: int, l: string)
    requires l in cursors
  {
    exists m :: m in cursors && cursors[m].updatedAt >= Clamp(at - LISTENER_CURSOR_STALE_SECS)
                && cursors[m].last <= cursors[l].last
  }

  /** Nobody has moved a cursor lately. */
  ghost predicate NoneActive(cursors: map<string, Cursor>, at: int) {
    ActiveCursors(cursors, Clamp(at - LISTENER_CURSOR_STALE_SECS)) == map[]
  }

  /** Exactly when the computed floor protects everything above the cursor. */
  lemma FloorProtectsExactlyWhenPinned(cursors: map<string, Cursor>, at: int, queryOk: bool, l: string)
    requires l in cursors && cursors[l].last < I64_MAX
    ensures Floor(cursors, at, queryOk) <= cursors[l].last <==> queryOk && Pinned(cursors, at, l)
  {
    var active := ActiveCursors(cursors, Clamp(at - LISTENER_CURSOR_STALE_SECS));
    if Pinned(cursors, at, l) {
      var m :| m in cursors && cursors[m].updatedAt >= Clamp(at - LISTENER_CURSOR_STALE_SECS)
               && cursors[m].last <= cursors[l].last;
      assert m in active;
    }
    if MinPosition(active).Some? && MinPosition(active).value <= cursors[l].last {
      var m :| m in active && active[m].last == MinPosition(active).value;
      assert m in cursors;
    }
  }

  /** An active listener pins the floor for itself. */
  lemma ActiveListenerIsPinned(cursors: map<string, Cursor>, at: int, l: string)
    requires l in cursors && cursors[l].updatedAt >= Clamp(at - LISTENER_CURSOR_STALE_SECS)
    ensures Pinned(cursors, at, l)
  {
  }

  // ------------------------------------------------- cursors and drains

  ghost predicate CursorOk(cursors: map<string, Cursor>, next: nat) {
    forall l :: l in cursors ==> 0 < cursors[l].last < next
  }

  /** What a drain has read: everything still in the table over its range. */
  ghost predicate DrainOk(dr: Drain, rows: Table, next: nat, cursors: map<string, Cursor>) {
    && 0 <= dr.cursor <= CursorOf(cursors, dr.listener)
    && (dr.ids.Some? ==>
          var ids := dr.ids.value;
          && Ascending(ids)
          && (forall id :: id in ids ==> dr.cursor < id < next)
          && (forall i, id :: 0 <= i < |ids| && id in rows && dr.cursor < id <= ids[i] ==> id in ids))
  }

  ghost predicate ListenInv(s: Sys) {
    && IdsInv(s)
    && CursorOk(s.cursors, s.next)
    && forall k :: k in s.drains ==> DrainOk(s.drains[k], s.rows, s.next, s.cursors)
  }

  lemma AdvanceKeeps(cursors: map<string, Cursor>, l: string, last: int, at: int, next: nat)
    requires CursorOk(cursors, next) && 0 < last < next
    ensures CursorOk(Advance(cursors, l, last, at), next)
    ensures forall m :: CursorOf(Advance(cursors, l, last, at), m) >= CursorOf(cursors, m)
    ensures CursorOf(Advance(cursors, l, last, at), l) == Max(CursorOf(cursors, l), last)
  {
  }

  /** Rows leave the table or arrive above everything read. */
  lemma DrainStays(dr: Drain, s: Sys, s': Sys)
    requires DrainOk(dr, s.rows, s.next, s.cursors) && s'.next >= s.next
    requires forall id :: id in s'.rows && id < s.next ==> id in s.rows
    requires CursorOf(s'.cursors, dr.listener) >= CursorOf(s.cursors, dr.listener)
    ensures DrainOk(dr, s'.rows, s'.next, s'.cursors)
  {
    if dr.ids.Some? {
      var ids := dr.ids.value;
      forall i, id | 0 <= i < |ids| && id in s'.rows && dr.cursor < id <= ids[i]
        ensures id in ids
      {
        assert ids[i] in ids;
      }
    }
  }

  lemma ReadIsComplete(rows: Table, next: nat, after: int, limit: nat)
    requires after >= 0 && forall id :: id in rows ==> 1 <= id < next
    ensures var ids := Since(rows, next, after, limit);
            && Ascending(ids)
            && (forall id :: id in ids ==> after < id < next)
            && (forall i, id :: 0 <= i < |ids| && id in rows && after < id <= ids[i] ==> id in ids)
  {
  }

  /** What any step does to rows, ids and cursors. */
  lemma StepEffect(s: Sys, a: Action)
    requires ListenInv(s) && Enabled(s, a)
    ensures var s' := Do(s, a);
            && s'.next >= s.next
            && (forall id :: id in s'.rows && id < s.next ==> id in s.rows)
            && CursorOk(s'.cursors, s'.next)
            && (forall l :: CursorOf(s'.cursors, l) >= CursorOf(s.cursors, l))
  {
    hide DueIds, BelowFloor, Floor, PruneIds, OldDelivered, NextAttemptAfter, AllFailed, Since, Clamp, Max, Advance, DrainOk;
    match a
    case InsertEvents(events) => InsertedRows(s.rows, s.next, events);
    case Seed(l, newest, at) => AdvanceKeeps(s.cursors, l, newest, at, s.next);
    case DrainEnd(k, failed, at) => DrainEndEffect(s, k, failed, at);
    case _ =>
  }

  lemma DrainEndEffect(s: Sys, k: nat, failed: set<nat>, at: int)
    requires ListenInv(s) && k in s.drains && s.drains[k].ids.Some?
    ensures var s' := DoDrainEnd(s, k, failed, at);
            CursorOk(s'.cursors, s.next) && forall l :: CursorOf(s'.cursors, l) >= CursorOf(s.cursors, l)
  {
    var dr := s.drains[k];
    assert DrainOk(dr, s.rows, s.next, s.cursors);
    var w := Watermark(dr.ids.value, failed, dr.cursor);
    if w > dr.cursor {
      assert w in dr.ids.value;
      AdvanceKeeps(s.cursors, dr.listener, w, at, s.next);
    }
  }

  lemma StepKeepsListening(s: Sys, a: Action)
    requires ListenInv(s) && Enabled(s, a)
    ensures ListenInv(Do(s, a))
  {
    hide Do, Ascending, DrainOk, CursorOk;
    var s' := Do(s, a);
    StepEffect(s, a);
    StepKeepsIds(s, a);
    forall k | k in s'.drains
      ensures DrainOk(s'.drains[k], s'.rows, s'.next, s'.cursors)
    {
      if k in s.drains && s'.drains[k] == s.drains[k] {
        DrainStays(s.drains[k], s, s');
      } else {
        NewDrainIsOk(s, a, k);
      }
    }
  }

  lemma NewDrainIsOk(s: Sys, a: Action, k: nat)
    requires ListenInv(s) && Enabled(s, a) && k in Do(s, a).drains
    requires k !in s.drains || Do(s, a).drains[k] != s.drains[k]
    ensures var s' := Do(s, a); DrainOk(s'.drains[k], s'.rows, s'.next, s'.cursors)
  {
    hide DoDispatch, DoPurge, DoRequeue, Inserted, Since;
    if a.DrainStart? {
    } else {
      assert a.DrainRead? && a.k == k;
      assert DrainOk(s.drains[k], s.rows, s.next, s.cursors);
      ReadIsComplete(s.rows, s.next, s.drains[k].cursor, a.limit);
    }
  }

  lemma {:induction false} ListeningAlways(states: seq<Sys>, acts: seq<Action>, i: nat)
    requires IsRun(states, acts) && i < |states|
    ensures ListenInv(states[i])
    decreases i
  {
    if i > 0 {
      hide Do, Enabled, ListenInv;
      ListeningAlways(states, acts, i - 1);
      StepKeepsListening(states[i - 1], acts[i - 1]);
    }
  }

  // ---------------------------------------------------------- nothing is lost

  /** The rows a listener at `s0` may still expect. */
  ghost predicate Expected(s0: Sys, id: nat) {
    id in s0.rows || id >= s0.next
  }

  /** Everything expected above the listener's cursor is there, and no prune in
      progress reaches above it. */
  ghost predicate Guarded(s0: Sys, s: Sys, l: string) {
    && l in s.cursors
    && (forall id: nat :: Expected(s0, id) && s.cursors[l].last < id < s.next ==> id in s.rows)
    && NoPruneAhead(s, l)
  }

  ghost predicate NoPruneAhead(s: Sys, l: string) {
    forall d :: d in s.dispatchers && s.dispatchers[d].Pruning? ==>
      l in s.cursors && s.dispatchers[d].floor <= s.cursors[l].last
  }

  /** The premise: whenever a floor is computed, the query succeeds and some
      active cursor stands at or below the listener's. The tick of a disabled
      dispatcher prunes nothing without a floor, so there no active cursor at all
      will do as well. */
  ghost predicate Attentive(s: Sys, a: Action, l: string)
    requires Enabled(s, a)
  {
    match a
    case Dispatcher(d, _, ComputeFloor(queryOk)) =>
      l in s.cursors ==> queryOk && Pinned(s.cursors, s.dispatchers[d].at, l)
    case Dispatcher(_, _, FloorPrune(at, queryOk)) =>
      l in s.cursors ==> queryOk ==> Pinned(s.cursors, at, l) || NoneActive(s.cursors, at)
    case OperatorPurge(retired, at, queryOk) =>
      l in s.cursors ==> queryOk && (retired ==> Pinned(s.cursors, at, l))
    case _ => true
  }

  /** A dispatcher removes nothing above its floor, and its floor stays below. */
  lemma DispatchGuards(s: Sys, d: nat, cfg: DeliveryConfig, step: DispatchStep, l: string)
    requires ListenInv(s) && DispatchEnabled(s, d, step)
    requires l in s.cursors && NoPruneAhead(s, l)
    requires Attentive(s, Dispatcher(d, cfg, step), l)
    ensures var s' := DoDispatch(s, d, cfg, step);
            && (forall id :: id in s.rows && id > s.cursors[l].last ==> id in s'.rows)
            && NoPruneAhead(s', l)
  {
    hide DueIds, Floor, NextAttemptAfter, Clamp, Max, Pinned, OldDelivered, OldFailed, OverCount, BelowFloor, DrainOk;
    assert s.cursors[l].last < I64_MAX;
    match step
    case ComputeFloor(queryOk) => FloorProtectsExactlyWhenPinned(s.cursors, s.dispatchers[d].at, queryOk, l);
    case FloorPrune(at, queryOk) =>
      FloorProtectsExactlyWhenPinned(s.cursors, at, queryOk, l);
      NoFloorExactlyWhen(s.cursors, at, queryOk, s.next);
    case _ =>
  }

  lemma NoFloorExactlyWhen(cursors: map<string, Cursor>, at: int, queryOk: bool, next: nat)
    requires CursorOk(cursors, next) && next <= I64_MAX
    ensures Floor(cursors, at, queryOk) == I64_MAX <==> !queryOk || NoneActive(cursors, at)
  {
    var active := ActiveCursors(cursors, Clamp(at - LISTENER_CURSOR_STALE_SECS));
    if active != map[] {
      var m :| m in active && active[m].last == MinPosition(active).value;
      assert m in cursors;
    }
  }

  lemma PurgeGuards(s: Sys, retired: bool, at: int, queryOk: bool, l: string)
    requires ListenInv(s) && l in s.cursors
    requires Attentive(s, OperatorPurge(retired, at, queryOk), l)
    ensures forall id :: id in s.rows && id > s.cursors[l].last ==> id in DoPurge(s, retired, at, queryOk).rows
  {
    hide AllFailed, FailedAbove, DrainOk, Floor;
    if retired {
      FloorProtectsExactlyWhenPinned(s.cursors, at, queryOk, l);
    }
  }

  lemma StepGuards(s0: Sys, s: Sys, a: Action, l: string)
    requires ListenInv(s) && Enabled(s, a) && s0.next <= s.next
    requires Guarded(s0, s, l) && Attentive(s, a, l)
    ensures Guarded(s0, Do(s, a), l)
  {
    hide DoDispatch, DoPurge, DrainOk, Since, Handled, Requeue, Attentive, DispatchEnabled, Ascending, NoPruneAhead;
    StepEffect(s, a);
    match a
    case Dispatcher(d, cfg, step) => DispatchGuards(s, d, cfg, step, l);
    case OperatorPurge(retired, at, queryOk) =>
      PurgeGuards(s, retired, at, queryOk, l);
      PrunersStay(s, Do(s, a), l);
    case InsertEvents(events) =>
      InsertedRows(s.rows, s.next, events);
      PrunersStay(s, Do(s, a), l);
    case _ => PrunersStay(s, Do(s, a), l);
  }

  lemma PrunersStay(s: Sys, s': Sys, l: string)
    requires NoPruneAhead(s, l) && s'.dispatchers == s.dispatchers
    requires l in s.cursors ==> l in s'.cursors && s'.cursors[l].last >= s.cursors[l].last
    ensures NoPruneAhead(s', l)
  {
  }

  /** The premise over a stretch of a run. */
  ghost predicate StaysAttentive(states: seq<Sys>, acts: seq<Action>, i: nat, j: nat, l: string)
    requires IsRun(states, acts) && i <= j < |states|
  {
    forall k :: i <= k < j ==> Attentive(states[k], acts[k], l)
  }

  lemma {:induction false} GuardedThroughout(states: seq<Sys>, acts: seq<Action>, i: nat, j: nat, l: string)
    requires IsRun(states, acts) && i <= j < |states|
    requires l in states[i].cursors && NoPruneAhead(states[i], l) && StaysAttentive(states, acts, i, j, l)
    ensures Guarded(states[i], states[j], l) && states[i].next <= states[j].next
    decreases j
  {
    hide Do, Enabled, ListenInv, Attentive, NoPruneAhead;
    ListeningAlways(states, acts, i);
    if i == j {
      OwnRowsExpected(states[i], l);
    } else {
      GuardedThroughout(states, acts, i, j - 1, l);
      ListeningAlways(states, acts, j - 1);
      StepGuards(states[i], states[j - 1], acts[j - 1], l);
      StepEffect(states[j - 1], acts[j - 1]);
    }
  }

  lemma OwnRowsExpected(s: Sys, l: string)
    requires l in s.cursors && NoPruneAhead(s, l)
    ensures Guarded(s, s, l)
  {
  }

  /** Every row that was there, or has been inserted since, and lies above the
      listener's cursor, is still in the table. */
  lemma NoEventIsPruned(states: seq<Sys>, acts: seq<Action>, i: nat, j: nat, l: string, id: nat)
    requires IsRun(states, acts) && i <= j < |states|
    requires l in states[i].cursors && NoPruneAhead(states[i], l) && StaysAttentive(states, acts, i, j, l)
    requires Expected(states[i], id) && id < states[j].next
    ensures l in states[j].cursors
    ensures id > states[j].cursors[l].last ==> id in states[j].rows
  {
    GuardedThroughout(states, acts, i, j, l);
  }

  // --------------------------------------------------------- nothing is skipped

  ghost predicate AllHandled(s0: Sys, s: Sys, l: string, from: int) {
    && l in s.cursors
    && forall id: nat :: Expected(s0, id) && from < id <= s.cursors[l].last ==> id in HandledBy(s.h, l)
  }

  /** A drain that moves the cursor has handled everything it moves over. */
  lemma DrainEndHandles(s0: Sys, s: Sys, k: nat, failed: set<nat>, at: int, l: string, from: int)
    requires ListenInv(s) && k in s.drains && s.drains[k].ids.Some?
    requires Guarded(s0, s, l) && AllHandled(s0, s, l, from)
    ensures AllHandled(s0, DoDrainEnd(s, k, failed, at), l, from)
  {
    hide NoPruneAhead;
    var dr, s' := s.drains[k], DoDrainEnd(s, k, failed, at);
    assert DrainOk(dr, s.rows, s.next, s.cursors);
    var ids := dr.ids.value;
    var n := Handled(ids, failed);
    forall id: nat | Expected(s0, id) && from < id <= s'.cursors[l].last
      ensures id in HandledBy(s'.h, l)
    {
      if id > s.cursors[l].last {
        assert dr.listener == l && n > 0 && id <= ids[n - 1];
        assert ids[n - 1] in ids;
        assert id in s.rows;
        assert id in ids;
        var m :| 0 <= m < |ids| && ids[m] == id;
        assert m <= n - 1;
        assert ids[..n][m] == id;
      }
    }
  }

  lemma StepHandles(s0: Sys, s: Sys, a: Action, l: string, from: int)
    requires ListenInv(s) && Enabled(s, a)
    requires Guarded(s0, s, l) && AllHandled(s0, s, l, from)
    ensures AllHandled(s0, Do(s, a), l, from)
  {
    hide DoDispatch, DoPurge, DoRequeue, DoDrainEnd, Inserted, DrainOk, Since, Guarded, DispatchEnabled, Expected;
    if a.DrainEnd? {
      DrainEndHandles(s0, s, a.k, a.failed, a.at, l, from);
    }
  }

  /** Every row expected at `i` that the cursor has passed since was read and
      handled by the listener. */
  lemma {:induction false} NoEventIsSkipped(states: seq<Sys>, acts: seq<Action>, i: nat, j: nat, l: string)
    requires IsRun(states, acts) && i <= j < |states|
    requires l in states[i].cursors && NoPruneAhead(states[i], l) && StaysAttentive(states, acts, i, j, l)
    ensures AllHandled(states[i], states[j], l, states[i].cursors[l].last)
    ensures states[j].cursors[l].last >= states[i].cursors[l].last
    decreases j
  {
    hide Do, Enabled, ListenInv, Attentive, NoPruneAhead, Guarded;
    if i < j {
      NoEventIsSkipped(states, acts, i, j - 1, l);
      GuardedThroughout(states, acts, i, j - 1, l);
      ListeningAlways(states, acts, j - 1);
      StepHandles(states[i], states[j - 1], acts[j - 1], l, states[i].cursors[l].last);
      StepEffect(states[j - 1], acts[j - 1]);
      assert CursorOf(states[j].cursors, l) >= CursorOf(states[j - 1].cursors, l);
    }
  }

  // ------------------------------------------------------- one listener alone

  /** The only listener can age out: a disabled dispatcher still takes nothing it
      has not read. */
  lemma SoleListenerIsSafeFromFloorPrunes(s: Sys, d: nat, cfg: DeliveryConfig, at: int, queryOk: bool, l: string)
    requires s.cursors.Keys == {l} && DispatchEnabled(s, d, FloorPrune(at, queryOk))
    ensures Attentive(s, Dispatcher(d, cfg, FloorPrune(at, queryOk)), l)
  {
    if s.cursors[l].updatedAt >= Clamp(at - LISTENER_CURSOR_STALE_SECS) {
      ActiveListenerIsPinned(s.cursors, at, l);
    } else {
      assert NoneActive(s.cursors, at);
    }
  }

  // ---------------------------------------------------------- before the cursor

  /** A listener without a cursor has handled nothing. */
  ghost predicate NewHandledNone(s: Sys) {
    forall l :: l !in s.cursors ==> HandledBy(s.h, l) == {}
  }

  lemma StepKeepsNew(s: Sys, a: Action)
    requires ListenInv(s) && Enabled(s, a) && NewHandledNone(s)
    ensures NewHandledNone(Do(s, a))
  {
    hide DoDispatch, DoPurge, DoRequeue, Inserted, Since, DrainOk;
    if a.DrainEnd? {
      var dr := s.drains[a.k];
      assert DrainOk(dr, s.rows, s.next, s.cursors);
      DrainOkRange(dr, s);
      var n := Handled(dr.ids.value, a.failed);
      if n > 0 {
        assert dr.ids.value[n - 1] in dr.ids.value;
      } else {
        assert AsSet(dr.ids.value[..0]) == {};
      }
    }
  }

  lemma DrainOkRange(dr: Drain, s: Sys)
    requires DrainOk(dr, s.rows, s.next, s.cursors) && dr.ids.Some?
    ensures forall id :: id in dr.ids.value ==> dr.cursor < id < s.next
  {
  }

  lemma {:induction false} NewAlways(states: seq<Sys>, acts: seq<Action>, i: nat)
    requires IsRun(states, acts) && i < |states|
    ensures NewHandledNone(states[i])
    decreases i
  {
    if i > 0 {
      hide Do, Enabled, ListenInv, NewHandledNone;
      NewAlways(states, acts, i - 1);
      ListeningAlways(states, acts, i - 1);
      StepKeepsNew(states[i - 1], acts[i - 1]);
    }
  }

  /** In every run a cursor is seeded only for a listener that has none, and the
      seed passes over every row up to it unread. */
  lemma SeedPassesOver(states: seq<Sys>, acts: seq<Action>, i: nat, l: string, newest: nat, at: int)
    requires IsRun(states, acts) && i < |acts| && acts[i] == Seed(l, newest, at)
    ensures l !in states[i].cursors
    ensures l in states[i + 1].cursors && states[i + 1].cursors[l].last == newest
    ensures HandledBy(states[i + 1].h, l) == {}
  {
    hide Do, Enabled;
    ListeningAlways(states, acts, i);
    NewAlways(states, acts, i);
    SeedEffect(states[i], l, newest, at);
    assert states[i + 1] == Do(states[i], acts[i]);
  }

  lemma SeedEffect(s: Sys, l: string, newest: nat, at: int)
    requires ListenInv(s) && Enabled(s, Seed(l, newest, at))
    ensures l !in s.cursors
    ensures Do(s, Seed(l, newest, at)) == s.(cursors := s.cursors[l := Cursor(newest, at)])
  {
  }
}
