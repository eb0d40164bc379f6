/** What dispatchers do to rows over whole runs: which rows they may remove, who
    may claim a row twice, how often a row is tried, and how often it is posted. */
module OutboxDelivery {
  import opened Common
  import opened Outbox
  import opened OutboxSystem

  // --------------------------------------------------------- removing rows

  ghost predicate IsFloorPrune(a: Action) {
    a.Dispatcher? && a.step.FloorPrune?
  }

  /** Rows that are done were resolved at some time. */
  ghost predicate ResolvedInv(s: Sys) {
    forall id :: id in s.rows && (s.rows[id].status == Delivered || s.rows[id].status == Failed) ==> id in s.h.resolved
  }

  /** Every row ever inserted is there or was resolved. */
  ghost predicate NothingLost(s: Sys) {
    forall id: nat :: 1 <= id < s.next ==> id in s.rows || id in s.h.resolved
  }

  lemma DispatchResolves(s: Sys, d: nat, cfg: DeliveryConfig, step: DispatchStep)
    requires IdsInv(s) && ResolvedInv(s) && DispatchEnabled(s, d, step)
    ensures var s' := DoDispatch(s, d, cfg, step);
            && ResolvedInv(s') && s.h.resolved <= s'.h.resolved
            && (!step.FloorPrune? ==> forall id :: id in s.rows && id !in s'.rows ==> id in s.h.resolved)
  {
    hide DueIds, Floor, Delay, Clamp, Max, OldDelivered, OldFailed, OverCount, BelowFloor;
  }

  lemma StepResolves(s: Sys, a: Action)
    requires IdsInv(s) && ResolvedInv(s) && Enabled(s, a)
    ensures var s' := Do(s, a);
            && ResolvedInv(s') && s.h.resolved <= s'.h.resolved
            && (!IsFloorPrune(a) ==> forall id :: id in s.rows && id !in s'.rows ==> id in s.h.resolved)
  {
    hide DoDispatch, DispatchEnabled, AllFailed, FailedAbove, PurgeFloor, Since, Handled;
    if a.Dispatcher? {
      DispatchResolves(s, a.d, a.cfg, a.step);
    } else if a.InsertEvents? {
      InsertedRows(s.rows, s.next, a.events);
      NewRowsArePending(s.rows, s.next, a.events);
    }
  }

  lemma NewRowsArePending(rows: Table, next: nat, events: seq<(string, int)>)
    ensures var t := Inserted(rows, next, events);
            forall id: nat :: next <= id < next + |events| ==> id in t && t[id].status == Pending && t[id].attempts == 0
  {
    InsertedRows(rows, next, events);
    var t := Inserted(rows, next, events);
    forall id: nat | next <= id < next + |events|
      ensures id in t && t[id].status == Pending && t[id].attempts == 0
    {
      assert t[next + (id - next)] == NewRow(events[id - next].0, events[id - next].1);
    }
  }

  lemma {:induction false} ResolvedAlways(states: seq<Sys>, acts: seq<Action>, i: nat)
    requires IsRun(states, acts) && i < |states|
    ensures ResolvedInv(states[i])
    decreases i
  {
    if i > 0 {
      hide Do, Enabled, ResolvedInv;
      ResolvedAlways(states, acts, i - 1);
      IdsAlways(states, acts, i - 1);
      StepResolves(states[i - 1], acts[i - 1]);
    }
  }

  /** The floor a step deletes under. */
  ghost function DeletionFloor(s: Sys, a: Action): int {
    if a.Dispatcher? && a.d in s.dispatchers && s.dispatchers[a.d].Pruning? then s.dispatchers[a.d].floor
    else if a.OperatorPurge? then PurgeFloor(s.cursors, a.at, a.retired, a.queryOk)
    else 0
  }

  lemma StepRemovesDoneRows(s: Sys, a: Action, id: nat)
    requires IdsInv(s) && Enabled(s, a) && !IsFloorPrune(a)
    requires id in s.rows && id !in Do(s, a).rows
    ensures s.rows[id].status == Delivered || s.rows[id].status == Failed
    ensures id <= DeletionFloor(s, a)
    ensures a.OperatorPurge? ==> s.rows[id].status == Failed
  {
    hide DueIds, Floor, Delay, Clamp, Max, PurgeFloor, OldDelivered, OldFailed, OverCount, AllFailed, FailedAbove;
    if a.InsertEvents? {
      InsertedRows(s.rows, s.next, a.events);
    }
  }

  /** In any run, a step other than a disabled dispatcher's floor prune removes
      only rows that are delivered, or failed for good, at or below its floor. */
  lemma OnlyDoneRowsAreRemoved(states: seq<Sys>, acts: seq<Action>, i: nat, id: nat)
    requires IsRun(states, acts) && i < |acts| && !IsFloorPrune(acts[i])
    requires id in states[i].rows && id !in states[i + 1].rows
    ensures states[i].rows[id].status == Delivered || states[i].rows[id].status == Failed
    ensures id in states[i].h.resolved && id <= DeletionFloor(states[i], acts[i])
  {
    hide Do, Enabled, DeletionFloor;
    IdsAlways(states, acts, i);
    ResolvedAlways(states, acts, i);
    StepRemovesDoneRows(states[i], acts[i], id);
  }

  /** While every tick is an active one, no row is lost before it is resolved. */
  lemma {:induction false} NothingUnresolvedIsLost(states: seq<Sys>, acts: seq<Action>, i: nat)
    requires IsRun(states, acts) && i < |states|
    requires forall k :: 0 <= k < i ==> !IsFloorPrune(acts[k])
    ensures NothingLost(states[i])
    decreases i
  {
    if i > 0 {
      hide Do, Enabled, ResolvedInv, IsFloorPrune;
      NothingUnresolvedIsLost(states, acts, i - 1);
      IdsAlways(states, acts, i - 1);
      ResolvedAlways(states, acts, i - 1);
      StepResolves(states[i - 1], acts[i - 1]);
      NewIdsArePresent(states[i - 1], acts[i - 1]);
    }
  }

  lemma NewIdsArePresent(s: Sys, a: Action)
    requires Enabled(s, a)
    ensures forall id: nat :: s.next <= id < Do(s, a).next ==> id in Do(s, a).rows
  {
    hide DoDispatch, DoPurge, DoRequeue, DispatchEnabled;
    if a.InsertEvents? {
      InsertedRows(s.rows, s.next, a.events);
    }
  }

  /** The floor of a tick in its prune phase is the one it computed, from the
      cursors as they then were. */
  ghost predicate ComputedBefore(states: seq<Sys>, acts: seq<Action>, i: nat, d: nat, floor: int)
    requires |states| == |acts| + 1 && i < |states|
  {
    exists k, cfg, queryOk :: 0 <= k < i && acts[k] == Dispatcher(d, cfg, ComputeFloor(queryOk))
      && d in states[k].dispatchers && states[k].dispatchers[d].Working?
      && floor == Floor(states[k].cursors, states[k].dispatchers[d].at, queryOk)
  }

  lemma {:induction false} FloorsWereComputed(states: seq<Sys>, acts: seq<Action>, i: nat, d: nat)
    requires IsRun(states, acts) && i < |states|
    requires d in states[i].dispatchers && states[i].dispatchers[d].Pruning?
    ensures ComputedBefore(states, acts, i, d, states[i].dispatchers[d].floor)
    decreases i
  {
    if i > 0 {
      FloorStep(states[i - 1], acts[i - 1], d);
      var s := states[i - 1];
      if d in s.dispatchers && s.dispatchers[d].Pruning? && s.dispatchers[d].floor == states[i].dispatchers[d].floor {
        FloorsWereComputed(states, acts, i - 1, d);
        var k, cfg, queryOk :| 0 <= k < i - 1 && acts[k] == Dispatcher(d, cfg, ComputeFloor(queryOk))
          && d in states[k].dispatchers && states[k].dispatchers[d].Working?
          && states[i - 1].dispatchers[d].floor == Floor(states[k].cursors, states[k].dispatchers[d].at, queryOk);
      } else {
        var cfg, queryOk :| acts[i - 1] == Dispatcher(d, cfg, ComputeFloor(queryOk))
          && s.dispatchers[d].Working? && states[i].dispatchers[d].floor == Floor(s.cursors, s.dispatchers[d].at, queryOk);
      }
    }
  }

  lemma FloorStep(s: Sys, a: Action, d: nat)
    requires Enabled(s, a) && d in Do(s, a).dispatchers && Do(s, a).dispatchers[d].Pruning?
    ensures d in s.dispatchers
    ensures || (s.dispatchers[d].Pruning? && s.dispatchers[d].floor == Do(s, a).dispatchers[d].floor)
            || (exists cfg, queryOk :: a == Dispatcher(d, cfg, ComputeFloor(queryOk)) && s.dispatchers[d].Working?
                  && Do(s, a).dispatchers[d].floor == Floor(s.cursors, s.dispatchers[d].at, queryOk))
  {
    hide DueIds, Floor, Delay, Clamp, Max, PurgeFloor, OldDelivered, OldFailed, OverCount, AllFailed, FailedAbove;
    if a.Dispatcher? && a.d == d && a.step.ComputeFloor? {
      assert a == Dispatcher(d, a.cfg, ComputeFloor(a.step.queryOk));
    }
  }
}
