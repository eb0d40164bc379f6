/** What listeners lose when the premise of their theorems fails: the exact rows
    each prune takes, and runs in which an unread row goes. */
module OutboxLosses {
  import opened Common
  import opened Outbox
  import opened OutboxQueries
  import opened OutboxSystem
  import opened OutboxListeners

  // ----------------------------------------------------------- what prunes take

  /** The tick of a disabled dispatcher takes exactly the lowest rows, read or
      not, up to a real floor. */
  lemma DisabledTickTakesExactly(s: Sys, d: nat, cfg: DeliveryConfig, at: int, queryOk: bool, id: nat)
    requires DispatchEnabled(s, d, FloorPrune(at, queryOk)) && id in s.rows
    ensures var floor := Floor(s.cursors, at, queryOk);
            var below := Where(s.rows, UpTo(floor, s.next), AnyRow());
            id !in DoDispatch(s, d, cfg, FloorPrune(at, queryOk)).rows
            <==> floor != I64_MAX && id in below && |Ahead(below, ById(), id)| < Max(cfg.pruneBatch, 1)
  {
    hide Floor, BelowFloor, Where, Ahead;
    FloorPruneTakesLowest(s.rows, s.next, Floor(s.cursors, at, queryOk), Max(cfg.pruneBatch, 1), id);
  }

  /** It takes a row the listener has not read exactly when other, active
      cursors hold the floor above it and the batch reaches that far. */
  lemma DisabledTickTakesUnreadExactlyWhen(s: Sys, d: nat, cfg: DeliveryConfig, at: int, queryOk: bool, l: string, id: nat)
    requires ListenInv(s) && DispatchEnabled(s, d, FloorPrune(at, queryOk)) && l in s.cursors
    requires id in s.rows && id > s.cursors[l].last
    ensures var floor := Floor(s.cursors, at, queryOk);
            var below := Where(s.rows, UpTo(floor, s.next), AnyRow());
            id !in DoDispatch(s, d, cfg, FloorPrune(at, queryOk)).rows
            <==> queryOk && !NoneActive(s.cursors, at) && !Pinned(s.cursors, at, l)
                 && id <= floor && |Ahead(below, ById(), id)| < Max(cfg.pruneBatch, 1)
  {
    hide Floor, DoDispatch, Ahead, Pinned, NoneActive, DrainOk;
    DisabledTickTakesExactly(s, d, cfg, at, queryOk, id);
    NoFloorExactlyWhen(s.cursors, at, queryOk, s.next);
    assert s.cursors[l].last < I64_MAX;
    FloorProtectsExactlyWhenPinned(s.cursors, at, queryOk, l);
  }

  /** The count prune of an active tick takes exactly the surplus up to its
      floor, lowest id first. */
  lemma CountPruneTakesExactly(s: Sys, d: nat, cfg: DeliveryConfig, id: nat)
    requires d in s.dispatchers && s.dispatchers[d].Pruning? && s.dispatchers[d].stage >= 2 && id in s.rows
    ensures var surplus := Surplus(s.rows, s.next, cfg.maxRows, s.dispatchers[d].floor);
            id !in DoPrune(s, d, cfg, true).rows
            <==> id in surplus && |Ahead(surplus, ById(), id)| < cfg.pruneBatch
  {
    hide OverCount, Surplus, Ahead;
    PruneKeepsNewest(s.rows, s.next, cfg.maxRows, cfg.pruneBatch, s.dispatchers[d].floor, id);
  }

  // --------------------------------------------------- a tick that runs through

  /** Some run goes on to deliver and mark everything a tick has claimed. */
  lemma {:induction false} DeliverAll(s: Sys, d: nat, cfg: DeliveryConfig, clock: int) returns (s': Sys)
    requires Reached(s) && d in s.dispatchers && s.dispatchers[d].Working? && s.dispatchers[d].outcome.None?
    requires forall job :: job in s.dispatchers[d].queue ==> job.id in s.rows
    ensures Reached(s') && s'.rows.Keys == s.rows.Keys && s'.next == s.next && s'.cursors == s.cursors
    ensures s'.h.handled == s.h.handled
    ensures d in s'.dispatchers && s'.dispatchers[d] == Working(s.dispatchers[d].at, [], None)
    ensures forall job :: job in s.dispatchers[d].queue ==> s'.rows[job.id].status == Delivered
    ensures forall id :: id in s.rows && s.rows[id].status == Delivered ==> s'.rows[id].status == Delivered
    decreases |s.dispatchers[d].queue|
  {
    hide Reached;
    var w := s.dispatchers[d];
    if w.queue == [] {
      s' := s;
    } else {
      var s1 := DeliverOne(s, d, cfg, clock);
      assert forall job :: job in w.queue ==> job == w.queue[0] || job in w.queue[1..];
      s' := DeliverAll(s1, d, cfg, clock);
    }
  }

  lemma DeliverOne(s: Sys, d: nat, cfg: DeliveryConfig, clock: int) returns (s2: Sys)
    requires Reached(s) && d in s.dispatchers && s.dispatchers[d].Working? && s.dispatchers[d].outcome.None?
    requires s.dispatchers[d].queue != [] && s.dispatchers[d].queue[0].id in s.rows
    ensures var w := s.dispatchers[d];
            && Reached(s2) && s2.next == s.next && s2.cursors == s.cursors && s2.h.handled == s.h.handled
            && s2.rows == MarkDelivered(s.rows, w.queue[0].id, clock)
            && d in s2.dispatchers && s2.dispatchers[d] == Working(w.at, w.queue[1..], None)
  {
    hide Reached;
    var a1 := Dispatcher(d, cfg, DeliverHead([], true));
    ReachNext(s, a1);
    var s1 := Do(s, a1);
    var a2 := Dispatcher(d, cfg, MarkHead(clock, true));
    ReachNext(s1, a2);
    s2 := Do(s1, a2);
  }

  /** A tick that has handled its claims goes on to its count prune. */
  lemma ToCountPrune(s: Sys, d: nat, cfg: DeliveryConfig) returns (s': Sys)
    requires Reached(s) && d in s.dispatchers && s.dispatchers[d].Working? && s.dispatchers[d].queue == []
    requires cfg.retention <= 0
    ensures Reached(s') && s'.next == s.next && s'.cursors == s.cursors && s'.h.handled == s.h.handled
    ensures var w := s.dispatchers[d];
            d in s'.dispatchers && s'.dispatchers[d] == Pruning(w.at, Floor(s.cursors, w.at, true), 2)
    ensures forall id :: id in s.rows && s.rows[id].status == Delivered ==> id in s'.rows && s'.rows[id] == s.rows[id]
  {
    hide Reached, Floor, OldFailed;
    var a1, a2 := Dispatcher(d, cfg, ComputeFloor(true)), Dispatcher(d, cfg, PruneNext(true));
    ReachNext(s, a1);
    var s1 := Do(s, a1);
    ReachNext(s1, a2);
    var s2 := Do(s1, a2);
    ReachNext(s2, a2);
    s' := Do(s2, a2);
  }

  // -------------------------------------------------------------- the idle listener

  const LISTENER: string := "replication"

  const PRUNER: DeliveryConfig := DeliveryConfig(1, 1, 1, 1, 10, 0, 10, 0)

  const EMPTY: Sys := Sys(map[], 1, map[], map[0 := Idle], map[], History({}, map[], map[], map[]))

  /** The cursor of the only listener is seeded at row 1, the newest, at time 0; row
      2 arrives over an hour later. */
  lemma IdleSetup() returns (s: Sys)
    ensures Reached(s) && s.next == 3 && s.cursors == map[LISTENER := Cursor(1, 0)] && s.h.handled == map[]
    ensures s.rows == map[1 := NewRow("a", 0), 2 := NewRow("b", 3999)] && s.dispatchers == map[0 := Idle]
  {
    hide Reached;
    ReachInitial(EMPTY);
    var a0 := InsertEvents([("a", 0)]);
    ReachNext(EMPTY, a0);
    InsertedRows(EMPTY.rows, 1, a0.events);
    var s1 := Do(EMPTY, a0);
    assert s1.rows == map[1 := NewRow("a", 0)];
    var a1 := Seed(LISTENER, 1, 0);
    ReachNext(s1, a1);
    var s2 := Do(s1, a1);
    assert s2.cursors == map[LISTENER := Cursor(1, 0)];
    var a2 := InsertEvents([("b", 3999)]);
    ReachNext(s2, a2);
    InsertedRows(s2.rows, 2, a2.events);
    s := Do(s2, a2);
  }

  lemma IdleClaim(s: Sys) returns (s': Sys)
    requires Reached(s) && s.next == 3 && s.cursors == map[LISTENER := Cursor(1, 0)] && s.h.handled == map[]
    requires s.rows == map[1 := NewRow("a", 0), 2 := NewRow("b", 3999)] && s.dispatchers == map[0 := Idle]
    ensures Reached(s') && s'.next == 3 && s'.cursors == s.cursors && s'.h.handled == map[] && s'.rows.Keys == {1, 2}
    ensures 0 in s'.dispatchers && s'.dispatchers[0].Working? && s'.dispatchers[0].at == 4000
    ensures s'.dispatchers[0].outcome.None?
    ensures (forall job :: job in s'.dispatchers[0].queue ==> job.id in s'.rows)
    ensures exists job :: job in s'.dispatchers[0].queue && job.id == 2
  {
    hide Reached, DueIds, Due;
    var a := Dispatcher(0, PRUNER, Claim(4000, "w"));
    ReachNext(s, a);
    s' := Do(s, a);
    var ids := DueIds(s.rows, 3, 4000, 1, 10);
    ClaimTakesOldestDue(s.rows, 3, 4000, 1, 10, 2);
    var due := Where(s.rows, 3, IsDue(4000, 1));
    assert 2 in due by { NewRowIsDue("b", 3999); }
    FewAhead(due, OccurredAt(s.rows), 2, {1});
    var i :| 0 <= i < |ids| && ids[i] == 2;
    assert s'.dispatchers[0].queue[i].id == 2;
  }

  lemma NewRowIsDue(event: string, occurredAt: int)
    ensures Due(NewRow(event, occurredAt), 4000, 1)
  {
  }

  lemma FewAhead(among: set<nat>, key: nat -> int, id: nat, others: set<nat>)
    requires among <= others + {id}
    ensures |Ahead(among, key, id)| <= |others|
  {
    assert Ahead(among, key, id) <= others;
    var rest := others - Ahead(among, key, id);
    assert others == Ahead(among, key, id) + rest;
  }

  /** A listener whose cursor stands at the newest row, and which then sees no
      event for over an hour, no longer holds the floor. The next event is delivered and pruned
      before the listener has read it, though there is no other listener. */
  lemma IdleListenerLosesEvents() returns (states: seq<Sys>, acts: seq<Action>)
    ensures IsRun(states, acts)
    ensures var s := states[|acts|];
            && s.cursors.Keys == {LISTENER} && s.cursors[LISTENER].last < 2 < s.next
            && 2 !in s.rows && HandledBy(s.h, LISTENER) == {}
  {
    hide Reached, Floor, Do;
    var s := IdleSetup();
    s := IdleClaim(s);
    s := DeliverAll(s, 0, PRUNER, 4000);
    NoneActiveNow();
    s := ToCountPrune(s, 0, PRUNER);
    s := IdlePrune(s);
    states, acts := RunTo(s);
  }

  lemma NoneActiveNow()
    ensures Floor(map[LISTENER := Cursor(1, 0)], 4000, true) == I64_MAX
  {
    assert ActiveCursors(map[LISTENER := Cursor(1, 0)], Clamp(4000 - LISTENER_CURSOR_STALE_SECS)) == map[];
  }

  lemma IdlePrune(s: Sys) returns (s': Sys)
    requires Reached(s) && s.next == 3 && 0 in s.dispatchers && s.dispatchers[0] == Pruning(4000, I64_MAX, 2)
    requires 2 in s.rows && s.rows[2].status == Delivered
    ensures Reached(s') && s'.next == 3 && s'.cursors == s.cursors && s'.h.handled == s.h.handled && 2 !in s'.rows
  {
    hide Reached, Ahead;
    var a := Dispatcher(0, PRUNER, PruneNext(true));
    ReachNext(s, a);
    s' := Do(s, a);
    CountPruneTakesExactly(s, 0, PRUNER, 2);
    FewAhead(Surplus(s.rows, 3, 0, I64_MAX), ById(), 2, {1});
  }

  lemma RunTo(s: Sys) returns (states: seq<Sys>, acts: seq<Action>)
    requires Reached(s)
    ensures IsRun(states, acts) && states[|acts|] == s
  {
    hide Initial, Enabled, Do;
    states, acts :| IsRun(states, acts) && states[|acts|] == s;
  }

  // ------------------------------------------------------------ the late seed

  /** A tick finds the outbox empty and leaves no cursor behind. The event that
      arrives before the next tick is seeded past, and never read. */
  lemma EmptyFirstTickSkipsEvents() returns (states: seq<Sys>, acts: seq<Action>)
    ensures IsRun(states, acts)
    ensures exists i :: 0 <= i < |acts| && acts[i].DrainEnd? && states[i].drains[acts[i].k].listener == LISTENER
    ensures var s := states[|acts|];
            && 1 in s.rows && LISTENER in s.cursors && s.cursors[LISTENER].last == 1
            && HandledBy(s.h, LISTENER) == {} && s.drains == map[]
  {
    hide DoDispatch, DoPurge, DoRequeue, Inserted;
    var s0 := EMPTY;
    var a0, a1, a2 := DrainStart(0, LISTENER), DrainRead(0, 10), DrainEnd(0, {}, 5);
    var s1 := Do(s0, a0);
    var s2 := Do(s1, a1);
    assert s2.drains[0].ids == Some([]);
    var s3 := Do(s2, a2);
    assert s3.drains == map[];
    var a3 := InsertEvents([("a", 7)]);
    InsertedRows(s3.rows, 1, a3.events);
    var s4 := Do(s3, a3);
    var a4 := Seed(LISTENER, 1, 10);
    var s5 := Do(s4, a4);
    states, acts := [s0, s1, s2, s3, s4, s5], [a0, a1, a2, a3, a4];
    assert acts[2].DrainEnd?;
  }
}
