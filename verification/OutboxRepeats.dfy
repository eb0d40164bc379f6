/** What happens to a row without the premise that its attempts are made by one
    dispatcher that survives them: it can be tried, and posted, again. */
module OutboxRepeats {
  import opened Common
  import opened Outbox
  import opened OutboxQueries
  import opened OutboxSystem
  import opened OutboxSole

  /** A row left in progress, by a tick that died or a mark that did not reach the
      table, is due again exactly when its claim has outlived the stale window,
      whatever was posted meanwhile. */
  lemma StrandedIsDueExactlyWhenStale(row: Row, claimedAt: int, at: int, stale: i64)
    requires row.status == InProgress && row.claimedAt == Some(claimedAt) && 0 <= at <= I64_MAX
    ensures Due(row, at, stale) <==> at >= claimedAt + Max(1, stale)
  {
  }

  /** After a tick has died, the next claim takes its row, whatever it has posted
      by then, exactly when the claim is stale and fewer older rows are due than
      the batch holds. */
  lemma DeadTickIsRepeatedExactlyWhenStale(s: Sys, d: nat, cfg: DeliveryConfig, id: nat, claimedAt: int, at: int, limit: nat)
    requires IdsInv(s) && DispatchEnabled(s, d, Abandon) && 0 <= at <= I64_MAX
    requires id in s.rows && s.rows[id].status == InProgress && s.rows[id].claimedAt == Some(claimedAt)
    ensures var s' := DoDispatch(s, d, cfg, Abandon);
            var due := Where(s'.rows, s'.next, IsDue(at, cfg.staleAfter));
            && s'.h.posts == s.h.posts && s'.dispatchers[d] == Idle
            && (id in DueIds(s'.rows, s'.next, at, cfg.staleAfter, limit)
                <==> at >= claimedAt + Max(1, cfg.staleAfter) && |Ahead(due, OccurredAt(s'.rows), id)| < limit)
  {
    hide Due, Ahead, DueIds;
    ClaimTakesOldestDue(s.rows, s.next, at, cfg.staleAfter, limit, id);
    StrandedIsDueExactlyWhenStale(s.rows[id], claimedAt, at, cfg.staleAfter);
  }

  /** A mark goes by the outcome alone: after it a row is delivered exactly when
      this attempt succeeded, even if another attempt had delivered it before. */
  lemma MarkOverrules(s: Sys, d: nat, cfg: DeliveryConfig, at: int)
    requires DispatchEnabled(s, d, MarkHead(at, true)) && s.dispatchers[d].queue[0].id in s.rows
    ensures var job, ok := s.dispatchers[d].queue[0], s.dispatchers[d].outcome.value;
            var row := DoMark(s, d, cfg, at, true).rows[job.id];
            && (row.status == Delivered <==> ok)
            && (row.status == Pending <==> !ok && job.attempts < Max(cfg.maxAttempts, 1))
  {
  }

  // -------------------------------------------------------- runs with one event

  datatype Run = Run(states: seq<Sys>, acts: seq<Action>)

  /** A run over one event, whose row ends up as `row`. */
  ghost predicate OneRow(r: Run, row: Row) {
    |r.states| == |r.acts| + 1 && IsRun(r.states, r.acts) && End(r).rows == map[1 := row] && End(r).next == 2
  }

  ghost function End(r: Run): Sys
    requires |r.states| == |r.acts| + 1
  {
    r.states[|r.acts|]
  }

  lemma Extend(r: Run, a: Action) returns (r': Run)
    requires IsRun(r.states, r.acts) && Enabled(End(r), a)
    ensures |r'.states| == |r'.acts| + 1 && IsRun(r'.states, r'.acts)
    ensures r.states <= r'.states && r'.acts == r.acts + [a] && End(r') == Do(End(r), a)
  {
    hide Initial, Enabled, Do;
    r' := Run(r.states + [Do(End(r), a)], r.acts + [a]);
    forall i | 0 <= i < |r'.acts|
      ensures Enabled(r'.states[i], r'.acts[i]) && r'.states[i + 1] == Do(r'.states[i], r'.acts[i])
    {
      if i < |r.acts| {
        assert Enabled(r.states[i], r.acts[i]) && r.states[i + 1] == Do(r.states[i], r.acts[i]);
      }
    }
  }

  const INSERT: Action := InsertEvents([("e", 0)])

  lemma OneEvent(dispatchers: map<nat, Dispatch>) returns (r: Run)
    requires forall d :: d in dispatchers ==> dispatchers[d] == Idle
    ensures OneRow(r, NewRow("e", 0)) && r.acts == [INSERT] && End(r).dispatchers == dispatchers
    ensures End(r).h == History({}, map[], map[], map[])
  {
    var s0 := Sys(map[], 1, map[], dispatchers, map[], History({}, map[], map[], map[]));
    r := Extend(Run([s0], []), INSERT);
    InsertedRows(s0.rows, 1, INSERT.events);
  }

  lemma OnlyRowIsTaken(row: Row, at: int, stale: int, limit: nat)
    requires Due(row, at, stale) && limit > 0
    ensures DueIds(map[1 := row], 2, at, stale, limit) == [1]
  {
    hide Due;
    var rows := map[1 := row];
    assert Select(rows, 2, 2, IsDue(at, stale)) == [];
    assert Select(rows, 1, 2, IsDue(at, stale)) == [1];
    assert OrderBy([1], OccurredAt(rows)) == [1];
  }

  lemma ClaimIt(r: Run, row: Row, d: nat, cfg: DeliveryConfig, at: int) returns (r': Run)
    requires OneRow(r, row) && Due(row, at, cfg.staleAfter) && 0 <= at <= I64_MAX
    requires d in End(r).dispatchers && End(r).dispatchers[d] == Idle
    ensures OneRow(r', ClaimRow(row, "w", at)) && End(r').h == End(r).h
    ensures r'.acts == r.acts + [Dispatcher(d, cfg, Claim(at, "w"))]
    ensures End(r').dispatchers == End(r).dispatchers[d := Working(at, [Job(1, row.attempts + 1)], None)]
  {
    hide IsRun, DueIds, Due;
    r' := Extend(r, Dispatcher(d, cfg, Claim(at, "w")));
    OnlyRowIsTaken(row, at, cfg.staleAfter, Max(1, Min(cfg.batch, 500)));
    assert AsSet([1]) == {1};
    assert ClaimAll(End(r).rows, {1}, "w", at) == map[1 := ClaimRow(row, "w", at)];
    assert Jobs(End(r).rows, [1]) == [Job(1, row.attempts + 1)];
  }

  /** The dispatcher is busy with the row and nothing else. */
  ghost predicate AtIt(r: Run, d: nat, outcome: Option<bool>, attempts: nat, at: int)
    requires |r.states| == |r.acts| + 1
  {
    d in End(r).dispatchers && End(r).dispatchers[d] == Working(at, [Job(1, attempts)], outcome)
  }

  lemma PostIt(r: Run, row: Row, d: nat, cfg: DeliveryConfig, posts: seq<Post>, attempts: nat, at: int) returns (r': Run)
    requires OneRow(r, row) && AtIt(r, d, None, attempts, at) && posts != [] && DistinctChannels(posts)
    ensures OneRow(r', row) && r.states <= r'.states
    ensures r'.acts == r.acts + [Dispatcher(d, cfg, DeliverHead(posts, AnyOk(posts)))]
    ensures End(r').dispatchers == End(r).dispatchers[d := Working(at, [Job(1, attempts)], Some(AnyOk(posts)))]
    ensures PostsOf(End(r').h.posts, 1) == PostsOf(End(r).h.posts, 1) + Posted(posts)
    ensures End(r').h.requeues == End(r).h.requeues
  {
    hide IsRun, Posted, AnyOk;
    r' := Extend(r, Dispatcher(d, cfg, DeliverHead(posts, AnyOk(posts))));
  }

  lemma MarkIt(r: Run, row: Row, d: nat, cfg: DeliveryConfig, ok: bool, attempts: nat, at: int, written: bool)
    returns (r': Run)
    requires OneRow(r, row) && AtIt(r, d, Some(ok), attempts, at)
    ensures var marked := Marked(map[1 := row], cfg, Job(1, attempts), at, ok, at);
            1 in marked && OneRow(r', if written then marked[1] else row)
    ensures r.states <= r'.states && r'.acts == r.acts + [Dispatcher(d, cfg, MarkHead(at, written))]
    ensures End(r').dispatchers == End(r).dispatchers[d := Working(at, [], None)]
    ensures End(r').h.posts == End(r).h.posts && End(r').h.requeues == End(r).h.requeues
  {
    hide IsRun, NextAttemptAfter;
    r' := Extend(r, Dispatcher(d, cfg, MarkHead(at, written)));
    assert [Job(1, attempts)][1..] == [];
  }

  /** A tick without prunes to make comes to its end. */
  lemma EndTick(r: Run, row: Row, d: nat, cfg: DeliveryConfig, at: int) returns (r': Run)
    requires OneRow(r, row) && d in End(r).dispatchers && End(r).dispatchers[d] == Working(at, [], None)
    ensures OneRow(r', row) && End(r').dispatchers == End(r).dispatchers[d := Idle] && End(r').h == End(r).h
    ensures var prune := Dispatcher(d, cfg, PruneNext(false));
            r'.acts == r.acts + [Dispatcher(d, cfg, ComputeFloor(true))] + [prune] + [prune] + [prune]
  {
    hide IsRun, Floor;
    var prune := Dispatcher(d, cfg, PruneNext(false));
    r' := Extend(r, Dispatcher(d, cfg, ComputeFloor(true)));
    r' := Extend(r', prune);
    r' := Extend(r', prune);
    r' := Extend(r', prune);
    assert End(r').dispatchers == End(r).dispatchers[d := Idle];
  }

  const TRY: DeliveryConfig := DeliveryConfig(3, 1, 1, 1, 1, 0, 1, 0)

  lemma PostedTo(channel: string)
    ensures Posted([(channel, true)]) == [channel] && AnyOk([(channel, true)])
    ensures Posted([(channel, false)]) == [] && !AnyOk([(channel, false)])
    ensures DistinctChannels([(channel, true)]) && DistinctChannels([(channel, false)])
  {
    assert [(channel, true)][0].1;
  }

  /** The only dispatcher dies after a post, before its mark; when the claim has
      gone stale the next tick posts to the same channel again. */
  lemma DeadTickPostsTwice() returns (r: Run)
    ensures IsRun(r.states, r.acts) && |r.acts| > 3 && r.acts[3] == Dispatcher(0, TRY, Abandon)
    ensures forall i :: 0 <= i < |r.acts| && i != 3 ==> Sole(r.acts[i], 0, TRY)
    ensures PostsOf(End(r).h.posts, 1) == ["c", "c"]
  {
    hide IsRun, Posted, AnyOk, Due, DistinctChannels;
    PostedTo("c");
    var new' := NewRow("e", 0);
    r := OneEvent(map[0 := Idle]);
    assert Due(new', 0, 1) by { NewIsDue(0); }
    r := ClaimIt(r, new', 0, TRY, 0);
    var held := ClaimRow(new', "w", 0);
    r := PostIt(r, held, 0, TRY, [("c", true)], 1, 0);
    r := StopIt(r, held, 0, TRY);
    StrandedIsDueExactlyWhenStale(held, 0, 1, 1);
    r := ClaimIt(r, held, 0, TRY, 1);
    r := PostIt(r, ClaimRow(held, "w", 1), 0, TRY, [("c", true)], 2, 1);
  }

  lemma NewIsDue(at: int)
    ensures Due(NewRow("e", 0), at, 1)
  {
  }

  lemma StopIt(r: Run, row: Row, d: nat, cfg: DeliveryConfig) returns (r': Run)
    requires OneRow(r, row) && d in End(r).dispatchers
    ensures OneRow(r', row) && r'.acts == r.acts + [Dispatcher(d, cfg, Abandon)]
    ensures End(r').dispatchers == End(r).dispatchers[d := Idle] && End(r').h == End(r).h
  {
    hide IsRun;
    r' := Extend(r, Dispatcher(d, cfg, Abandon));
  }

  /** The mark of a delivered row does not reach the table; the row goes stale and
      the next tick posts it again. */
  lemma LostMarkPostsTwice() returns (r: Run)
    ensures IsRun(r.states, r.acts) && |r.acts| > 3 && r.acts[3] == Dispatcher(0, TRY, MarkHead(0, false))
    ensures forall i :: 0 <= i < |r.acts| && i != 3 ==> Sole(r.acts[i], 0, TRY)
    ensures PostsOf(End(r).h.posts, 1) == ["c", "c"]
  {
    hide IsRun, Posted, AnyOk, Due, DistinctChannels, Marked;
    PostedTo("c");
    var new' := NewRow("e", 0);
    r := OneEvent(map[0 := Idle]);
    assert Due(new', 0, 1) by { NewIsDue(0); }
    r := ClaimIt(r, new', 0, TRY, 0);
    var held := ClaimRow(new', "w", 0);
    r := PostIt(r, held, 0, TRY, [("c", true)], 1, 0);
    r := MarkIt(r, held, 0, TRY, true, 1, 0, false);
    r := EndTick(r, held, 0, TRY, 0);
    StrandedIsDueExactlyWhenStale(held, 0, 1, 1);
    r := ClaimIt(r, held, 0, TRY, 1);
    r := PostIt(r, ClaimRow(held, "w", 1), 0, TRY, [("c", true)], 2, 1);
  }

  /** The second dispatcher takes the row over as stale while the first is still
      delivering it, and the first then delivers and marks it. */
  lemma TakenOverAndDelivered() returns (r: Run, row: Row)
    ensures OneRow(r, row) && row.status == Delivered && AtIt(r, 1, None, 2, 1)
    ensures forall k :: 0 <= k < |r.acts| ==> Sole(r.acts[k], 0, TRY) || Sole(r.acts[k], 1, TRY)
    ensures PostsOf(End(r).h.posts, 1) == ["c"]
  {
    hide IsRun, Posted, AnyOk, Due, DistinctChannels;
    PostedTo("c");
    var new' := NewRow("e", 0);
    r := OneEvent(map[0 := Idle, 1 := Idle]);
    assert Due(new', 0, 1) by { NewIsDue(0); }
    r := ClaimIt(r, new', 0, TRY, 0);
    var held := ClaimRow(new', "w", 0);
    StrandedIsDueExactlyWhenStale(held, 0, 1, 1);
    r := ClaimIt(r, held, 1, TRY, 1);
    var twice := ClaimRow(held, "w", 1);
    r := PostIt(r, twice, 0, TRY, [("c", true)], 1, 0);
    r := MarkIt(r, twice, 0, TRY, true, 1, 0, true);
    row := MarkDelivered(map[1 := twice], 1, 0)[1];
  }

  /** With two dispatchers the failure of the second makes a row pending again
      that the first has posted and marked delivered. */
  lemma SecondDispatcherReopens() returns (r: Run, i: nat)
    ensures IsRun(r.states, r.acts) && i < |r.acts|
    ensures forall k :: 0 <= k < |r.acts| ==> Sole(r.acts[k], 0, TRY) || Sole(r.acts[k], 1, TRY)
    ensures 1 in r.states[i].rows && r.states[i].rows[1].status == Delivered
    ensures PostsOf(r.states[i].h.posts, 1) == ["c"]
    ensures 1 in End(r).rows && End(r).rows[1].status == Pending
  {
    hide IsRun, Posted, AnyOk, DistinctChannels;
    PostedTo("c");
    var r0, row := TakenOverAndDelivered();
    i := |r0.acts|;
    var r1 := PostIt(r0, row, 1, TRY, [("c", false)], 2, 1);
    r := MarkIt(r1, row, 1, TRY, false, 2, 1, true);
    assert r.states[i] == End(r0);
  }

  /** A configuration that allows fewer attempts comes into force between two
      attempts: the row has then been tried more often than it allows. */
  lemma SmallerBudgetIsExceeded() returns (r: Run, fewer: DeliveryConfig)
    ensures IsRun(r.states, r.acts)
    ensures forall k :: 0 <= k < |r.acts| ==> Sole(r.acts[k], 0, TRY) || Sole(r.acts[k], 0, fewer)
    ensures 1 in End(r).rows && End(r).rows[1].attempts > Max(fewer.maxAttempts, 1) + RequeuesOf(End(r).h.requeues, 1)
  {
    hide IsRun, Posted, AnyOk, Due, DistinctChannels, Marked;
    fewer := TRY.(maxAttempts := 1);
    PostedTo("c");
    var new' := NewRow("e", 0);
    r := OneEvent(map[0 := Idle]);
    assert Due(new', 0, 1) by { NewIsDue(0); }
    r := ClaimIt(r, new', 0, TRY, 0);
    var held := ClaimRow(new', "w", 0);
    r := PostIt(r, held, 0, TRY, [("c", false)], 1, 0);
    r := MarkIt(r, held, 0, TRY, false, 1, 0, true);
    var again := RetryNow(held);
    r := EndTick(r, again, 0, TRY, 0);
    r := ClaimIt(r, again, 0, fewer, 1);
  }

  lemma RetryNow(held: Row) returns (again: Row)
    requires held == ClaimRow(NewRow("e", 0), "w", 0)
    ensures again == Marked(map[1 := held], TRY, Job(1, 1), 0, false, 0)[1]
    ensures Due(again, 1, 1) && again.attempts == 1
  {
    again := Marked(map[1 := held], TRY, Job(1, 1), 0, false, 0)[1];
    assert Pow2(0) == 1;
  }
}
