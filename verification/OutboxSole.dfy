/** One dispatcher with a fixed configuration whose marks all reach the table:
    every row is tried a bounded number of times, and every Slack channel gets a
    row at most once. */
module OutboxSole {
  import opened Common
  import opened Outbox
  import opened OutboxSystem
  import opened OutboxDelivery

  /** The premise on each step. */
  ghost predicate Sole(a: Action, d: nat, cfg: DeliveryConfig) {
    a.Dispatcher? ==>
      && a.d == d && a.cfg == cfg && !a.step.Abandon?
      && (a.step.MarkHead? ==> a.step.written)
  }

  ghost predicate IsSoleRun(states: seq<Sys>, acts: seq<Action>, d: nat, cfg: DeliveryConfig) {
    && IsRun(states, acts)
    && d in states[0].dispatchers
    && forall i :: 0 <= i < |acts| ==> Sole(acts[i], d, cfg)
  }

  // ---------------------------------------------------------------- invariants

  ghost predicate Queued(queue: seq<Job>, id: nat) {
    exists k :: 0 <= k < |queue| && queue[k].id == id
  }

  /** The rows in progress are those of the queue, and nothing else. */
  ghost predicate Busy(rows: Table, queue: seq<Job>) {
    && (forall i, j :: 0 <= i < j < |queue| ==> queue[i].id != queue[j].id)
    && (forall id :: id in rows && rows[id].status == InProgress ==> Queued(queue, id))
    && (forall k :: 0 <= k < |queue| && queue[k].id in rows ==>
          rows[queue[k].id].status == InProgress && rows[queue[k].id].attempts == queue[k].attempts)
  }

  /** Attempts a row may have had: `allowed`, and one more for every requeue. */
  ghost predicate AttemptsOk(row: Row, allowed: nat, requeues: nat) {
    && (if row.status == Pending then row.attempts < allowed + requeues else row.attempts <= allowed + requeues)
    && (row.status == Failed ==> row.attempts >= allowed)
  }

  ghost predicate AllAttemptsOk(rows: Table, requeues: map<nat, nat>, allowed: nat) {
    forall id :: id in rows ==> AttemptsOk(rows[id], allowed, RequeuesOf(requeues, id))
  }

  ghost predicate NoRepeats(names: seq<string>) {
    forall i, j :: 0 <= i < j < |names| ==> names[i] != names[j]
  }

  /** A row with a successful post is delivered, or about to be marked so. */
  ghost predicate PostOk(rows: Table, next: nat, queue: seq<Job>, outcome: Option<bool>, id: nat) {
    && id < next
    && (id in rows ==> rows[id].status == Delivered || (queue != [] && queue[0].id == id && outcome == Some(true)))
    && (forall k :: 0 <= k < |queue| && queue[k].id == id ==> k == 0 && outcome == Some(true))
  }

  ghost predicate PostsOk(rows: Table, next: nat, queue: seq<Job>, outcome: Option<bool>, posts: map<nat, seq<string>>) {
    forall id: nat :: PostsOf(posts, id) != [] ==>
      NoRepeats(PostsOf(posts, id)) && PostOk(rows, next, queue, outcome, id)
  }

  ghost function QueueOf(w: Dispatch): seq<Job> {
    if w.Working? then w.queue else []
  }

  ghost function OutcomeOf(w: Dispatch): Option<bool> {
    if w.Working? then w.outcome else None
  }

  ghost predicate SoleInv(s: Sys, d: nat, cfg: DeliveryConfig) {
    && IdsInv(s) && d in s.dispatchers
    && var w := s.dispatchers[d];
       && (w.Working? ==> (w.queue == [] ==> w.outcome.None?))
       && (forall k :: 0 <= k < |QueueOf(w)| ==> QueueOf(w)[k].id < s.next)
       && Busy(s.rows, QueueOf(w))
       && AllAttemptsOk(s.rows, s.h.requeues, AttemptsAllowed(cfg))
       && PostsOk(s.rows, s.next, QueueOf(w), OutcomeOf(w), s.h.posts)
  }

  // --------------------------------------------------------------------- claims

  lemma NothingInProgress(rows: Table)
    requires Busy(rows, [])
    ensures forall id :: id in rows ==> rows[id].status != InProgress
  {
  }

  lemma ClaimKeepsBusy(rows: Table, ids: seq<nat>, claimant: string, at: int)
    requires Busy(rows, [])
    requires forall id :: id in ids ==> id in rows
    requires forall i, j :: 0 <= i < j < |ids| ==> ids[i] != ids[j]
    ensures Busy(ClaimAll(rows, AsSet(ids), claimant, at), Jobs(rows, ids))
  {
    NothingInProgress(rows);
    var rows', queue := ClaimAll(rows, AsSet(ids), claimant, at), Jobs(rows, ids);
    forall id | id in rows' && rows'[id].status == InProgress
      ensures Queued(queue, id)
    {
      assert id in ids;
      var k :| 0 <= k < |ids| && ids[k] == id;
      assert queue[k].id == id;
    }
    forall k | 0 <= k < |queue|
      ensures queue[k].id in rows' && rows'[queue[k].id].status == InProgress
              && rows'[queue[k].id].attempts == queue[k].attempts
    {
      assert ids[k] in ids;
    }
  }

  lemma ClaimStep(s: Sys, d: nat, cfg: DeliveryConfig, at: int, claimant: string)
    requires SoleInv(s, d, cfg) && DispatchEnabled(s, d, Claim(at, claimant))
    ensures SoleInv(DoClaim(s, d, cfg, at, claimant), d, cfg)
  {
    hide DueIds, Busy, Due, RequeuesOf;
    var limit := Max(1, Min(cfg.batch, 500));
    var ids := DueIds(s.rows, s.next, at, cfg.staleAfter, limit);
    DueIdsAreDistinct(s.rows, s.next, at, cfg.staleAfter, limit);
    ClaimKeepsBusy(s.rows, ids, claimant, at);
    ClaimedWerePending(s, d, cfg, at, limit);
    var rows' := ClaimAll(s.rows, AsSet(ids), claimant, at);
    forall id | id in rows'
      ensures AttemptsOk(rows'[id], AttemptsAllowed(cfg), RequeuesOf(s.h.requeues, id))
    {
      assert AttemptsOk(s.rows[id], AttemptsAllowed(cfg), RequeuesOf(s.h.requeues, id));
    }
    var queue := Jobs(s.rows, ids);
    forall k | 0 <= k < |queue|
      ensures queue[k].id in ids && queue[k].id < s.next
    {
    }
  }

  /** With nothing in progress, only pending rows are due. */
  lemma ClaimedWerePending(s: Sys, d: nat, cfg: DeliveryConfig, at: int, limit: nat)
    requires SoleInv(s, d, cfg) && s.dispatchers[d].Idle?
    ensures forall id :: id in DueIds(s.rows, s.next, at, cfg.staleAfter, limit) ==>
              id in s.rows && s.rows[id].status == Pending
  {
  }

  // ------------------------------------------------------------- deliver and mark

  lemma {:induction false} PostedAreDistinct(posts: seq<Post>)
    requires DistinctChannels(posts)
    ensures NoRepeats(Posted(posts))
    ensures forall c :: c in Posted(posts) ==> exists i :: 0 <= i < |posts| && posts[i].0 == c && posts[i].1
  {
    if posts != [] {
      PostedAreDistinct(posts[1..]);
      var rest := Posted(posts[1..]);
      forall c | c in rest
        ensures exists i :: 0 <= i < |posts| && posts[i].0 == c && posts[i].1
        ensures c != posts[0].0
      {
        var i :| 0 <= i < |posts[1..]| && posts[1..][i].0 == c && posts[1..][i].1;
        assert posts[i + 1].0 == c;
      }
      if posts[0].1 {
        var all := [posts[0].0] + rest;
        forall i, j | 0 <= i < j < |all|
          ensures all[i] != all[j]
        {
          assert all[j] == rest[j - 1] && rest[j - 1] in rest;
        }
      }
    }
  }

  /** A row being tried has had no successful post; if one succeeds now, the
      attempt as a whole does. */
  lemma DeliverStep(s: Sys, d: nat, cfg: DeliveryConfig, posts: seq<Post>, ok: bool)
    requires SoleInv(s, d, cfg) && DispatchEnabled(s, d, DeliverHead(posts, ok))
    ensures SoleInv(DoDeliver(s, d, posts, ok), d, cfg)
  {
    hide Busy, AttemptsOk;
    var w, s' := s.dispatchers[d], DoDeliver(s, d, posts, ok);
    var id := w.queue[0].id;
    PostedAreDistinct(posts);
    assert PostsOf(s.h.posts, id) == [];
    assert PostsOf(s'.h.posts, id) == Posted(posts);
    if Posted(posts) != [] {
      assert Posted(posts)[0] in Posted(posts);
      assert ok;
      HeadIsInProgress(s.rows, w.queue);
    }
    forall x: nat | PostsOf(s'.h.posts, x) != []
      ensures NoRepeats(PostsOf(s'.h.posts, x)) && PostOk(s.rows, s.next, w.queue, Some(ok), x)
    {
      if x != id {
        assert PostsOf(s'.h.posts, x) == PostsOf(s.h.posts, x);
      }
    }
  }

  lemma HeadIsInProgress(rows: Table, queue: seq<Job>)
    requires Busy(rows, queue) && queue != []
    ensures queue[0].id in rows ==> rows[queue[0].id].status == InProgress && rows[queue[0].id].attempts == queue[0].attempts
    ensures forall k :: 1 <= k < |queue| ==> queue[k].id != queue[0].id
  {
  }

  /** Taking the head off the queue as its row leaves InProgress. */
  lemma MarkKeepsBusy(rows: Table, rows': Table, queue: seq<Job>)
    requires Busy(rows, queue) && queue != []
    requires rows'.Keys == rows.Keys && forall id :: id in rows && id != queue[0].id ==> rows'[id] == rows[id]
    requires queue[0].id in rows' ==> rows'[queue[0].id].status != InProgress
    ensures Busy(rows', queue[1..])
  {
  }

  lemma MarkStep(s: Sys, d: nat, cfg: DeliveryConfig, at: int)
    requires SoleInv(s, d, cfg) && DispatchEnabled(s, d, MarkHead(at, true))
    ensures SoleInv(DoMark(s, d, cfg, at, true), d, cfg)
  {
    hide Busy, Delay, Clamp;
    var w, s' := s.dispatchers[d], DoMark(s, d, cfg, at, true);
    var id := w.queue[0].id;
    HeadIsInProgress(s.rows, w.queue);
    MarkKeepsBusy(s.rows, s'.rows, w.queue);
    if id in s.rows {
      assert AttemptsOk(s.rows[id], AttemptsAllowed(cfg), RequeuesOf(s.h.requeues, id));
    }
    forall x: nat | PostsOf(s'.h.posts, x) != []
      ensures PostOk(s'.rows, s'.next, w.queue[1..], None, x)
    {
      assert PostOk(s.rows, s.next, w.queue, w.outcome, x);
      forall k | 0 <= k < |w.queue| - 1
        ensures w.queue[1..][k].id != x
      {
        assert w.queue[k + 1].id == w.queue[1..][k].id;
      }
    }
  }

  // ------------------------------------------------------------- everything else

  /** Rows only removed, or only requeued: the queue and the posts do not notice. */
  lemma RemovalKeeps(s: Sys, s': Sys, d: nat, cfg: DeliveryConfig)
    requires SoleInv(s, d, cfg) && IdsInv(s') && s'.next == s.next && s'.h.posts == s.h.posts && s'.h.requeues == s.h.requeues
    requires forall id :: id in s'.rows ==> id in s.rows && s'.rows[id] == s.rows[id]
    requires d in s'.dispatchers && QueueOf(s'.dispatchers[d]) == QueueOf(s.dispatchers[d])
    requires OutcomeOf(s'.dispatchers[d]) == OutcomeOf(s.dispatchers[d])
    requires s'.dispatchers[d].Working? ==> s.dispatchers[d].Working?
    ensures SoleInv(s', d, cfg)
  {
  }

  lemma RequeueStep(s: Sys, d: nat, cfg: DeliveryConfig, ids: set<nat>, at: int)
    requires SoleInv(s, d, cfg)
    ensures SoleInv(DoRequeue(s, ids, at), d, cfg)
  {
    hide NoRepeats;
    var s' := DoRequeue(s, ids, at);
    forall id | id in s'.rows
      ensures AttemptsOk(s'.rows[id], AttemptsAllowed(cfg), RequeuesOf(s'.h.requeues, id))
    {
      assert AttemptsOk(s.rows[id], AttemptsAllowed(cfg), RequeuesOf(s.h.requeues, id));
    }
  }

  lemma InsertStep(s: Sys, d: nat, cfg: DeliveryConfig, events: seq<(string, int)>)
    requires SoleInv(s, d, cfg) && Enabled(s, InsertEvents(events))
    ensures SoleInv(Do(s, InsertEvents(events)), d, cfg)
  {
    hide NoRepeats, Inserted;
    InsertedRows(s.rows, s.next, events);
    NewRowsArePending(s.rows, s.next, events);
  }

  lemma DispatchStepKeeps(s: Sys, d: nat, cfg: DeliveryConfig, step: DispatchStep)
    requires SoleInv(s, d, cfg) && DispatchEnabled(s, d, step) && Sole(Dispatcher(d, cfg, step), d, cfg)
    ensures SoleInv(DoDispatch(s, d, cfg, step), d, cfg)
  {
    hide SoleInv, DoClaim, DoDeliver, DoMark, Floor, BelowFloor, PruneIds;
    StepKeepsIdsHere(s, d, cfg, step);
    match step
    case Claim(at, claimant) => ClaimStep(s, d, cfg, at, claimant);
    case DeliverHead(posts, ok) => DeliverStep(s, d, cfg, posts, ok);
    case MarkHead(at, _) => MarkStep(s, d, cfg, at);
    case ComputeFloor(_) => IdleOutcome(s, d, cfg); RemovalKeeps(s, DoDispatch(s, d, cfg, step), d, cfg);
    case PruneNext(_) => RemovalKeeps(s, DoDispatch(s, d, cfg, step), d, cfg);
    case FloorPrune(_, _) => RemovalKeeps(s, DoDispatch(s, d, cfg, step), d, cfg);
    case Abandon => assert false;
  }

  lemma IdleOutcome(s: Sys, d: nat, cfg: DeliveryConfig)
    requires SoleInv(s, d, cfg) && s.dispatchers[d].Working? && s.dispatchers[d].queue == []
    ensures s.dispatchers[d].outcome.None?
  {
  }

  lemma StepKeepsIdsHere(s: Sys, d: nat, cfg: DeliveryConfig, step: DispatchStep)
    requires SoleInv(s, d, cfg) && DispatchEnabled(s, d, step)
    ensures IdsInv(s) && IdsInv(DoDispatch(s, d, cfg, step))
  {
  }

  lemma StepKeepsSole(s: Sys, a: Action, d: nat, cfg: DeliveryConfig)
    requires SoleInv(s, d, cfg) && Enabled(s, a) && Sole(a, d, cfg)
    ensures SoleInv(Do(s, a), d, cfg)
  {
    hide SoleInv, DoDispatch, DoRequeue, Sole, Since, Handled, AllFailed, FailedAbove, PurgeFloor, Inserted;
    SoleHasIds(s, d, cfg);
    StepKeepsIds(s, a);
    match a
    case Dispatcher(e, c, step) =>
      assert e == d && c == cfg by { SoleIs(a, d, cfg); }
      DispatchStepKeeps(s, d, cfg, step);
    case RequeueFailed(ids, at) => RequeueStep(s, d, cfg, ids, at);
    case InsertEvents(events) => InsertStep(s, d, cfg, events);
    case _ => RemovalKeeps(s, Do(s, a), d, cfg);
  }

  lemma SoleIs(a: Action, d: nat, cfg: DeliveryConfig)
    requires a.Dispatcher? && Sole(a, d, cfg)
    ensures a.d == d && a.cfg == cfg
  {
  }

  lemma SoleHasIds(s: Sys, d: nat, cfg: DeliveryConfig)
    requires SoleInv(s, d, cfg)
    ensures IdsInv(s) && d in s.dispatchers
  {
  }

  lemma {:induction false} SoleAlways(states: seq<Sys>, acts: seq<Action>, d: nat, cfg: DeliveryConfig, i: nat)
    requires IsSoleRun(states, acts, d, cfg) && i < |states|
    ensures SoleInv(states[i], d, cfg)
    decreases i
  {
    if i > 0 {
      hide Do, Enabled, SoleInv, Sole;
      SoleAlways(states, acts, d, cfg, i - 1);
      StepKeepsSole(states[i - 1], acts[i - 1], d, cfg);
    }
  }

  /** No row is tried more often than the configuration allows, plus once for
      every time an operator requeued it. */
  lemma AttemptsAreBounded(states: seq<Sys>, acts: seq<Action>, d: nat, cfg: DeliveryConfig, i: nat, id: nat)
    requires IsSoleRun(states, acts, d, cfg) && i < |states| && id in states[i].rows
    ensures states[i].rows[id].attempts <= Max(cfg.maxAttempts, 1) + RequeuesOf(states[i].h.requeues, id)
  {
    SoleAlways(states, acts, d, cfg, i);
    assert AttemptsOk(states[i].rows[id], AttemptsAllowed(cfg), RequeuesOf(states[i].h.requeues, id));
  }

  /** No row is given up before it has had the attempts it is allowed. */
  lemma NoRowIsGivenUpEarly(states: seq<Sys>, acts: seq<Action>, d: nat, cfg: DeliveryConfig, i: nat, id: nat)
    requires IsSoleRun(states, acts, d, cfg) && i < |states| && id in states[i].rows && states[i].rows[id].status == Failed
    ensures states[i].rows[id].attempts >= Max(cfg.maxAttempts, 1)
  {
    SoleAlways(states, acts, d, cfg, i);
    assert AttemptsOk(states[i].rows[id], AttemptsAllowed(cfg), RequeuesOf(states[i].h.requeues, id));
  }

  /** Over all retries of a row, every channel gets it at most once. */
  lemma EachChannelAtMostOnce(states: seq<Sys>, acts: seq<Action>, d: nat, cfg: DeliveryConfig, i: nat, id: nat)
    requires IsSoleRun(states, acts, d, cfg) && i < |states|
    ensures NoRepeats(PostsOf(states[i].h.posts, id))
  {
    SoleAlways(states, acts, d, cfg, i);
  }

  // --------------------------------------------------------- delivered is final

  /** The row is as it was when delivered, or gone, and nobody is at it. */
  ghost predicate Settled(s: Sys, d: nat, id: nat, row: Row, posts: seq<string>) {
    && id < s.next && row.status == Delivered
    && (id in s.rows ==> s.rows[id] == row)
    && PostsOf(s.h.posts, id) == posts
    && d in s.dispatchers && !Queued(QueueOf(s.dispatchers[d]), id)
  }

  lemma DispatchSettles(s: Sys, d: nat, cfg: DeliveryConfig, step: DispatchStep, id: nat, row: Row, posts: seq<string>)
    requires SoleInv(s, d, cfg) && DispatchEnabled(s, d, step)
    requires Settled(s, d, id, row, posts)
    ensures Settled(DoDispatch(s, d, cfg, step), d, id, row, posts)
  {
    hide Floor, BelowFloor, PruneIds, DueIds, Busy, AllAttemptsOk, PostsOk, NextAttemptAfter, Posted;
    match step
    case Claim(at, claimant) =>
      var ids := DueIds(s.rows, s.next, at, cfg.staleAfter, Max(1, Min(cfg.batch, 500)));
      assert id !in ids;
    case DeliverHead(_, _) => HeadIsQueued(s.dispatchers[d].queue);
    case MarkHead(_, _) => HeadIsQueued(s.dispatchers[d].queue);
    case _ =>
  }

  lemma HeadIsQueued(queue: seq<Job>)
    requires queue != []
    ensures Queued(queue, queue[0].id)
    ensures forall id :: Queued(queue[1..], id) ==> Queued(queue, id)
  {
    forall id | Queued(queue[1..], id)
      ensures Queued(queue, id)
    {
      var k :| 0 <= k < |queue[1..]| && queue[1..][k].id == id;
      assert queue[k + 1].id == id;
    }
  }

  lemma StepSettles(s: Sys, a: Action, d: nat, cfg: DeliveryConfig, id: nat, row: Row, posts: seq<string>)
    requires SoleInv(s, d, cfg) && Enabled(s, a) && Sole(a, d, cfg)
    requires Settled(s, d, id, row, posts)
    ensures Settled(Do(s, a), d, id, row, posts)
  {
    hide SoleInv, DoDispatch, Since, Handled, AllFailed, FailedAbove, PurgeFloor, Inserted, Queued;
    match a
    case Dispatcher(_, _, step) => DispatchSettles(s, d, cfg, step, id, row, posts);
    case InsertEvents(events) => InsertedRows(s.rows, s.next, events);
    case _ =>
  }

  lemma {:induction false} SettledThroughout(states: seq<Sys>, acts: seq<Action>, d: nat, cfg: DeliveryConfig,
                                             i: nat, j: nat, id: nat, row: Row, posts: seq<string>)
    requires IsSoleRun(states, acts, d, cfg) && i <= j < |states| && Settled(states[i], d, id, row, posts)
    ensures Settled(states[j], d, id, row, posts)
    decreases j
  {
    hide Do, Enabled, SoleInv, Sole, Settled, Initial;
    if i < j {
      SettledThroughout(states, acts, d, cfg, i, j - 1, id, row, posts);
      SoleAlways(states, acts, d, cfg, j - 1);
      StepSettles(states[j - 1], acts[j - 1], d, cfg, id, row, posts);
    }
  }

  lemma DeliveredIsSettled(s: Sys, d: nat, cfg: DeliveryConfig, id: nat)
    requires SoleInv(s, d, cfg) && id in s.rows && s.rows[id].status == Delivered
    ensures Settled(s, d, id, s.rows[id], PostsOf(s.h.posts, id))
  {
  }

  /** Once delivered, a row never changes again until it is pruned, and is posted
      to no further channel even after that. */
  lemma DeliveredIsFinal(states: seq<Sys>, acts: seq<Action>, d: nat, cfg: DeliveryConfig, i: nat, j: nat, id: nat)
    requires IsSoleRun(states, acts, d, cfg) && i <= j < |states|
    requires id in states[i].rows && states[i].rows[id].status == Delivered
    ensures id in states[j].rows ==> states[j].rows[id] == states[i].rows[id]
    ensures PostsOf(states[j].h.posts, id) == PostsOf(states[i].h.posts, id)
  {
    SoleAlways(states, acts, d, cfg, i);
    DeliveredIsSettled(states[i], d, cfg, id);
    SettledThroughout(states, acts, d, cfg, i, j, id, states[i].rows[id], PostsOf(states[i].h.posts, id));
  }
}
