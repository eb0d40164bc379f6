/** The event outbox as the object it is: rows and cursors updated in place, and
    the dispatcher tick and Slack fan-out that drive it. Every method is tied to
    its step on values. */
module OutboxStore {
  import opened Common
  import opened Outbox
  import opened OutboxSystem

  /** The marks of a tick, one claimed row after the other. */
  ghost function MarkAll(rows: Table, jobs: seq<Job>, cfg: DeliveryConfig, tick: int, ok: nat -> bool, at: nat -> int): Table
    decreases |jobs|
  {
    if jobs == [] then rows
    else MarkAll(Marked(rows, cfg, jobs[0], tick, ok(jobs[0].id), at(jobs[0].id)), jobs[1..], cfg, tick, ok, at)
  }

  /** The rows left after the three prunes of an active tick. */
  ghost function PrunedRows(rows: Table, next: nat, cfg: DeliveryConfig, at: int, floor: int): Table {
    var r1 := if cfg.retention > 0
              then rows - AsSet(OldDelivered(rows, next, Clamp(at - cfg.retention), cfg.pruneBatch, floor))
              else rows;
    var r2 := r1 - AsSet(OldFailed(r1, next, Clamp(at - Max(cfg.retention, FAILED_ROW_MAX_AGE_SECS)), cfg.pruneBatch, floor));
    r2 - AsSet(OverCount(r2, next, cfg.maxRows, cfg.pruneBatch, floor))
  }

  lemma ClaimOneMore(rows: Table, done: set<nat>, id: nat, claimant: string, at: int)
    requires id in rows && id !in done
    ensures ClaimAll(rows, done + {id}, claimant, at)
            == ClaimAll(rows, done, claimant, at)[id := ClaimRow(rows[id], claimant, at)]
  {
  }

  ghost function FailedAmong(rows: Table, ids: set<nat>): set<nat> {
    set id | id in ids && id in rows && rows[id].status == Failed
  }

  lemma RequeueOneMore(rows: Table, done: set<nat>, id: nat, at: int)
    ensures var t := Requeue(rows, done, at);
            var hit := id in t && t[id].status == Failed;
            && Requeue(rows, done + {id}, at) == (if hit then t[id := RequeueRow(t[id], at)] else t)
            && |FailedAmong(rows, done + {id})| == |FailedAmong(rows, done)| + (if hit then 1 else 0)
  {
    var t := Requeue(rows, done, at);
    if id in t && t[id].status == Failed {
      assert FailedAmong(rows, done + {id}) == FailedAmong(rows, done) + {id};
    } else {
      assert FailedAmong(rows, done + {id}) == FailedAmong(rows, done);
      assert Requeue(rows, done + {id}, at) == t;
    }
  }

  ghost function Rest(rows: Table, id: nat, next: nat, n: nat): seq<nat> {
    Limit(Select(rows, id, next, AnyRow()), n)
  }

  lemma ScanStarts(rows: Table, id: nat, next: nat, after: int, limit: nat)
    requires id == if after < 0 then 1 else after + 1
    ensures Since(rows, next, after, limit) == Rest(rows, id, next, limit)
  {
  }

  /** One row further along a scan. */
  lemma ScanOneMore(rows: Table, id: nat, next: nat, n: nat)
    ensures id >= next || n == 0 ==> Rest(rows, id, next, n) == []
    ensures id < next && n > 0 ==>
              Rest(rows, id, next, n)
              == if id in rows then [id] + Rest(rows, id + 1, next, n - 1) else Rest(rows, id + 1, next, n)
  {
  }

  class EventOutbox {
    var rows: Table
    var next: nat
    var cursors: map<string, Cursor>

    ghost predicate Valid()
      reads this
    {
      next >= 1 && forall id :: id in rows ==> 1 <= id < next
    }

    constructor ()
      ensures Valid() && rows == map[] && next == 1 && cursors == map[]
    {
      rows, next, cursors := map[], 1, map[];
    }

    /** event_outbox_insert_many: consecutive fresh ids. */
    method InsertMany(events: seq<(string, int)>) returns (ids: seq<nat>)
      requires Valid()
      modifies this
      ensures Valid() && cursors == old(cursors)
      ensures rows == Inserted(old(rows), old(next), events) && next == old(next) + |events|
      ensures |ids| == |events| && forall i :: 0 <= i < |ids| ==> ids[i] == old(next) + i
      ensures forall id :: id in rows <==> id in old(rows) || old(next) <= id < old(next) + |events|
      ensures forall id :: id in old(rows) ==> rows[id] == old(rows)[id]
      ensures forall i :: 0 <= i < |ids| ==>
                && ids[i] in rows
                && var row := rows[ids[i]];
                   && row.event == events[i].0 && row.occurredAt == events[i].1
                   && row.status == Pending && row.attempts == 0 && row.nextAttemptAt.None?
    {
      ids := [];
      for k := 0 to |events|
        invariant Valid() && next == old(next) + k && cursors == old(cursors)
        invariant Inserted(old(rows), old(next), events) == Inserted(rows, next, events[k..])
        invariant |ids| == k && forall i :: 0 <= i < k ==> ids[i] == old(next) + i
      {
        assert events[k..][1..] == events[k + 1..];
        rows := rows[next := NewRow(events[k].0, events[k].1)];
        ids := ids + [next];
        next := next + 1;
      }
      ghost var before, first := old(rows), old(next);
      InsertedRows(before, first, events);
      forall i | 0 <= i < |ids|
        ensures ids[i] in rows && rows[ids[i]] == NewRow(events[i].0, events[i].1)
      {
        assert Inserted(before, first, events)[first + i] == NewRow(events[i].0, events[i].1);
      }
    }

    /** Claim the selected rows one by one, each checked again as it is updated. */
    method ClaimEach(ids: seq<nat>, claimant: string, at: int, stale: int) returns (claimed: seq<Job>)
      requires forall id :: id in ids ==> id in rows && Due(rows[id], at, stale)
      requires forall i, j :: 0 <= i < j < |ids| ==> ids[i] != ids[j]
      modifies this`rows
      ensures rows == ClaimAll(old(rows), AsSet(ids), claimant, at) && claimed == Jobs(old(rows), ids)
    {
      ghost var before := rows;
      claimed := [];
      assert ClaimAll(before, {}, claimant, at) == before;
      assert AsSet(ids[..0]) == {};
      for k := 0 to |ids|
        invariant rows == ClaimAll(before, AsSet(ids[..k]), claimant, at)
        invariant claimed == Jobs(before, ids)[..k]
      {
        hide ClaimAll, Due;
        var id := ids[k];
        ClaimOneMore(before, AsSet(ids[..k]), id, claimant, at);
        assert AsSet(ids[..k + 1]) == AsSet(ids[..k]) + {id};
        UnclaimedRow(before, AsSet(ids[..k]), id, claimant, at);
        if Due(rows[id], at, stale) {
          rows := rows[id := ClaimRow(rows[id], claimant, at)];
          claimed := claimed + [Job(id, rows[id].attempts)];
        }
      }
      assert ids[..|ids|] == ids;
    }

    /** event_outbox_claim_due. */
    method ClaimDue(claimant: string, at: int, stale: int, limit: nat) returns (claimed: seq<Job>)
      requires Valid()
      modifies this`rows
      ensures Valid()
      ensures var ids := DueIds(old(rows), next, at, stale, limit);
              rows == ClaimAll(old(rows), AsSet(ids), claimant, at) && claimed == Jobs(old(rows), ids)
      ensures forall id :: id in rows <==> id in old(rows)
      ensures forall id :: id in rows ==>
                if id in DueIds(old(rows), next, at, stale, limit) then
                  && rows[id].status == InProgress && rows[id].attempts == old(rows)[id].attempts + 1
                  && rows[id].claimedBy == Some(claimant) && rows[id].claimedAt == Some(at)
                  && rows[id].event == old(rows)[id].event && rows[id].occurredAt == old(rows)[id].occurredAt
                else rows[id] == old(rows)[id]
    {
      hide Due, DueIds;
      var ids := DueIds(rows, next, at, stale, limit);
      DueIdsAreDistinct(rows, next, at, stale, limit);
      claimed := ClaimEach(ids, claimant, at, stale);
    }

    method MarkDelivered(id: nat, at: int) returns (updated: bool)
      requires Valid()
      modifies this`rows
      ensures Valid() && rows == Outbox.MarkDelivered(old(rows), id, at) && updated == (id in old(rows))
      ensures updated ==>
                && rows == old(rows)[id := rows[id]] && rows[id].status == Delivered && rows[id].deliveredAt == Some(at)
                && rows[id].claimedBy.None? && rows[id].claimedAt.None? && rows[id].nextAttemptAt.None?
                && rows[id].attempts == old(rows)[id].attempts && rows[id].event == old(rows)[id].event
    {
      updated := id in rows;
      if updated {
        rows := rows[id := rows[id].(status := Delivered, deliveredAt := Some(at), claimedBy := None,
                                     claimedAt := None, nextAttemptAt := None, lastError := None)];
      }
    }

    method MarkFailed(id: nat, error: string, retryAt: Option<int>) returns (updated: bool)
      requires Valid()
      modifies this`rows
      ensures Valid() && rows == Outbox.MarkFailed(old(rows), id, error, retryAt) && updated == (id in old(rows))
      ensures updated ==>
                && rows == old(rows)[id := rows[id]] && rows[id].nextAttemptAt == retryAt && rows[id].lastError == Some(error)
                && rows[id].status == (if retryAt.Some? then Pending else Failed)
                && rows[id].claimedBy.None? && rows[id].claimedAt.None?
                && rows[id].attempts == old(rows)[id].attempts && rows[id].event == old(rows)[id].event
    {
      updated := id in rows;
      if updated {
        var status := if retryAt.Some? then Pending else Failed;
        rows := rows[id := rows[id].(status := status, nextAttemptAt := retryAt, claimedBy := None,
                                     claimedAt := None, lastError := Some(error))];
      }
    }

    /** event_outbox_requeue_failed_many. */
    method RequeueFailed(ids: seq<nat>, at: int) returns (updated: nat)
      requires Valid()
      modifies this`rows
      ensures Valid() && rows == Requeue(old(rows), AsSet(ids), at)
      ensures updated == |FailedAmong(old(rows), AsSet(ids))|
      ensures forall id :: id in rows <==> id in old(rows)
      ensures forall id :: id in rows ==>
                if id in ids && old(rows)[id].status == Failed then
                  rows[id].status == Pending && rows[id].nextAttemptAt == Some(at) && rows[id].attempts == old(rows)[id].attempts
                else rows[id] == old(rows)[id]
    {
      updated := 0;
      ghost var before := rows;
      assert Requeue(before, {}, at) == before && FailedAmong(before, {}) == {};
      assert AsSet(ids[..0]) == {};
      for k := 0 to |ids|
        invariant rows == Requeue(before, AsSet(ids[..k]), at)
        invariant updated == |FailedAmong(before, AsSet(ids[..k]))|
      {
        hide Requeue, FailedAmong;
        var id := ids[k];
        RequeueOneMore(before, AsSet(ids[..k]), id, at);
        assert AsSet(ids[..k + 1]) == AsSet(ids[..k]) + {id};
        if id in rows && rows[id].status == Failed {
          rows := rows[id := RequeueRow(rows[id], at)];
          updated := updated + 1;
        }
      }
      assert ids[..|ids|] == ids;
    }

    /** event_outbox_since: scan on from the cursor until the batch is full. What
        is left out lies beyond a full batch. */
    method Since(after: int, limit: nat) returns (ids: seq<nat>)
      requires Valid()
      ensures ids == Outbox.Since(rows, next, after, limit)
      ensures Ascending(ids) && |ids| <= limit && forall id :: id in ids ==> id in rows && id > after
      ensures forall id :: id in rows && id > after && id !in ids ==> |ids| == limit && forall x :: x in ids ==> x < id
    {
      hide Rest, Outbox.Since, Select, Limit;
      ids := [];
      var id: nat := if after < 0 then 1 else after + 1;
      ScanStarts(rows, id, next, after, limit);
      while id < next && |ids| < limit
        invariant |ids| <= limit && after < id
        invariant Outbox.Since(rows, next, after, limit) == ids + Rest(rows, id, next, limit - |ids|)
        invariant forall x :: x in ids <==> after < x < id && x in rows
        decreases next - id
      {
        ScanOneMore(rows, id, next, limit - |ids|);
        if id in rows {
          ids := ids + [id];
        }
        id := id + 1;
      }
      ScanOneMore(rows, id, next, limit - |ids|);
    }

    method CursorAdvance(listener: string, last: int, at: int)
      modifies this`cursors
      ensures cursors == Advance(old(cursors), listener, last, at)
      ensures listener in cursors && cursors == old(cursors)[listener := cursors[listener]]
      ensures listener in old(cursors) && last <= old(cursors)[listener].last ==> cursors[listener] == old(cursors)[listener]
      ensures listener !in old(cursors) || last > old(cursors)[listener].last ==> cursors[listener] == Cursor(last, at)
    {
      if listener in cursors {
        var c := cursors[listener];
        var touched := if last > c.last then at else c.updatedAt;
        cursors := cursors[listener := Cursor(Max(c.last, last), touched)];
      } else {
        cursors := cursors[listener := Cursor(last, at)];
      }
    }

    /** event_outbox_min_active_listener_cursor, and the floor taken from it. */
    method ActiveFloor(at: int, queryOk: bool) returns (floor: int)
      ensures floor == Floor(cursors, at, queryOk)
    {
      if !queryOk {
        return I64_MAX;
      }
      var cutoff := Clamp(at - LISTENER_CURSOR_STALE_SECS);
      var min: Option<int> := None;
      var todo := cursors.Keys;
      while todo != {}
        invariant todo <= cursors.Keys
        invariant min.None? <==> forall l :: l in cursors && l !in todo ==> cursors[l].updatedAt < cutoff
        invariant min.Some? ==>
          && (exists l :: l in cursors && l !in todo && cursors[l].updatedAt >= cutoff && cursors[l].last == min.value)
          && (forall l :: l in cursors && l !in todo && cursors[l].updatedAt >= cutoff ==> min.value <= cursors[l].last)
        decreases todo
      {
        var l :| l in todo;
        todo := todo - {l};
        if cursors[l].updatedAt >= cutoff && (min.None? || cursors[l].last < min.value) {
          min := Some(cursors[l].last);
        }
      }
      SameMinimum(cursors, cutoff, min);
      floor := if min.Some? then min.value else I64_MAX;
    }

    /** Mark every claimed row by the outcome of its delivery. */
    method MarkEach(jobs: seq<Job>, cfg: DeliveryConfig, at: int, ok: nat -> bool, clock: nat -> int)
      requires Valid()
      modifies this`rows
      ensures Valid() && rows == MarkAll(old(rows), jobs, cfg, at, ok, clock)
    {
      hide NextAttemptAfter;
      for k := 0 to |jobs|
        invariant Valid()
        invariant MarkAll(old(rows), jobs, cfg, at, ok, clock) == MarkAll(rows, jobs[k..], cfg, at, ok, clock)
      {
        assert jobs[k..][1..] == jobs[k + 1..];
        var job := jobs[k];
        if ok(job.id) {
          var _ := MarkDelivered(job.id, clock(job.id));
        } else {
          var _ := MarkFailed(job.id, "", NextAttemptAfter(cfg, job.attempts, at));
        }
      }
    }

    /** The prunes at the end of an active tick. */
    method PruneTick(cfg: DeliveryConfig, at: int, floor: int)
      requires Valid()
      modifies this`rows
      ensures Valid() && rows == PrunedRows(old(rows), next, cfg, at, floor)
    {
      hide OldDelivered, OldFailed, OverCount;
      if cfg.retention > 0 {
        rows := rows - AsSet(OldDelivered(rows, next, Clamp(at - cfg.retention), cfg.pruneBatch, floor));
      }
      var window := Max(cfg.retention, FAILED_ROW_MAX_AGE_SECS);
      rows := rows - AsSet(OldFailed(rows, next, Clamp(at - window), cfg.pruneBatch, floor));
      if cfg.pruneBatch > 0 {
        rows := rows - AsSet(OverCount(rows, next, cfg.maxRows, cfg.pruneBatch, floor));
      } else {
        NothingOverCount(rows, next, cfg.maxRows, floor);
      }
    }

    /** dispatch_once, with the deliveries' outcomes and the clock given. */
    method DispatchOnce(cfg: DeliveryConfig, claimant: string, at: int, ok: nat -> bool, clock: nat -> int, queryOk: bool)
      requires Valid()
      modifies this`rows
      ensures Valid()
      ensures var ids := DueIds(old(rows), next, at, cfg.staleAfter, Max(1, Min(cfg.batch, 500)));
              var claimed := ClaimAll(old(rows), AsSet(ids), claimant, at);
              var marked := MarkAll(claimed, Jobs(old(rows), ids), cfg, at, ok, clock);
              rows == PrunedRows(marked, next, cfg, at, Floor(cursors, at, queryOk))
    {
      hide DueIds, ClaimAll, Floor, MarkAll, PrunedRows;
      var jobs := ClaimDue(claimant, at, cfg.staleAfter, Max(1, Min(cfg.batch, 500)));
      MarkEach(jobs, cfg, at, ok, clock);
      var floor := ActiveFloor(at, queryOk);
      PruneTick(cfg, at, floor);
    }

    /** prune_below_floor, the tick of a disabled dispatcher. */
    method PruneBelowFloor(cfg: DeliveryConfig, at: int, queryOk: bool)
      requires Valid()
      modifies this`rows
      ensures Valid()
      ensures rows == old(rows) - AsSet(BelowFloor(old(rows), next, Floor(cursors, at, queryOk), Max(cfg.pruneBatch, 1)))
    {
      hide Floor, Select;
      var batch := Max(cfg.pruneBatch, 1);
      var floor := ActiveFloor(at, queryOk);
      if batch == 0 || floor <= 0 || floor == I64_MAX {
        return;
      }
      rows := rows - AsSet(Limit(Select(rows, 1, UpTo(floor, next), AnyRow()), batch));
    }
  }

  lemma UnclaimedRow(rows: Table, done: set<nat>, id: nat, claimant: string, at: int)
    requires id in rows && id !in done
    ensures var t := ClaimAll(rows, done, claimant, at); id in t && t[id] == rows[id]
  {
  }

  lemma SameMinimum(cursors: map<string, Cursor>, cutoff: int, min: Option<int>)
    requires min.None? <==> forall l :: l in cursors ==> cursors[l].updatedAt < cutoff
    requires min.Some? ==> exists l :: l in cursors && cursors[l].updatedAt >= cutoff && cursors[l].last == min.value
    requires min.Some? ==> forall l :: l in cursors && cursors[l].updatedAt >= cutoff ==> min.value <= cursors[l].last
    ensures MinPosition(ActiveCursors(cursors, cutoff)) == min
  {
    var active := ActiveCursors(cursors, cutoff);
    if min.Some? {
      var l :| l in cursors && cursors[l].updatedAt >= cutoff && cursors[l].last == min.value;
      assert l in active;
    } else {
      assert active == map[];
    }
  }

  lemma NothingOverCount(rows: Table, next: nat, keep: nat, floor: int)
    ensures rows - AsSet(OverCount(rows, next, keep, 0, floor)) == rows
  {
  }

  // -------------------------------------------------------------- Slack fan-out

  /** A route as it applies to one event: whether it matches, and its channel. */
  datatype Route = Route(matches: bool, channel: string)

  ghost predicate Routed(routes: seq<Route>, n: nat, channel: string)
    requires n <= |routes|
  {
    exists i :: 0 <= i < n && routes[i].matches && routes[i].channel == channel
  }

  /** `a` is routed to before `b` is. */
  ghost predicate Sooner(routes: seq<Route>, a: string, b: string) {
    exists n: nat :: n <= |routes| && Routed(routes, n, a) && !Routed(routes, n, b)
  }

  /** resolve_channels with routes: the channels of all matching routes, each
      once, in the order in which they first appear. */
  method ResolveChannels(routes: seq<Route>) returns (channels: seq<string>)
    ensures forall c :: c in channels <==> c != "" && Routed(routes, |routes|, c)
    ensures forall i, j :: 0 <= i < j < |channels| ==> channels[i] != channels[j]
    ensures forall i, j :: 0 <= i < j < |channels| ==> Sooner(routes, channels[i], channels[j])
  {
    channels := [];
    for k := 0 to |routes|
      invariant forall c :: c in channels <==> c != "" && Routed(routes, k, c)
      invariant forall i, j :: 0 <= i < j < |channels| ==> channels[i] != channels[j]
      invariant forall i, j :: 0 <= i < j < |channels| ==> Sooner(routes, channels[i], channels[j])
    {
      var c := routes[k].channel;
      RoutedNext(routes, k);
      if routes[k].matches && c != "" && c !in channels {
        forall i | 0 <= i < |channels|
          ensures Sooner(routes, channels[i], c)
        {
          assert channels[i] in channels;
        }
        channels := channels + [c];
      }
    }
  }

  lemma RoutedNext(routes: seq<Route>, k: nat)
    requires k < |routes|
    ensures forall c :: Routed(routes, k + 1, c) <==> Routed(routes, k, c) || (routes[k].matches && routes[k].channel == c)
  {
    assert routes[k].matches ==> Routed(routes, k + 1, routes[k].channel);
  }

  datatype SlackResult = Sent | Refused

  /** deliver_slack in bot-token mode: post to every channel, and fail the row
      only if every post failed. */
  method DeliverSlack(channels: seq<string>, routed: bool, accepts: string -> bool)
    returns (r: SlackResult, posts: seq<Post>)
    requires forall i, j :: 0 <= i < j < |channels| ==> channels[i] != channels[j]
    ensures DistinctChannels(posts)
    ensures |posts| == |channels|
    ensures forall i :: 0 <= i < |posts| ==> posts[i] == (channels[i], accepts(channels[i]))
    ensures channels != [] ==> (r == Sent <==> AnyOk(posts))
    ensures channels == [] ==> (r == Sent <==> routed)
    ensures r == Refused ==> Posted(posts) == []
  {
    posts := [];
    if |channels| == 0 {
      r := if routed then Sent else Refused;
      return;
    }
    var anyOk := false;
    for k := 0 to |channels|
      invariant |posts| == k
      invariant forall i :: 0 <= i < k ==> posts[i] == (channels[i], accepts(channels[i]))
      invariant anyOk <==> exists i :: 0 <= i < k && posts[i].1
    {
      var ok := accepts(channels[k]);
      posts := posts + [(channels[k], ok)];
      if ok {
        anyOk := true;
        assert posts[k].1;
      }
    }
    if anyOk {
      return Sent, posts;
    }
    NothingPosted(posts);
    r := Refused;
  }

  lemma {:induction false} NothingPosted(posts: seq<Post>)
    requires forall i :: 0 <= i < |posts| ==> !posts[i].1
    ensures Posted(posts) == []
  {
    if posts != [] {
      NothingPosted(posts[1..]);
    }
  }
}
