/** Dispatchers, listeners and operators interleaved over one event outbox
    (src/event_delivery.rs, src/replication/event_consumer.rs). Every section
    that holds the database lock is one step; clock readings are step arguments. */
module OutboxSystem {
  import opened Common
  import opened Outbox

  datatype DeliveryConfig = DeliveryConfig(
    maxAttempts: nat,
    retryBase: nat,
    retryMax: nat,
    staleAfter: i64,
    batch: nat,
    retention: int,
    pruneBatch: nat,
    maxRows: nat)

  // -------------------------------------------------------------- retry delays

  function Pow2(n: nat): nat {
    if n == 0 then 1 else 2 * Pow2(n - 1)
  }

  /** `u64::saturating_mul`. */
  function SaturatingMul(a: nat, b: nat): nat {
    if a * b > U64_MAX then U64_MAX else a * b
  }

  /** `as i64` on an unsigned value. */
  function AsI64(n: nat): int {
    if n > I64_MAX then n - 0x1_0000_0000_0000_0000 else n
  }

  function Exponent(attempts: nat): nat {
    if attempts <= 1 then 0 else Min(attempts - 1, 20)
  }

  /** The retry delay in seconds, before the cast. */
  function Delay(cfg: DeliveryConfig, attempts: nat): nat {
    Min(SaturatingMul(cfg.retryBase, Pow2(Exponent(attempts))), cfg.retryMax)
  }

  function AttemptsAllowed(cfg: DeliveryConfig): nat {
    Max(cfg.maxAttempts, 1)
  }

  /** next_attempt_after: when to retry, or never again. */
  function NextAttemptAfter(cfg: DeliveryConfig, attempts: nat, at: int): Option<int> {
    if attempts >= AttemptsAllowed(cfg) then None else Some(Clamp(at + AsI64(Delay(cfg, attempts))))
  }

  // --------------------------------------------------------------------- state

  /** A claimed row, with its attempt count as loaded at the claim. */
  datatype Job = Job(id: nat, attempts: nat)

  /** Where a dispatcher tick is. `outcome` is set once the head of the queue has
      been delivered or refused, and not yet marked. */
  datatype Dispatch =
    | Idle
    | Working(at: int, queue: seq<Job>, outcome: Option<bool>)
    | Pruning(at: int, floor: int, stage: nat)

  /** A listener's pass over the outbox. */
  datatype Drain = Drain(listener: string, cursor: int, ids: Option<seq<nat>>)

  /** What has happened so far; no step reads it. */
  datatype History = History(
    resolved: set<nat>,                // rows once delivered, or failed for good
    requeues: map<nat, nat>,           // how often each failed row was requeued
    posts: map<nat, seq<string>>,      // successful posts of each row, by channel
    handled: map<string, set<nat>>)    // rows each listener has processed

  datatype Sys = Sys(
    rows: Table,
    next: nat,
    cursors: map<string, Cursor>,
    dispatchers: map<nat, Dispatch>,
    drains: map<nat, Drain>,
    h: History)

  /** One post to a channel, and whether it succeeded. */
  type Post = (string, bool)

  datatype DispatchStep =
    | Claim(at: int, claimant: string)
    | DeliverHead(posts: seq<Post>, ok: bool)
    | MarkHead(at: int, written: bool)
    | ComputeFloor(queryOk: bool)
    | PruneNext(runs: bool)
    | FloorPrune(at: int, queryOk: bool)       // the tick of a disabled dispatcher
    | Abandon                                  // the tick dies where it is

  datatype Action =
    | InsertEvents(events: seq<(string, int)>)
    | RequeueFailed(ids: set<nat>, at: int)
    | OperatorPurge(retired: bool, at: int, queryOk: bool)
    | Seed(listener: string, newest: nat, at: int)
    | DrainStart(k: nat, listener: string)
    | DrainRead(k: nat, limit: nat)
    | DrainEnd(k: nat, failed: set<nat>, at: int)
    | DrainAbort(k: nat)
    | Dispatcher(d: nat, cfg: DeliveryConfig, step: DispatchStep)

  // ----------------------------------------------------------------- dispatching

  predicate AnyOk(posts: seq<Post>) {
    exists i :: 0 <= i < |posts| && posts[i].1
  }

  /** One post per channel. */
  ghost predicate DistinctChannels(posts: seq<Post>) {
    forall i, j :: 0 <= i < j < |posts| ==> posts[i].0 != posts[j].0
  }

  function Posted(posts: seq<Post>): seq<string> {
    if posts == [] then []
    else if posts[0].1 then [posts[0].0] + Posted(posts[1..])
    else Posted(posts[1..])
  }

  ghost function PostsOf(posts: map<nat, seq<string>>, id: nat): seq<string> {
    if id in posts then posts[id] else []
  }

  ghost function RequeuesOf(requeues: map<nat, nat>, id: nat): nat {
    if id in requeues then requeues[id] else 0
  }

  ghost predicate DispatchEnabled(s: Sys, d: nat, step: DispatchStep) {
    && d in s.dispatchers
    && var w := s.dispatchers[d];
       match step
       case Claim(at, _) => w.Idle? && 0 <= at <= I64_MAX      // seconds since the epoch
       case DeliverHead(posts, ok) =>
         w.Working? && w.queue != [] && w.outcome.None? && DistinctChannels(posts)
         && (posts != [] ==> ok == AnyOk(posts))
       case MarkHead(_, _) => w.Working? && w.queue != [] && w.outcome.Some?
       case ComputeFloor(_) => w.Working? && w.queue == []
       case PruneNext(_) => w.Pruning?
       case FloorPrune(_, _) => w.Idle?
       case Abandon => true
  }

  /** The jobs of freshly claimed rows. */
  ghost function Jobs(rows: Table, ids: seq<nat>): seq<Job>
    requires forall id :: id in ids ==> id in rows
  {
    seq(|ids|, i requires 0 <= i < |ids| => Job(ids[i], rows[ids[i]].attempts + 1))
  }

  ghost function Doing(s: Sys, d: nat, w: Dispatch): Sys {
    s.(dispatchers := s.dispatchers[d := w])
  }

  ghost function DoClaim(s: Sys, d: nat, cfg: DeliveryConfig, at: int, claimant: string): Sys {
    var ids := DueIds(s.rows, s.next, at, cfg.staleAfter, Max(1, Min(cfg.batch, 500)));
    Doing(s.(rows := ClaimAll(s.rows, AsSet(ids), claimant, at)), d, Working(at, Jobs(s.rows, ids), None))
  }

  ghost function DoDeliver(s: Sys, d: nat, posts: seq<Post>, ok: bool): Sys
    requires d in s.dispatchers && s.dispatchers[d].Working? && s.dispatchers[d].queue != []
  {
    var w := s.dispatchers[d];
    var id := w.queue[0].id;
    Doing(s.(h := s.h.(posts := s.h.posts[id := PostsOf(s.h.posts, id) + Posted(posts)])), d, w.(outcome := Some(ok)))
  }

  ghost function Marked(rows: Table, cfg: DeliveryConfig, job: Job, tick: int, ok: bool, at: int): Table {
    if ok then MarkDelivered(rows, job.id, at)
    else MarkFailed(rows, job.id, "", NextAttemptAfter(cfg, job.attempts, tick))
  }

  ghost function DoMark(s: Sys, d: nat, cfg: DeliveryConfig, at: int, written: bool): Sys
    requires d in s.dispatchers && s.dispatchers[d].Working? && s.dispatchers[d].queue != []
    requires s.dispatchers[d].outcome.Some?
  {
    var w := s.dispatchers[d];
    var job, ok := w.queue[0], w.outcome.value;
    var s1 :=
      if !written then s
      else
        var final := ok || NextAttemptAfter(cfg, job.attempts, w.at).None?;
        s.(rows := Marked(s.rows, cfg, job, w.at, ok, at),
           h := if final then s.h.(resolved := s.h.resolved + {job.id}) else s.h);
    Doing(s1, d, w.(queue := w.queue[1..], outcome := None))
  }

  /** The three prunes of an active tick, in order. */
  ghost function PruneIds(s: Sys, cfg: DeliveryConfig, w: Dispatch): set<nat>
    requires w.Pruning?
  {
    if w.stage == 0 then
      if cfg.retention > 0
      then AsSet(OldDelivered(s.rows, s.next, Clamp(w.at - cfg.retention), cfg.pruneBatch, w.floor))
      else {}
    else if w.stage == 1 then
      AsSet(OldFailed(s.rows, s.next, Clamp(w.at - Max(cfg.retention, FAILED_ROW_MAX_AGE_SECS)), cfg.pruneBatch, w.floor))
    else
      AsSet(OverCount(s.rows, s.next, cfg.maxRows, cfg.pruneBatch, w.floor))
  }

  ghost function DoPrune(s: Sys, d: nat, cfg: DeliveryConfig, runs: bool): Sys
    requires d in s.dispatchers && s.dispatchers[d].Pruning?
  {
    var w := s.dispatchers[d];
    var s1 := if runs then s.(rows := s.rows - PruneIds(s, cfg, w)) else s;
    Doing(s1, d, if w.stage < 2 then w.(stage := w.stage + 1) else Idle)
  }

  /** Dispatchers leave listeners alone. */
  ghost function DoDispatch(s: Sys, d: nat, cfg: DeliveryConfig, step: DispatchStep): (s': Sys)
    requires DispatchEnabled(s, d, step)
    ensures s'.next == s.next && s'.cursors == s.cursors && s'.drains == s.drains && s'.h.handled == s.h.handled
  {
    match step
    case Claim(at, claimant) => DoClaim(s, d, cfg, at, claimant)
    case DeliverHead(posts, ok) => DoDeliver(s, d, posts, ok)
    case MarkHead(at, written) => DoMark(s, d, cfg, at, written)
    case ComputeFloor(queryOk) =>
      var at := s.dispatchers[d].at;
      Doing(s, d, Pruning(at, Floor(s.cursors, at, queryOk), 0))
    case PruneNext(runs) => DoPrune(s, d, cfg, runs)
    case FloorPrune(at, queryOk) =>
      s.(rows := s.rows - AsSet(BelowFloor(s.rows, s.next, Floor(s.cursors, at, queryOk), Max(cfg.pruneBatch, 1))))
    case Abandon => Doing(s, d, Idle)
  }

  // ------------------------------------------------------------ everyone else

  /** insert_many: one transaction, consecutive ids. */
  ghost function Inserted(rows: Table, next: nat, events: seq<(string, int)>): Table
    decreases |events|
  {
    if events == [] then rows
    else Inserted(rows[next := NewRow(events[0].0, events[0].1)], next + 1, events[1..])
  }

  ghost function DoRequeue(s: Sys, ids: set<nat>, at: int): (s': Sys)
    ensures s' == s.(rows := s'.rows, h := s.h.(requeues := s'.h.requeues)) && s'.rows.Keys == s.rows.Keys
  {
    var again := set id | id in ids && id in s.rows && s.rows[id].status == Failed;
    s.(rows := Requeue(s.rows, ids, at),
       h := s.h.(requeues := map id | id in s.h.requeues.Keys + again ::
                   RequeuesOf(s.h.requeues, id) + if id in again then 1 else 0))
  }

  ghost function DoPurge(s: Sys, retired: bool, at: int, queryOk: bool): (s': Sys)
    ensures s' == s.(rows := s'.rows)
  {
    var floor := PurgeFloor(s.cursors, at, retired, queryOk);
    if FailedAbove(s.rows, s.next, floor) != [] then s
    else s.(rows := s.rows - AsSet(AllFailed(s.rows, s.next, floor)))
  }

  ghost function CursorOf(cursors: map<string, Cursor>, l: string): int {
    if l in cursors then cursors[l].last else 0
  }

  ghost function HandledBy(h: History, l: string): set<nat> {
    if l in h.handled then h.handled[l] else {}
  }

  ghost function DoDrainEnd(s: Sys, k: nat, failed: set<nat>, at: int): Sys
    requires k in s.drains && s.drains[k].ids.Some?
  {
    var dr := s.drains[k];
    var n := Handled(dr.ids.value, failed);
    var w := Watermark(dr.ids.value, failed, dr.cursor);
    s.(cursors := if w > dr.cursor then Advance(s.cursors, dr.listener, w, at) else s.cursors,
       drains := s.drains - {k},
       h := s.h.(handled := s.h.handled[dr.listener := HandledBy(s.h, dr.listener) + AsSet(dr.ids.value[..n])]))
  }

  ghost predicate Enabled(s: Sys, a: Action) {
    match a
    case InsertEvents(events) => s.next + |events| <= I64_MAX    // row ids are 64-bit
    case Seed(l, newest, _) => CursorOf(s.cursors, l) == 0 && newest in s.rows && newest > 0
    case DrainStart(k, _) => k !in s.drains
    case DrainRead(k, _) => k in s.drains && s.drains[k].ids.None?
    case DrainEnd(k, _, _) => k in s.drains && s.drains[k].ids.Some?
    case DrainAbort(k) => k in s.drains
    case Dispatcher(d, _, step) => DispatchEnabled(s, d, step)
    case _ => true
  }

  ghost function Do(s: Sys, a: Action): Sys
    requires Enabled(s, a)
  {
    match a
    case InsertEvents(events) => s.(rows := Inserted(s.rows, s.next, events), next := s.next + |events|)
    case RequeueFailed(ids, at) => DoRequeue(s, ids, at)
    case OperatorPurge(retired, at, queryOk) => DoPurge(s, retired, at, queryOk)
    case Seed(l, newest, at) => s.(cursors := Advance(s.cursors, l, newest, at))
    case DrainStart(k, l) => s.(drains := s.drains[k := Drain(l, CursorOf(s.cursors, l), None)])
    case DrainRead(k, limit) =>
      s.(drains := s.drains[k := s.drains[k].(ids := Some(Since(s.rows, s.next, s.drains[k].cursor, limit)))])
    case DrainEnd(k, failed, at) => DoDrainEnd(s, k, failed, at)
    case DrainAbort(k) => s.(drains := s.drains - {k})
    case Dispatcher(d, cfg, step) => DoDispatch(s, d, cfg, step)
  }

  /** An empty outbox. */
  ghost predicate Initial(s: Sys) {
    && s.rows == map[] && s.next == 1 && s.cursors == map[] && s.drains == map[]
    && (forall d :: d in s.dispatchers ==> s.dispatchers[d].Idle?)
    && s.h == History({}, map[], map[], map[])
  }

  ghost predicate IsRun(states: seq<Sys>, acts: seq<Action>) {
    && |states| == |acts| + 1
    && Initial(states[0])
    && forall i :: 0 <= i < |acts| ==> Enabled(states[i], acts[i]) && states[i + 1] == Do(states[i], acts[i])
  }

  /** Some run ends in `s`. */
  ghost predicate Reached(s: Sys) {
    exists states: seq<Sys>, acts: seq<Action> :: IsRun(states, acts) && states[|acts|] == s
  }

  lemma ReachInitial(s: Sys)
    requires Initial(s)
    ensures Reached(s)
  {
    hide Initial, Enabled, Do;
    var states, acts: seq<Action> := [s], [];
    assert IsRun(states, acts) && states[|acts|] == s;
  }

  lemma ReachNext(s: Sys, a: Action)
    requires Reached(s) && Enabled(s, a)
    ensures Reached(Do(s, a))
  {
    hide Initial, Enabled, Do;
    var states: seq<Sys>, acts: seq<Action> :| IsRun(states, acts) && states[|acts|] == s;
    var states', acts' := states + [Do(s, a)], acts + [a];
    forall i | 0 <= i < |acts'|
      ensures Enabled(states'[i], acts'[i]) && states'[i + 1] == Do(states'[i], acts'[i])
    {
      if i < |acts| {
        assert Enabled(states[i], acts[i]) && states[i + 1] == Do(states[i], acts[i]);
      }
    }
    assert states'[0] == states[0];
    assert IsRun(states', acts') && states'[|acts'|] == Do(s, a);
  }

  // ---------------------------------------------------------------- what rows do

  lemma {:induction false} InsertedRows(rows: Table, next: nat, events: seq<(string, int)>)
    ensures var t := Inserted(rows, next, events);
            && (forall id :: id in t <==> id in rows || next <= id < next + |events|)
            && (forall id :: id in rows && !(next <= id < next + |events|) ==> t[id] == rows[id])
            && (forall i :: 0 <= i < |events| ==> t[next + i] == NewRow(events[i].0, events[i].1))
    decreases |events|
  {
    if events != [] {
      var rows1 := rows[next := NewRow(events[0].0, events[0].1)];
      InsertedRows(rows1, next + 1, events[1..]);
      var t := Inserted(rows1, next + 1, events[1..]);
      forall i | 0 <= i < |events|
        ensures t[next + i] == NewRow(events[i].0, events[i].1)
      {
        if i > 0 {
          assert t[next + 1 + (i - 1)] == NewRow(events[1..][i - 1].0, events[1..][i - 1].1);
        }
      }
    }
  }

  /** Ids already given out. */
  ghost predicate IdsInv(s: Sys) {
    && 1 <= s.next <= I64_MAX
    && (forall id :: id in s.rows ==> 1 <= id < s.next)
  }

  lemma StepKeepsIds(s: Sys, a: Action)
    requires IdsInv(s) && Enabled(s, a)
    ensures IdsInv(Do(s, a)) && Do(s, a).next >= s.next
  {
    hide DueIds, BelowFloor, Floor, PruneIds, OldDelivered, NextAttemptAfter, AllFailed, Handled, Since, Clamp, Max;
    if a.InsertEvents? {
      InsertedRows(s.rows, s.next, a.events);
    }
  }

  lemma {:induction false} IdsAlways(states: seq<Sys>, acts: seq<Action>, i: nat)
    requires IsRun(states, acts) && i < |states|
    ensures IdsInv(states[i])
    decreases i
  {
    if i > 0 {
      hide Do, Enabled;
      IdsAlways(states, acts, i - 1);
      StepKeepsIds(states[i - 1], acts[i - 1]);
    }
  }
}
