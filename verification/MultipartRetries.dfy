/** Complete is idempotent under retries: from the moment an upload is finished
    until its success tombstone expires, the same request is never run again. */
module MultipartRetries {
  import opened Common
  import opened MultipartModel
  import opened MultipartSystem
  import opened MultipartProtocol

  /** The publisher is alive and has not yet settled its slot. */
  ghost predicate PrePublish(stage: Stage) {
    Live(stage) || stage.Dropping?
  }

  ghost predicate OwnsSlot(slots: map<UploadId, Slot>, id: UploadId, c: nat) {
    id in slots && slots[id].InFlight? && slots[id].channel == c
  }

  /** Every unsettled publisher of `id` still has its in-flight slot. */
  ghost predicate SlotsOwned(slots: map<UploadId, Slot>, tasks: map<nat, Task>, id: UploadId) {
    forall c :: c in tasks && tasks[c].id == id && PrePublish(tasks[c].stage) ==> OwnsSlot(slots, id, c)
  }

  /** The tombstone of `id` has outlived its time. */
  ghost predicate Lapsed(tombstones: map<UploadId, int>, id: UploadId, now: int) {
    id in tombstones && now - tombstones[id] >= COMPLETION_TOMBSTONE_TTL
  }

  ghost predicate TombstoneOf(slots: map<UploadId, Slot>, t: Task) {
    && t.id in slots && slots[t.id].Done?
    && slots[t.id].fingerprint == t.req && slots[t.id].bucket == t.bucket && slots[t.id].key == t.key
  }

  /** The task that finished `id` is about to publish, or its tombstone stands,
      or the tombstone has lapsed. */
  ghost predicate Remembered(slots: map<UploadId, Slot>, t: Task, tombstones: map<UploadId, int>, now: int) {
    || (t.stage.Publishing? && t.stage.outcome.Some?)
    || Lapsed(tombstones, t.id, now)
    || (TombstoneOf(slots, t) && t.id in tombstones && slots[t.id].at == tombstones[t.id])
  }

  ghost predicate FinisherRemembered(slots: map<UploadId, Slot>, tasks: map<nat, Task>, h: History, now: int, id: UploadId) {
    id in h.finished ==>
      && h.finished[id] in tasks
      && tasks[h.finished[id]].id == id
      && Remembered(slots, tasks[h.finished[id]], h.tombstones, now)
  }

  /** A success about to be published is that of the finisher. */
  ghost predicate PublishersFinished(tasks: map<nat, Task>, finished: map<UploadId, nat>, id: UploadId) {
    forall c :: c in tasks && tasks[c].id == id && tasks[c].stage.Publishing? && tasks[c].stage.outcome.Some? ==>
      id in finished && finished[id] == c
  }

  ghost predicate RetryInv(s: Sys, id: UploadId) {
    && SlotsOwned(s.st.slots, s.tasks, id)
    && FinisherRemembered(s.st.slots, s.tasks, s.h, s.now, id)
    && PublishersFinished(s.tasks, s.h.finished, id)
    && (id in s.h.finished ==> !HeldBy(s.tasks, id) && id !in s.st.uploads && id in s.h.used)
  }

  /** The premise: a prune does not drop the in-flight slot of `id` for its age,
      and the task that finished `id` does not die before it has published. */
  ghost predicate Benign(s: Sys, a: Action, id: UploadId) {
    match a
    case Sweep(step) =>
      step.PruneSlots? && id in s.st.slots && s.st.slots[id].InFlight? ==>
        var age := s.now - s.st.slots[id].startedAt;
        age < COMPLETION_TOMBSTONE_TTL || age < 2 * step.completingTimeout
    case TaskMoves(c, step) =>
      step.Crash? && c in s.tasks && s.tasks[c].id == id && s.tasks[c].stage.Publishing? ==>
        s.tasks[c].stage.outcome.None?
    case _ => true
  }

  // ---------------------------------------------------------------------- steps

  lemma RetryClient(cfg: Config, s: Sys, a: ClientStep, id: UploadId)
    requires RetryInv(s, id) && ChannelInv(s.tasks, s.channels) && ClientEnabled(s, a)
    ensures RetryInv(DoClient(cfg, s, a), id)
  {
    hide SlotsOwned, FinisherRemembered, PublishersFinished, HeldBy;
    if a.Begin? {
      RetryBegin(s, a.id, a.bucket, a.key, a.req, id);
    } else {
      hide DoClient;
      ClientEffect(cfg, s, a);
      RememberedSameHistory(s, DoClient(cfg, s, a), id);
    }
  }

  /** Only slots, tasks, finished uploads, tombstones and the clock matter. */
  lemma RememberedSameHistory(s: Sys, s': Sys, id: UploadId)
    requires FinisherRemembered(s.st.slots, s.tasks, s.h, s.now, id)
    requires s'.st.slots == s.st.slots && s'.tasks == s.tasks && s'.now >= s.now
    requires s'.h.finished == s.h.finished && s'.h.tombstones == s.h.tombstones
    ensures FinisherRemembered(s'.st.slots, s'.tasks, s'.h, s'.now, id)
  {
  }

  lemma RetryBegin(s: Sys, i: UploadId, bucket: string, key: string, req: PartList, id: UploadId)
    requires RetryInv(s, id) && ChannelInv(s.tasks, s.channels)
    ensures RetryInv(DoBegin(s, i, bucket, key, req), id)
  {
    hide SlotsOwned, FinisherRemembered, PublishersFinished, HeldBy, Answer;
    var s' := DoBegin(s, i, bucket, key, req);
    if i in s.st.slots {
      BeginKnown(s, i, bucket, key, req);
      RememberedSameHistory(s, s', id);
    } else {
      NewOwner(s.st.slots, s.tasks, s.h, s.now, |s.channels|, Task(i, bucket, key, req, Admitted), id);
    }
  }

  /** A Complete for an id with a slot adds at most a waiter or an answer. */
  lemma BeginKnown(s: Sys, i: UploadId, bucket: string, key: string, req: PartList)
    requires i in s.st.slots
    ensures var s' := DoBegin(s, i, bucket, key, req);
            s' == s.(waiters := s'.waiters, h := s.h.(responses := s'.h.responses))
  {
  }

  lemma NewOwner(slots: map<UploadId, Slot>, tasks: map<nat, Task>, h: History, now: int, c: nat, t: Task, id: UploadId)
    requires SlotsOwned(slots, tasks, id) && FinisherRemembered(slots, tasks, h, now, id)
    requires PublishersFinished(tasks, h.finished, id)
    requires c !in tasks && t.id !in slots && t.stage.Admitted?
    ensures var slots' := slots[t.id := InFlight(t.req, c, now)];
            && SlotsOwned(slots', tasks[c := t], id)
            && FinisherRemembered(slots', tasks[c := t], h, now, id)
            && PublishersFinished(tasks[c := t], h.finished, id)
            && (HeldBy(tasks[c := t], id) ==> HeldBy(tasks, id))
  {
  }

  lemma RetrySweep(cfg: Config, s: Sys, a: SweepStep, id: UploadId)
    requires RetryInv(s, id) && SweepEnabled(s, a) && Benign(s, Sweep(a), id)
    ensures RetryInv(DoSweep(cfg, s, a), id)
  {
  }

  /** The histories agree on `id`. */
  ghost predicate SameHistory(h: History, h': History, id: UploadId) {
    && (id in h.finished <==> id in h'.finished)
    && (id in h.finished ==> h'.finished[id] == h.finished[id])
    && (id in h.tombstones <==> id in h'.tombstones)
    && (id in h.tombstones ==> h'.tombstones[id] == h.tombstones[id])
  }

  ghost predicate SameSlot(slots: map<UploadId, Slot>, slots': map<UploadId, Slot>, id: UploadId) {
    (id in slots <==> id in slots') && (id in slots ==> slots'[id] == slots[id])
  }

  /** A task of another upload changes nothing, nor does one that has no success
      to publish and either keeps its slot or had none. */
  lemma TaskMovesOn(slots: map<UploadId, Slot>, slots': map<UploadId, Slot>, tasks: map<nat, Task>, c: nat, t: Task,
                    h: History, h': History, now: int, id: UploadId)
    requires SlotsOwned(slots, tasks, id) && FinisherRemembered(slots, tasks, h, now, id)
    requires PublishersFinished(tasks, h.finished, id)
    requires c in tasks && t == tasks[c].(stage := t.stage)
    requires SameSlot(slots, slots', id) && SameHistory(h, h', id)
    requires t.id == id ==>
               && (PrePublish(t.stage) ==> PrePublish(tasks[c].stage))
               && (t.stage.Publishing? ==> t.stage.outcome.None?)
               && (tasks[c].stage.Publishing? ==> tasks[c].stage.outcome.None?)
    ensures SlotsOwned(slots', tasks[c := t], id)
    ensures FinisherRemembered(slots', tasks[c := t], h', now, id)
    ensures PublishersFinished(tasks[c := t], h'.finished, id)
  {
  }

  /** The finisher is about to publish. */
  lemma FinishRemembers(slots: map<UploadId, Slot>, tasks: map<nat, Task>, c: nat, t: Task, h: History, h': History, now: int, id: UploadId)
    requires SlotsOwned(slots, tasks, id) && PublishersFinished(tasks, h.finished, id) && id !in h.finished
    requires c in tasks && t == tasks[c].(stage := t.stage) && t.id == id && PrePublish(tasks[c].stage)
    requires t.stage.Publishing? && t.stage.outcome.Some?
    requires id in h'.finished && h'.finished[id] == c
    ensures SlotsOwned(slots, tasks[c := t], id)
    ensures FinisherRemembered(slots, tasks[c := t], h', now, id)
    ensures PublishersFinished(tasks[c := t], h'.finished, id)
  {
  }

  /** The finisher publishes: the tombstone replaces its in-flight slot. */
  lemma PublishRemembers(slots: map<UploadId, Slot>, tasks: map<nat, Task>, c: nat, t: Task, slot: Slot, h: History, h': History, now: int, id: UploadId)
    requires SlotsOwned(slots, tasks, id) && PublishersFinished(tasks, h.finished, id)
    requires c in tasks && t == tasks[c].(stage := t.stage) && t.id == id && t.stage.Sending?
    requires tasks[c].stage.Publishing? && tasks[c].stage.outcome.Some?
    requires slot.Done? && slot.fingerprint == t.req && slot.bucket == t.bucket && slot.key == t.key && slot.at == now
    requires h' == h.(tombstones := h.tombstones[id := now])
    ensures SlotsOwned(slots[id := slot], tasks[c := t], id)
    ensures FinisherRemembered(slots[id := slot], tasks[c := t], h', now, id)
    ensures PublishersFinished(tasks[c := t], h'.finished, id)
  {
  }

  /** An owner without a success gives its slot up. */
  lemma FailureForgets(slots: map<UploadId, Slot>, tasks: map<nat, Task>, c: nat, t: Task, h: History, now: int, id: UploadId)
    requires SlotsOwned(slots, tasks, id) && FinisherRemembered(slots, tasks, h, now, id)
    requires PublishersFinished(tasks, h.finished, id)
    requires c in tasks && t == tasks[c].(stage := t.stage) && t.id == id && t.stage.Sending?
    requires PrePublish(tasks[c].stage) && (tasks[c].stage.Publishing? ==> tasks[c].stage.outcome.None?)
    ensures SlotsOwned(slots - {id}, tasks[c := t], id)
    ensures FinisherRemembered(slots - {id}, tasks[c := t], h, now, id)
    ensures PublishersFinished(tasks[c := t], h.finished, id)
  {
  }

  lemma HeldByOthers(tasks: map<nat, Task>, c: nat, t: Task, id: UploadId)
    requires Exclusive(tasks) && c in tasks && t.id == tasks[c].id
    requires Holding(t) ==> Holding(tasks[c]) || t.id != id
    ensures HeldBy(tasks[c := t], id) ==> HeldBy(tasks, id)
    ensures t.id == id && Holding(tasks[c]) && !Holding(t) ==> !HeldBy(tasks[c := t], id)
  {
  }

  lemma RetrySettle(s: Sys, c: nat, dirGone: bool, id: UploadId)
    requires RetryInv(s, id) && HoldSys(s) && c in s.tasks && s.tasks[c].stage.Stored?
    ensures RetryInv(DoSettle(s, c, dirGone), id)
  {
    hide Finish, SlotsOwned, FinisherRemembered, PublishersFinished, Exclusive;
    var t := s.tasks[c];
    var s' := DoSettle(s, c, dirGone);
    assert Holds(t, t.id);
    HeldByOthers(s.tasks, c, s'.tasks[c], id);
    if t.stage.ok && t.id == id {
      FinishRemembers(s.st.slots, s.tasks, c, s'.tasks[c], s.h, s'.h, s.now, id);
    } else {
      TaskMovesOn(s.st.slots, s'.st.slots, s.tasks, c, s'.tasks[c], s.h, s'.h, s.now, id);
    }
  }

  lemma RetryPublish(s: Sys, c: nat, id: UploadId)
    requires RetryInv(s, id) && HoldSys(s) && c in s.tasks && s.tasks[c].stage.Publishing?
    ensures RetryInv(DoPublish(s, c), id)
  {
    hide SlotsOwned, FinisherRemembered, PublishersFinished, Exclusive, HeldBy;
    var t := s.tasks[c];
    var s' := DoPublish(s, c);
    HeldByOthers(s.tasks, c, s'.tasks[c], id);
    if t.id != id {
      TaskMovesOn(s.st.slots, s'.st.slots, s.tasks, c, s'.tasks[c], s.h, s'.h, s.now, id);
    } else if t.stage.outcome.Some? {
      PublishRemembers(s.st.slots, s.tasks, c, s'.tasks[c], s'.st.slots[id], s.h, s'.h, s.now, id);
    } else {
      FailureForgets(s.st.slots, s.tasks, c, s'.tasks[c], s.h, s.now, id);
    }
  }

  lemma RetryTask(cfg: Config, s: Sys, c: nat, a: TaskStep, id: UploadId)
    requires RetryInv(s, id) && HoldSys(s) && TaskEnabled(s, c, a) && Benign(s, TaskMoves(c, a), id)
    ensures RetryInv(DoTask(cfg, s, c, a), id)
  {
    hide SlotsOwned, FinisherRemembered, PublishersFinished, Exclusive, HeldBy, DoValidate, DoSettle, DoPublish, SetStoring;
    var s' := DoTask(cfg, s, c, a);
    match a {
      case Settle(dirGone) => RetrySettle(s, c, dirGone, id);
      case PublishSlot => RetryPublish(s, c, id);
      case Validate(passthrough) => RetryValidate(cfg, s, c, passthrough, id);
      case TakeGuard => RetryGuard(s, s', c, true, id);
      case DropGuard => RetryGuard(s, s', c, false, id);
      case ClearOwnSlot =>
        HeldByOthers(s.tasks, c, s'.tasks[c], id);
        if s.tasks[c].id == id {
          FailureForgets(s.st.slots, s.tasks, c, s'.tasks[c], s.h, s.now, id);
        } else {
          TaskMovesOn(s.st.slots, s'.st.slots, s.tasks, c, s'.tasks[c], s.h, s'.h, s.now, id);
        }
      case _ =>
        HeldByOthers(s.tasks, c, s'.tasks[c], id);
        TaskMovesOn(s.st.slots, s'.st.slots, s.tasks, c, s'.tasks[c], s.h, s'.h, s.now, id);
    }
  }

  lemma RetryValidate(cfg: Config, s: Sys, c: nat, passthrough: bool, id: UploadId)
    requires RetryInv(s, id) && HoldSys(s) && c in s.tasks && s.tasks[c].stage.Admitted?
    ensures RetryInv(DoValidate(cfg, s, c, passthrough), id)
  {
    hide SlotsOwned, FinisherRemembered, PublishersFinished, DoValidate;
    ValidateEffect(cfg, s, c, passthrough);
    var s' := DoValidate(cfg, s, c, passthrough);
    TaskMovesOn(s.st.slots, s'.st.slots, s.tasks, c, s'.tasks[c], s.h, s'.h, s.now, id);
    if id in s.h.finished {
      HeldByOthers(s.tasks, c, s'.tasks[c], id);
    }
  }

  lemma RetryGuard(s: Sys, s': Sys, c: nat, flag: bool, id: UploadId)
    requires RetryInv(s, id) && HoldSys(s) && c in s.tasks
    requires Guards(s.tasks[c]) || s.tasks[c].stage.Storing?
    requires s' == s.(st := SetStoring(s.st, s.tasks[c].id, flag), tasks := s'.tasks)
    requires c in s'.tasks && s'.tasks == s.tasks[c := s.tasks[c].(stage := s'.tasks[c].stage)]
    requires PrePublish(s'.tasks[c].stage) && !s'.tasks[c].stage.Publishing?
    requires Holding(s'.tasks[c]) <==> Holding(s.tasks[c])
    ensures RetryInv(s', id)
  {
    hide SlotsOwned, FinisherRemembered, PublishersFinished, Exclusive, HeldBy;
    HeldByOthers(s.tasks, c, s'.tasks[c], id);
    TaskMovesOn(s.st.slots, s'.st.slots, s.tasks, c, s'.tasks[c], s.h, s'.h, s.now, id);
  }

  lemma RetryStep(cfg: Config, s: Sys, a: Action, id: UploadId)
    requires RetryInv(s, id) && ProtocolInv(s) && Enabled(s, a) && Benign(s, a, id)
    ensures RetryInv(Do(cfg, s, a), id)
  {
    hide RetryInv, WinSys, DoClient, DoTask, DoSweep, HoldInv;
    match a {
      case Tick(d) => RetryTick(s, d, id);
      case Client(step) => RetryClient(cfg, s, step, id);
      case Sweep(step) => RetrySweep(cfg, s, step, id);
      case TaskMoves(c, step) => RetryTask(cfg, s, c, step, id);
    }
  }

  lemma RetryTick(s: Sys, d: nat, id: UploadId)
    requires RetryInv(s, id)
    ensures RetryInv(s.(now := s.now + d), id)
  {
  }

  // -------------------------------------------------------------------- theorem

  lemma {:induction false} RetryAlways(cfg: Config, states: seq<Sys>, acts: seq<Action>, i: nat, id: UploadId)
    requires IsRun(cfg, states, acts) && i < |states|
    requires forall j :: 0 <= j < i ==> Benign(states[j], acts[j], id)
    ensures RetryInv(states[i], id)
  {
    hide RetryInv, ProtocolInv, Benign;
    if i == 0 {
      RetryInitial(states[0], id);
    } else {
      RetryAlways(cfg, states, acts, i - 1, id);
      ProtocolAlways(cfg, states, acts, i - 1);
      RetryStep(cfg, states[i - 1], acts[i - 1], id);
    }
  }

  lemma RetryInitial(s: Sys, id: UploadId)
    requires Initial(s)
    ensures RetryInv(s, id)
  {
  }

  /** As long as the in-flight slot of `id` does not age out, and the finishing
      task lives to publish: from the moment `id` is finished until its tombstone
      lapses, an identical Complete joins the finishing task or is answered with
      its ETag, and never becomes an owner. */
  lemma RetryNeverRestarts(cfg: Config, states: seq<Sys>, acts: seq<Action>, i: nat, id: UploadId)
    requires IsRun(cfg, states, acts) && i < |states|
    requires forall j :: 0 <= j < i ==> Benign(states[j], acts[j], id)
    requires id in states[i].h.finished && !Lapsed(states[i].h.tombstones, id, states[i].now)
    ensures var s := states[i];
            var c := s.h.finished[id];
            && c in s.tasks
            && var t := s.tasks[c];
               var r := BeginComplete(s.st, id, t.bucket, t.key, t.req, |s.channels|, s.now).1;
               && |Wins(s, id)| == 1
               && (r == Ok(Join(c)) || r == Ok(AlreadyDone(Wins(s, id)[0].etag)))
               && (r == Ok(Join(c)) ==> t.stage == Publishing(Some(Wins(s, id)[0].etag)))
  {
    RetryAlways(cfg, states, acts, i, id);
    ProtocolAlways(cfg, states, acts, i);
    var s := states[i];
    WinOf(s, s.h.finished[id]);
    hide TasksWin, AnswersWin, HoldInv, ChannelInv;
    if id in s.st.slots {
      assert SlotWins(id, s.st.slots[id], s.tasks, s.h.wins);
    }
  }

  /** Wherever a prune breaks the premise, the next Complete becomes an owner. */
  lemma AgedSlotRestarts(cfg: Config, s: Sys, timeout: nat, id: UploadId, bucket: string, key: string, req: PartList)
    requires !Benign(s, Sweep(PruneSlots(timeout)), id)
    ensures var s1 := Do(cfg, s, Sweep(PruneSlots(timeout)));
            BeginComplete(s1.st, id, bucket, key, req, |s1.channels|, s1.now).1 == Ok(Owner)
  {
  }

  /** Wherever a crash breaks the premise, the next Complete after the dying task
      has let go of its slot becomes an owner. */
  lemma CrashedPublisherRestarts(cfg: Config, s: Sys, c: nat, id: UploadId, bucket: string, key: string, req: PartList)
    requires Enabled(s, TaskMoves(c, Crash)) && !Benign(s, TaskMoves(c, Crash), id)
    ensures var s1 := Do(cfg, s, TaskMoves(c, Crash));
            Enabled(s1, TaskMoves(c, ClearOwnSlot)) &&
            var s2 := Do(cfg, s1, TaskMoves(c, ClearOwnSlot));
            BeginComplete(s2.st, id, bucket, key, req, |s2.channels|, s2.now).1 == Ok(Owner)
  {
  }

  /** A prune drops a tombstone exactly when its time is over, and an in-flight
      slot exactly when it is older than both its bounds. */
  lemma PruneTakesExactly(cfg: Config, s: Sys, timeout: nat, id: UploadId)
    requires id in s.st.slots
    ensures var slots' := Do(cfg, s, Sweep(PruneSlots(timeout))).st.slots;
            && (id in slots' ==> slots'[id] == s.st.slots[id])
            && (id !in slots' <==>
                  match s.st.slots[id]
                  case Done(_, _, _, _, at) => s.now - at >= COMPLETION_TOMBSTONE_TTL
                  case InFlight(_, _, startedAt) =>
                    s.now - startedAt >= COMPLETION_TOMBSTONE_TTL && s.now - startedAt >= 2 * timeout)
  {
  }

  /** Under the same premises a Complete with other parts, or for another bucket or
      key once the success is published, is refused and starts nothing. */
  lemma OtherRequestsAreRefused(cfg: Config, states: seq<Sys>, acts: seq<Action>, i: nat, id: UploadId, bucket: string, key: string, req: PartList)
    requires IsRun(cfg, states, acts) && i < |states|
    requires forall j :: 0 <= j < i ==> Benign(states[j], acts[j], id)
    requires id in states[i].h.finished && !Lapsed(states[i].h.tombstones, id, states[i].now)
    ensures var s := states[i];
            && s.h.finished[id] in s.tasks
            && var t := s.tasks[s.h.finished[id]];
               var r := BeginComplete(s.st, id, bucket, key, req, |s.channels|, s.now);
               && r.0 == s.st
               && (t.stage.Publishing? && req != t.req ==> r.1 == Err(InvalidRequest))
               && (!t.stage.Publishing? && (req != t.req || bucket != t.bucket || key != t.key) ==> r.1 == Err(InvalidPart))
  {
    RetryAlways(cfg, states, acts, i, id);
    ProtocolAlways(cfg, states, acts, i);
    SlotOfFinisher(states[i], id);
    hide ProtocolInv, RetryInv;
  }

  /** The slot of a finished upload is that of its finisher. */
  lemma SlotOfFinisher(s: Sys, id: UploadId)
    requires RetryInv(s, id) && ProtocolInv(s) && id in s.h.finished && !Lapsed(s.h.tombstones, id, s.now)
    ensures var c := s.h.finished[id];
            && c in s.tasks && id in s.st.slots && s.st.slots[id].fingerprint == s.tasks[c].req
            && (s.tasks[c].stage.Publishing? <==> s.st.slots[id].InFlight?)
            && (s.st.slots[id].Done? ==> s.st.slots[id].bucket == s.tasks[c].bucket && s.st.slots[id].key == s.tasks[c].key)
  {
    hide TasksWin, AnswersWin, HoldInv, ChannelInv;
    if id in s.st.slots {
      assert SlotWins(id, s.st.slots[id], s.tasks, s.h.wins);
    }
  }

  // ------------------------------------------------------------ after a failure

  /** No completion of `id` is under way or remembered. */
  ghost predicate Free(s: Sys, id: UploadId) {
    id !in s.st.slots && forall c :: c in s.tasks && s.tasks[c].id == id ==> !PrePublish(s.tasks[c].stage)
  }

  /** The step in which a completion that did not succeed lets go of its slot: it
      publishes its failure, or its publisher is dropped. */
  ghost predicate Fails(s: Sys, a: Action, id: UploadId) {
    && a.TaskMoves? && a.c in s.tasks && s.tasks[a.c].id == id
    && ((a.move.PublishSlot? && s.tasks[a.c].stage == Publishing(None)) || a.move.ClearOwnSlot?)
  }

  lemma FailureFrees(cfg: Config, s: Sys, a: Action, id: UploadId)
    requires SlotsOwned(s.st.slots, s.tasks, id) && Enabled(s, a) && Fails(s, a, id)
    ensures Free(Do(cfg, s, a), id)
  {
    SoleOwner(s.st.slots, s.tasks, a.c, id);
  }

  lemma SoleOwner(slots: map<UploadId, Slot>, tasks: map<nat, Task>, c: nat, id: UploadId)
    requires SlotsOwned(slots, tasks, id) && c in tasks && tasks[c].id == id && PrePublish(tasks[c].stage)
    ensures forall d :: d in tasks && tasks[d].id == id && PrePublish(tasks[d].stage) ==> d == c
  {
    assert OwnsSlot(slots, id, c);
  }

  ghost predicate Begins(a: Action, id: UploadId) {
    a.Client? && a.client.Begin? && a.client.id == id
  }

  lemma FreeBegin(s: Sys, i: UploadId, bucket: string, key: string, req: PartList, id: UploadId)
    requires Free(s, id) && ChannelInv(s.tasks, s.channels) && i != id
    ensures Free(DoBegin(s, i, bucket, key, req), id)
  {
  }

  lemma FreeTask(cfg: Config, s: Sys, c: nat, a: TaskStep, id: UploadId)
    requires Free(s, id) && TaskEnabled(s, c, a)
    ensures Free(DoTask(cfg, s, c, a), id)
  {
    hide DoTask, TaskEnabled;
    TaskAddsSlot(cfg, s, c, a, id);
    StageGoesOn(cfg, s, c, a);
  }

  /** Only a publisher puts a slot in place. */
  lemma TaskAddsSlot(cfg: Config, s: Sys, c: nat, a: TaskStep, id: UploadId)
    requires TaskEnabled(s, c, a) && id !in s.st.slots
    ensures c in s.tasks && (id in DoTask(cfg, s, c, a).st.slots ==> s.tasks[c].id == id && PrePublish(s.tasks[c].stage))
  {
    hide DoValidate, DoStoreReturns, DoDropGuard, DoSettle, DoPublish, DoCrash, DoSend;
    match a {
      case Validate(passthrough) => ValidateEffect(cfg, s, c, passthrough);
      case StoreReturns(ok) => SlotsAfterReturn(s, c, ok);
      case DropGuard => SlotsAfterDrop(s, c);
      case Settle(dirGone) => SlotsAfterSettle(s, c, dirGone);
      case PublishSlot => SlotsAfterPublish(s, c);
      case Crash => SlotsAfterCrash(s, c);
      case Send => SlotsAfterSend(s, c);
      case _ =>
    }
  }

  lemma SlotsAfterReturn(s: Sys, c: nat, ok: bool)
    requires TaskEnabled(s, c, StoreReturns(ok))
    ensures DoStoreReturns(s, c, ok).st.slots == s.st.slots
  {
  }

  lemma SlotsAfterDrop(s: Sys, c: nat)
    requires TaskEnabled(s, c, DropGuard)
    ensures DoDropGuard(s, c).st.slots == s.st.slots
  {
  }

  lemma SlotsAfterSettle(s: Sys, c: nat, dirGone: bool)
    requires TaskEnabled(s, c, Settle(dirGone))
    ensures DoSettle(s, c, dirGone).st.slots == s.st.slots
  {
    hide Finish;
  }

  lemma SlotsAfterPublish(s: Sys, c: nat)
    requires TaskEnabled(s, c, PublishSlot)
    ensures DoPublish(s, c).st.slots.Keys <= s.st.slots.Keys + {s.tasks[c].id}
  {
    hide Publish;
    var t := s.tasks[c];
    PublishAddsOwn(s.st, t.id, t.req, t.bucket, t.key, t.stage.outcome, s.now);
  }

  lemma PublishAddsOwn(st: Store, id: UploadId, req: PartList, bucket: string, key: string, etag: Option<string>, now: int)
    ensures Publish(st, id, req, bucket, key, etag, now).slots.Keys <= st.slots.Keys + {id}
  {
  }

  lemma SlotsAfterCrash(s: Sys, c: nat)
    requires TaskEnabled(s, c, Crash)
    ensures DoCrash(s, c).st.slots == s.st.slots
  {
  }

  lemma SlotsAfterSend(s: Sys, c: nat)
    requires TaskEnabled(s, c, Send)
    ensures DoSend(s, c).st.slots == s.st.slots
  {
  }

  /** A task that has let go of its slot does not get it back. */
  lemma StageGoesOn(cfg: Config, s: Sys, c: nat, a: TaskStep)
    requires TaskEnabled(s, c, a)
    ensures c in s.tasks && c in DoTask(cfg, s, c, a).tasks
    ensures PrePublish(DoTask(cfg, s, c, a).tasks[c].stage) ==> PrePublish(s.tasks[c].stage)
  {
    hide DoValidate, Finish, SetStoring, Rollback, Publish, ClearSlot;
  }

  lemma FreeStep(cfg: Config, s: Sys, a: Action, id: UploadId)
    requires Free(s, id) && ProtocolInv(s) && Enabled(s, a) && !Begins(a, id)
    ensures Free(Do(cfg, s, a), id)
  {
    hide DoTask, DoClient, DoSweep, WinSys, HoldInv;
    match a {
      case Client(step) =>
        if step.Begin? {
          FreeBeginStep(cfg, s, step, id);
        } else {
          ClientEffect(cfg, s, step);
        }
      case TaskMoves(c, step) => FreeTask(cfg, s, c, step, id);
      case Sweep(step) => FreeSweep(cfg, s, step, id);
      case Tick(_) =>
    }
  }

  lemma FreeSweep(cfg: Config, s: Sys, a: SweepStep, id: UploadId)
    requires Free(s, id) && SweepEnabled(s, a)
    ensures Free(DoSweep(cfg, s, a), id)
  {
    hide PrePublish, ExpiredIds;
  }

  lemma FreeBeginStep(cfg: Config, s: Sys, a: ClientStep, id: UploadId)
    requires Free(s, id) && ChannelInv(s.tasks, s.channels) && a.Begin? && a.id != id
    ensures Free(DoClient(cfg, s, a), id)
  {
    FreeBegin(s, a.id, a.bucket, a.key, a.req, id);
  }

  lemma {:induction false} FreeThroughout(cfg: Config, states: seq<Sys>, acts: seq<Action>, i: nat, j: nat, id: UploadId)
    requires IsRun(cfg, states, acts) && i <= j < |states| && Free(states[i], id)
    requires forall k :: i <= k < j ==> !Begins(acts[k], id)
    ensures Free(states[j], id)
    decreases j
  {
    hide Do, Enabled, Initial, ProtocolInv, Free;
    if i < j {
      FreeThroughout(cfg, states, acts, i, j - 1, id);
      ProtocolAlways(cfg, states, acts, j - 1);
      FreeStep(cfg, states[j - 1], acts[j - 1], id);
    }
  }

  /** Once a completion has failed and let go, and until the next one begins, every
      Complete of that upload, corrected or not, becomes an owner at once. */
  lemma FailureCanBeRetried(cfg: Config, states: seq<Sys>, acts: seq<Action>, i: nat, j: nat, id: UploadId,
                            bucket: string, key: string, req: PartList)
    requires IsRun(cfg, states, acts) && i < j < |states|
    requires forall k :: 0 <= k < i ==> Benign(states[k], acts[k], id)
    requires Fails(states[i], acts[i], id)
    requires forall k :: i < k < j ==> !Begins(acts[k], id)
    ensures BeginComplete(states[j].st, id, bucket, key, req, |states[j].channels|, states[j].now).1 == Ok(Owner)
  {
    hide Do, Enabled, Initial, Benign, Fails, SlotsOwned;
    RetryAlways(cfg, states, acts, i, id);
    FailureFrees(cfg, states[i], acts[i], id);
    assert states[i + 1] == Do(cfg, states[i], acts[i]);
    FreeThroughout(cfg, states, acts, i + 1, j, id);
  }
}
