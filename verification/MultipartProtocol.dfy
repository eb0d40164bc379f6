/** The completion protocol in every interleaving: one task at a time holds an
    upload, at most one store per upload id succeeds, and every successful
    answer carries that store's ETag. */
module MultipartProtocol {
  import opened Common
  import opened MultipartModel
  import opened MultipartSystem

  // ------------------------------------------------------------------- holding

  ghost predicate Holding(t: Task) {
    Holds(t, t.id)
  }

  /** No two tasks hold the same upload, even one already swept away. */
  ghost predicate Exclusive(tasks: map<nat, Task>) {
    forall c, d :: c in tasks && d in tasks && Holding(tasks[c]) && Holding(tasks[d]) && tasks[c].id == tasks[d].id
                   ==> c == d
  }

  ghost predicate CompletingIf(uploads: map<UploadId, Upload>, id: UploadId) {
    id in uploads ==> uploads[id].phase == Completing
  }

  ghost predicate HeldBy(tasks: map<nat, Task>, id: UploadId) {
    exists c :: c in tasks && Holds(tasks[c], id)
  }

  /** A tracked upload is Completing exactly while a task holds it, or after the
      task that held it died. */
  ghost predicate HoldInv(uploads: map<UploadId, Upload>, tasks: map<nat, Task>, used: set<UploadId>, orphaned: set<UploadId>) {
    && Exclusive(tasks)
    && uploads.Keys <= used
    && orphaned <= used
    && (forall c :: c in tasks && Holding(tasks[c]) ==>
          tasks[c].id in used && tasks[c].id !in orphaned && CompletingIf(uploads, tasks[c].id))
    && (forall id :: id in orphaned ==> CompletingIf(uploads, id))
    && (forall id :: id in uploads && uploads[id].phase == Completing ==> id in orphaned || HeldBy(tasks, id))
  }

  ghost predicate HoldSys(s: Sys) {
    HoldInv(s.st.uploads, s.tasks, s.h.used, s.h.orphaned)
  }

  /** Uploads may leave the table at any time. */
  lemma HoldFewer(uploads: map<UploadId, Upload>, ids: set<UploadId>, tasks: map<nat, Task>, used: set<UploadId>, orphaned: set<UploadId>)
    requires HoldInv(uploads, tasks, used, orphaned)
    ensures HoldInv(uploads - ids, tasks, used, orphaned)
  {
  }

  /** An upload may change as long as its phase does not. */
  lemma HoldSamePhase(uploads: map<UploadId, Upload>, id: UploadId, u: Upload, tasks: map<nat, Task>, used: set<UploadId>, orphaned: set<UploadId>)
    requires HoldInv(uploads, tasks, used, orphaned)
    requires id in uploads && u.phase == uploads[id].phase
    ensures HoldInv(uploads[id := u], tasks, used, orphaned)
  {
  }

  /** A task may move between stages as long as what it holds stays the same. */
  lemma HoldSameHolding(uploads: map<UploadId, Upload>, tasks: map<nat, Task>, c: nat, t: Task, used: set<UploadId>, orphaned: set<UploadId>)
    requires HoldInv(uploads, tasks, used, orphaned)
    requires c in tasks && t.id == tasks[c].id && (Holding(t) <==> Holding(tasks[c]))
    ensures HoldInv(uploads, tasks[c := t], used, orphaned)
  {
    forall id | id in uploads && uploads[id].phase == Completing && id !in orphaned
      ensures HeldBy(tasks[c := t], id)
    {
      var d :| d in tasks && Holds(tasks[d], id);
      assert Holds(tasks[c := t][d], id);
    }
  }

  lemma HoldNewTask(uploads: map<UploadId, Upload>, tasks: map<nat, Task>, c: nat, t: Task, used: set<UploadId>, orphaned: set<UploadId>)
    requires HoldInv(uploads, tasks, used, orphaned) && c !in tasks && !Holding(t)
    ensures HoldInv(uploads, tasks[c := t], used, orphaned)
  {
    forall id | id in uploads && uploads[id].phase == Completing && id !in orphaned
      ensures HeldBy(tasks[c := t], id)
    {
      var d :| d in tasks && Holds(tasks[d], id);
      assert Holds(tasks[c := t][d], id);
    }
  }

  /** Reserving an Open upload makes its task the only holder. */
  lemma HoldReserve(uploads: map<UploadId, Upload>, tasks: map<nat, Task>, c: nat, t: Task, u: Upload, used: set<UploadId>, orphaned: set<UploadId>)
    requires HoldInv(uploads, tasks, used, orphaned)
    requires c in tasks && t.id == tasks[c].id && !Holding(tasks[c]) && Holding(t)
    requires t.id in uploads && uploads[t.id].phase == Open && u.phase == Completing
    ensures HoldInv(uploads[t.id := u], tasks[c := t], used, orphaned)
  {
    var tasks' := tasks[c := t];
    forall id | id in uploads[t.id := u] && uploads[t.id := u][id].phase == Completing && id !in orphaned
      ensures HeldBy(tasks', id)
    {
      if id == t.id {
        assert Holds(tasks'[c], id);
      } else {
        var d :| d in tasks && Holds(tasks[d], id);
        assert Holds(tasks'[d], id);
      }
    }
  }

  /** The holder lets go: by rolling back, by finishing, or by dying. */
  lemma HoldLetGo(uploads: map<UploadId, Upload>, uploads': map<UploadId, Upload>, tasks: map<nat, Task>, c: nat, t: Task,
                  used: set<UploadId>, orphaned: set<UploadId>, orphaned': set<UploadId>)
    requires HoldInv(uploads, tasks, used, orphaned)
    requires c in tasks && t.id == tasks[c].id && Holding(tasks[c]) && !Holding(t)
    requires || (orphaned' == orphaned && uploads' == uploads - {t.id})
             || (orphaned' == orphaned && t.id in uploads && t.id in uploads' && uploads' == uploads[t.id := uploads'[t.id]]
                 && uploads'[t.id].phase == Open)
             || (orphaned' == orphaned + {t.id} && uploads' == uploads)
    ensures HoldInv(uploads', tasks[c := t], used, orphaned')
  {
    var tasks' := tasks[c := t];
    forall id | id in uploads' && uploads'[id].phase == Completing && id !in orphaned'
      ensures HeldBy(tasks', id)
    {
      var d :| d in tasks && Holds(tasks[d], id);
      assert Holds(tasks'[d], id);
    }
  }

  lemma HoldClient(cfg: Config, s: Sys, a: ClientStep)
    requires HoldSys(s) && ClientEnabled(s, a) && |s.channels| !in s.tasks
    ensures HoldSys(DoClient(cfg, s, a))
  {
    hide HoldInv, UploadPart;
    match a {
      case CreateUpload(id, bucket, key, threshold, always) =>
        HoldCreate(cfg, s, id, bucket, key, threshold, always);
      case PutPart(id, bucket, key, n, data, lag, disk) =>
        PutPartEffect(cfg, s.st, id, bucket, key, n, data, s.st.inFlightBytes + lag, disk, s.now);
        var st' := DoClient(cfg, s, a).st;
        if st' != s.st {
          HoldSamePhase(s.st.uploads, id, st'.uploads[id], s.tasks, s.h.used, s.h.orphaned);
        }
      case AbortUpload(id, _, _) => HoldFewer(s.st.uploads, {id}, s.tasks, s.h.used, s.h.orphaned);
      case PurgeBucket(bucket) => HoldFewer(s.st.uploads, InBucket(s.st, bucket), s.tasks, s.h.used, s.h.orphaned);
      case Begin(id, bucket, key, req) =>
        HoldNewTask(s.st.uploads, s.tasks, |s.channels|, Task(id, bucket, key, req, Admitted), s.h.used, s.h.orphaned);
      case JoinReturns(_) =>
    }
  }

  lemma HoldCreate(cfg: Config, s: Sys, id: UploadId, bucket: string, key: string, threshold: Option<nat>, always: bool)
    requires HoldSys(s) && id !in s.h.used
    ensures HoldSys(DoCreate(cfg, s, id, bucket, key, threshold, always))
  {
    hide HoldInv;
    var u := Upload(bucket, key, s.now, map[], Open, if always then Relayed else Buffered(threshold), false);
    HoldNewUpload(s.st.uploads, s.tasks, s.h.used, s.h.orphaned, id, u);
  }

  lemma HoldNewUpload(uploads: map<UploadId, Upload>, tasks: map<nat, Task>, used: set<UploadId>, orphaned: set<UploadId>,
                      id: UploadId, u: Upload)
    requires HoldInv(uploads, tasks, used, orphaned) && id !in used && u.phase == Open
    ensures HoldInv(uploads[id := u], tasks, used + {id}, orphaned)
  {
  }

  lemma HoldSweep(cfg: Config, s: Sys, a: SweepStep)
    requires HoldSys(s) && SweepEnabled(s, a)
    ensures HoldSys(DoSweep(cfg, s, a))
  {
  }

  lemma HoldValidate(cfg: Config, s: Sys, c: nat, passthrough: bool)
    requires HoldSys(s) && c in s.tasks && s.tasks[c].stage.Admitted?
    ensures HoldSys(DoValidate(cfg, s, c, passthrough))
  {
    hide HoldInv, DoValidate;
    ValidateEffect(cfg, s, c, passthrough);
    var s' := DoValidate(cfg, s, c, passthrough);
    if s'.tasks[c].stage.Storing? {
      HoldReserve(s.st.uploads, s.tasks, c, s'.tasks[c], s'.st.uploads[s.tasks[c].id], s.h.used, s.h.orphaned);
    } else {
      HoldSameHolding(s.st.uploads, s.tasks, c, s'.tasks[c], s.h.used, s.h.orphaned);
    }
  }

  lemma HoldSettle(s: Sys, c: nat, dirGone: bool)
    requires HoldSys(s) && c in s.tasks && s.tasks[c].stage.Stored?
    ensures HoldSys(DoSettle(s, c, dirGone))
  {
    hide HoldInv, Finish;
    var t := s.tasks[c];
    var s' := DoSettle(s, c, dirGone);
    if t.id !in s.st.uploads {
      assert s.st.uploads - {t.id} == s.st.uploads;
    }
    HoldLetGo(s.st.uploads, s'.st.uploads, s.tasks, c, s'.tasks[c], s.h.used, s.h.orphaned, s'.h.orphaned);
  }

  lemma HoldTask(cfg: Config, s: Sys, c: nat, a: TaskStep)
    requires HoldSys(s) && TaskEnabled(s, c, a)
    ensures HoldSys(DoTask(cfg, s, c, a))
  {
    hide HoldInv, DoValidate, DoSettle;
    var s' := DoTask(cfg, s, c, a);
    var t' := s'.tasks[c];
    match a {
      case Validate(passthrough) => HoldValidate(cfg, s, c, passthrough);
      case Settle(dirGone) => HoldSettle(s, c, dirGone);
      case TakeGuard => HoldGuard(s, s', c, true);
      case DropGuard => HoldGuard(s, s', c, false);
      case Crash =>
        if Holding(s.tasks[c]) {
          HoldLetGo(s.st.uploads, s'.st.uploads, s.tasks, c, t', s.h.used, s.h.orphaned, s'.h.orphaned);
        } else {
          HoldSameHolding(s.st.uploads, s.tasks, c, t', s.h.used, s.h.orphaned);
        }
      case _ => HoldSameHolding(s.st.uploads, s.tasks, c, t', s.h.used, s.h.orphaned);
    }
  }

  /** Raising or lowering the store flag changes neither phase nor holder. */
  lemma HoldGuard(s: Sys, s': Sys, c: nat, flag: bool)
    requires HoldSys(s) && c in s.tasks && c in s'.tasks
    requires s'.tasks == s.tasks[c := s'.tasks[c]] && s'.tasks[c].id == s.tasks[c].id
    requires Holding(s'.tasks[c]) <==> Holding(s.tasks[c])
    requires s'.st == SetStoring(s.st, s.tasks[c].id, flag)
    requires s'.h == s.h
    ensures HoldSys(s')
  {
    hide HoldInv;
    var id := s.tasks[c].id;
    if id in s.st.uploads {
      HoldSamePhase(s.st.uploads, id, s'.st.uploads[id], s.tasks, s.h.used, s.h.orphaned);
    }
    HoldSameHolding(s'.st.uploads, s.tasks, c, s'.tasks[c], s.h.used, s.h.orphaned);
  }

  // ------------------------------------------------------------------ channels

  /** One task per channel, and a channel is empty exactly while its task is
      still on the way: a publisher that is gone has left an outcome. */
  ghost predicate ChannelInv(tasks: map<nat, Task>, channels: seq<Option<Outcome>>) {
    && (forall c: nat :: c in tasks <==> c < |channels|)
    && (forall c :: c in tasks ==> (channels[c].None? <==> tasks[c].stage != Gone))
  }

  lemma ChannelClient(cfg: Config, s: Sys, a: ClientStep)
    requires ChannelInv(s.tasks, s.channels) && ClientEnabled(s, a)
    ensures var s' := DoClient(cfg, s, a); ChannelInv(s'.tasks, s'.channels)
  {
    hide UploadPart;
  }

  lemma ChannelTask(cfg: Config, s: Sys, c: nat, a: TaskStep)
    requires ChannelInv(s.tasks, s.channels) && TaskEnabled(s, c, a)
    ensures var s' := DoTask(cfg, s, c, a); ChannelInv(s'.tasks, s'.channels)
  {
    hide DoValidate, Finish, Rollback, Publish, SetStoring;
    if a.Validate? {
      ValidateEffect(cfg, s, c, a.passthrough);
    }
  }

  // ---------------------------------------------------------------------- wins

  ghost predicate Won(wins: map<UploadId, seq<Win>>, id: UploadId, req: PartList, etag: string) {
    id in wins && wins[id] == [Win(req, etag)]
  }

  /** What a task's stage says about the stores of its upload id. */
  ghost predicate StageWins(t: Task, wins: map<UploadId, seq<Win>>) {
    match t.stage
    case Storing(_, _, _) => t.id !in wins
    case Returned(etag, ok) => if ok then Won(wins, t.id, t.req, etag) else t.id !in wins
    case Stored(etag, ok) => if ok then Won(wins, t.id, t.req, etag) else t.id !in wins
    case Publishing(outcome) => outcome.Some? ==> Won(wins, t.id, t.req, outcome.value)
    case Sending(outcome) => outcome.Some? ==> Won(wins, t.id, t.req, outcome.value)
    case _ => true
  }

  ghost predicate TasksWin(tasks: map<nat, Task>, channels: seq<Option<Outcome>>, wins: map<UploadId, seq<Win>>) {
    && (forall c :: c in tasks ==> StageWins(tasks[c], wins))
    && (forall c :: c in tasks && c < |channels| && channels[c].Some? && channels[c].value.Some? ==>
          Won(wins, tasks[c].id, tasks[c].req, channels[c].value.value))
  }

  /** An upload that is still Open has no successful store behind it. */
  ghost predicate UploadsWin(uploads: map<UploadId, Upload>, wins: map<UploadId, seq<Win>>) {
    && (forall id :: id in uploads && uploads[id].phase == Open ==> id !in wins)
    && (forall id :: id in wins ==> |wins[id]| == 1)
  }

  ghost predicate SlotsWin(slots: map<UploadId, Slot>, tasks: map<nat, Task>, wins: map<UploadId, seq<Win>>) {
    forall id :: id in slots ==> SlotWins(id, slots[id], tasks, wins)
  }

  ghost predicate SlotWins(id: UploadId, slot: Slot, tasks: map<nat, Task>, wins: map<UploadId, seq<Win>>) {
    match slot
    case Done(f, etag, _, _, _) => Won(wins, id, f, etag)
    case InFlight(f, c, _) => c in tasks && tasks[c].id == id && tasks[c].req == f
  }

  ghost predicate AnswersWin(waiters: set<Waiter>, responses: seq<Response>, tasks: map<nat, Task>, wins: map<UploadId, seq<Win>>) {
    && (forall w :: w in waiters ==> w.channel in tasks && tasks[w.channel].id == w.id && tasks[w.channel].req == w.req)
    && (forall r :: r in responses ==> Won(wins, r.id, r.req, r.etag))
  }

  ghost predicate WinSys(s: Sys) {
    && TasksWin(s.tasks, s.channels, s.h.wins)
    && UploadsWin(s.st.uploads, s.h.wins)
    && SlotsWin(s.st.slots, s.tasks, s.h.wins)
    && AnswersWin(s.waiters, s.h.responses, s.tasks, s.h.wins)
    && s.h.wins.Keys <= s.h.used
  }

  lemma WinPutPart(cfg: Config, s: Sys, a: ClientStep)
    requires WinSys(s) && a.PutPart?
    ensures WinSys(DoClient(cfg, s, a))
  {
    hide UploadPart, TasksWin, SlotsWin, AnswersWin;
    PutPartEffect(cfg, s.st, a.id, a.bucket, a.key, a.n, a.data, s.st.inFlightBytes + a.lag, a.disk, s.now);
  }

  /** A task added, or moved to a stage that fits the wins, upsets nothing. */
  lemma WinTaskChange(tasks: map<nat, Task>, channels: seq<Option<Outcome>>, c: nat, t: Task, slots: map<UploadId, Slot>,
                      waiters: set<Waiter>, responses: seq<Response>, wins: map<UploadId, seq<Win>>)
    requires TasksWin(tasks, channels, wins) && SlotsWin(slots, tasks, wins) && AnswersWin(waiters, responses, tasks, wins)
    requires c in tasks ==> t.id == tasks[c].id && t.req == tasks[c].req
    requires c !in tasks ==> c >= |channels|
    requires StageWins(t, wins)
    ensures TasksWin(tasks[c := t], channels, wins)
    ensures SlotsWin(slots, tasks[c := t], wins)
    ensures AnswersWin(waiters, responses, tasks[c := t], wins)
  {
  }

  lemma WinBegin(cfg: Config, s: Sys, a: ClientStep)
    requires WinSys(s) && ChannelInv(s.tasks, s.channels) && a.Begin?
    ensures WinSys(DoClient(cfg, s, a))
  {
    hide UploadsWin, StageWins;
    if a.id in s.st.slots {
      hide TasksWin;
    } else {
      WinOwner(s, a.id, a.bucket, a.key, a.req);
    }
  }

  lemma WinOwner(s: Sys, id: UploadId, bucket: string, key: string, req: PartList)
    requires WinSys(s) && ChannelInv(s.tasks, s.channels) && id !in s.st.slots
    ensures WinSys(DoBegin(s, id, bucket, key, req))
  {
    hide UploadsWin, StageWins, AnswersWin;
    var t := Task(id, bucket, key, req, Admitted);
    WinAdmitted(t, s.h.wins);
    WinTaskChange(s.tasks, s.channels, |s.channels|, t, s.st.slots, s.waiters, s.h.responses, s.h.wins);
  }

  lemma WinAdmitted(t: Task, wins: map<UploadId, seq<Win>>)
    requires t.stage.Admitted?
    ensures StageWins(t, wins)
  {
  }

  lemma WinClient(cfg: Config, s: Sys, a: ClientStep)
    requires WinSys(s) && ChannelInv(s.tasks, s.channels) && ClientEnabled(s, a)
    ensures WinSys(DoClient(cfg, s, a))
  {
    match a {
      case PutPart(_, _, _, _, _, _, _) => WinPutPart(cfg, s, a);
      case Begin(_, _, _, _) => WinBegin(cfg, s, a);
      case JoinReturns(w) => hide UploadsWin, SlotsWin;
      case _ => hide TasksWin, SlotsWin, AnswersWin;
    }
  }

  lemma WinSweep(cfg: Config, s: Sys, a: SweepStep)
    requires WinSys(s) && SweepEnabled(s, a)
    ensures WinSys(DoSweep(cfg, s, a))
  {
  }

  /** A store that succeeds is the first one for its upload id. */
  lemma WinGained(s: Sys, c: nat)
    requires WinSys(s) && HoldSys(s) && c in s.tasks && s.tasks[c].stage.Storing?
    ensures WinSys(DoStoreReturns(s, c, true))
  {
    var t := s.tasks[c];
    var s' := DoStoreReturns(s, c, true);
    forall d | d in s'.tasks
      ensures StageWins(s'.tasks[d], s'.h.wins)
    {
      assert StageWins(s.tasks[d], s.h.wins);
      if d != c && s.tasks[d].id == t.id {
        assert !Holding(s.tasks[d]);
      }
    }
    hide Exclusive;
    assert UploadsWin(s'.st.uploads, s'.h.wins);
    assert forall id, req, etag :: Won(s.h.wins, id, req, etag) ==> Won(s'.h.wins, id, req, etag);
  }

  lemma WinSettle(s: Sys, c: nat, dirGone: bool)
    requires WinSys(s) && c in s.tasks && s.tasks[c].stage.Stored?
    ensures WinSys(DoSettle(s, c, dirGone))
  {
    hide TasksWin, SlotsWin, AnswersWin, Finish;
    var s' := DoSettle(s, c, dirGone);
    assert StageWins(s.tasks[c], s.h.wins) by { WinOf(s, c); }
    WinTaskChange(s.tasks, s.channels, c, s'.tasks[c], s.st.slots, s.waiters, s.h.responses, s.h.wins);
  }

  lemma WinOf(s: Sys, c: nat)
    requires WinSys(s) && c in s.tasks
    ensures StageWins(s.tasks[c], s.h.wins)
  {
  }

  lemma WinValidate(cfg: Config, s: Sys, c: nat, passthrough: bool)
    requires WinSys(s) && c in s.tasks && s.tasks[c].stage.Admitted?
    ensures WinSys(DoValidate(cfg, s, c, passthrough))
  {
    hide TasksWin, SlotsWin, AnswersWin, DoValidate;
    ValidateEffect(cfg, s, c, passthrough);
    var s' := DoValidate(cfg, s, c, passthrough);
    WinTaskChange(s.tasks, s.channels, c, s'.tasks[c], s.st.slots, s.waiters, s.h.responses, s.h.wins);
  }

  lemma WinPublish(s: Sys, c: nat)
    requires WinSys(s) && c in s.tasks && s.tasks[c].stage.Publishing?
    ensures WinSys(DoPublish(s, c))
  {
    hide TasksWin, AnswersWin, UploadsWin;
    WinOf(s, c);
    WinTaskChange(s.tasks, s.channels, c, DoPublish(s, c).tasks[c], s.st.slots, s.waiters, s.h.responses, s.h.wins);
  }

  lemma WinSend(s: Sys, c: nat)
    requires WinSys(s) && c in s.tasks && c < |s.channels| && s.tasks[c].stage.Sending?
    ensures WinSys(DoSend(s, c))
  {
    hide UploadsWin, SlotsWin;
    WinOf(s, c);
    WinTaskChange(s.tasks, s.channels, c, DoSend(s, c).tasks[c], s.st.slots, s.waiters, s.h.responses, s.h.wins);
  }

  lemma WinTask(cfg: Config, s: Sys, c: nat, a: TaskStep)
    requires WinSys(s) && HoldSys(s) && TaskEnabled(s, c, a)
    ensures WinSys(DoTask(cfg, s, c, a))
  {
    hide TasksWin, AnswersWin, HoldInv, DoValidate, DoSettle, DoPublish, DoSend;
    WinOf(s, c);
    match a {
      case Validate(passthrough) => WinValidate(cfg, s, c, passthrough);
      case Settle(dirGone) => WinSettle(s, c, dirGone);
      case PublishSlot => WinPublish(s, c);
      case Send => WinSend(s, c);
      case StoreReturns(ok) =>
        if ok {
          WinGained(s, c);
        } else {
          WinTaskChange(s.tasks, s.channels, c, DoTask(cfg, s, c, a).tasks[c], s.st.slots, s.waiters, s.h.responses, s.h.wins);
        }
      case _ =>
        WinTaskChange(s.tasks, s.channels, c, DoTask(cfg, s, c, a).tasks[c], s.st.slots, s.waiters, s.h.responses, s.h.wins);
    }
  }

  // ------------------------------------------------------------------ theorems

  ghost predicate ProtocolInv(s: Sys) {
    HoldSys(s) && ChannelInv(s.tasks, s.channels) && WinSys(s)
  }

  lemma ProtocolStep(cfg: Config, s: Sys, a: Action)
    requires ProtocolInv(s) && Enabled(s, a)
    ensures ProtocolInv(Do(cfg, s, a))
  {
    hide HoldInv, WinSys, DoClient, DoTask;
    match a {
      case Tick(_) => ProtocolTick(s, a.seconds);
      case Client(step) =>
        HoldClient(cfg, s, step);
        ChannelClient(cfg, s, step);
        WinClient(cfg, s, step);
      case Sweep(step) =>
        HoldSweep(cfg, s, step);
        WinSweep(cfg, s, step);
      case TaskMoves(c, step) =>
        HoldTask(cfg, s, c, step);
        ChannelTask(cfg, s, c, step);
        WinTask(cfg, s, c, step);
    }
  }

  lemma ProtocolTick(s: Sys, d: nat)
    requires ProtocolInv(s)
    ensures ProtocolInv(s.(now := s.now + d))
  {
  }

  lemma {:induction false} ProtocolAlways(cfg: Config, states: seq<Sys>, acts: seq<Action>, i: nat)
    requires IsRun(cfg, states, acts) && i < |states|
    ensures ProtocolInv(states[i])
  {
    hide ProtocolInv;
    if i == 0 {
      ProtocolInitial(states[0]);
    } else {
      ProtocolAlways(cfg, states, acts, i - 1);
      ProtocolStep(cfg, states[i - 1], acts[i - 1]);
    }
  }

  lemma ProtocolInitial(s: Sys)
    requires Initial(s)
    ensures ProtocolInv(s)
  {
  }

  /** In every interleaving of Complete, abort, sweep, prune and crashes, at most
      one store per upload id ever succeeds, and every successful answer (the
      owner's, a joiner's, a tombstone hit) carries that store's part list and
      ETag. */
  lemma OneCompletionPerUpload(cfg: Config, states: seq<Sys>, acts: seq<Action>, i: nat)
    requires IsRun(cfg, states, acts) && i < |states|
    ensures var s := states[i];
            && (forall id :: |Wins(s, id)| <= 1)
            && (forall r :: r in s.h.responses ==> Wins(s, r.id) == [Win(r.req, r.etag)])
            && (forall r, q :: r in s.h.responses && q in s.h.responses && r.id == q.id ==> r == q)
  {
    ProtocolAlways(cfg, states, acts, i);
  }

  /** A tracked upload is Completing exactly while one task holds it, or after
      its holder died; and no two tasks ever hold the same upload. */
  lemma CompletingMeansHeld(cfg: Config, states: seq<Sys>, acts: seq<Action>, i: nat, id: UploadId)
    requires IsRun(cfg, states, acts) && i < |states| && id in states[i].st.uploads
    ensures var s := states[i];
            && (s.st.uploads[id].phase == Completing <==> HeldBy(s.tasks, id) || id in s.h.orphaned)
            && (forall c, d :: c in s.tasks && d in s.tasks && Holds(s.tasks[c], id) && Holds(s.tasks[d], id) ==> c == d)
  {
    ProtocolAlways(cfg, states, acts, i);
  }

  /** While a task holds an upload, no step changes its parts; and only an idle
      sweep, or the task's own finish, takes it out of the table. */
  lemma HeldPartsStayFixed(cfg: Config, s: Sys, a: Action, c: nat)
    requires ProtocolInv(s) && Enabled(s, a)
    requires c in s.tasks && Holding(s.tasks[c]) && s.tasks[c].id in s.st.uploads
    ensures var id := s.tasks[c].id;
            var s' := Do(cfg, s, a);
            if id in s'.st.uploads then s'.st.uploads[id].parts == s.st.uploads[id].parts
            else a == TaskMoves(c, Settle(true)) || a == TaskMoves(c, Settle(false)) || (a.Sweep? && a.sweep.SweepExpired?)
  {
    hide WinSys, ChannelInv, DoClient, DoTask, DoSweep;
    var id := s.tasks[c].id;
    match a {
      case Tick(_) =>
      case Client(step) => ClientKeepsCompleting(cfg, s, step, id);
      case Sweep(step) => SweepKeeps(cfg, s, step, id);
      case TaskMoves(d, step) => TaskKeeps(cfg, s, d, step, id);
    }
  }

  lemma TaskAddsNone(cfg: Config, s: Sys, c: nat, a: TaskStep)
    requires TaskEnabled(s, c, a)
    ensures DoTask(cfg, s, c, a).st.uploads.Keys <= s.st.uploads.Keys
  {
    hide DoValidate, Publish, Wins, Holds, Guards;
    match a {
      case Validate(passthrough) => ValidateEffect(cfg, s, c, passthrough);
      case PublishSlot => PublishKeepsUploads(s.st, s.tasks[c], s.now);
      case _ =>
    }
  }

  lemma PublishKeepsUploads(st: Store, t: Task, now: int)
    requires t.stage.Publishing?
    ensures Publish(st, t.id, t.req, t.bucket, t.key, t.stage.outcome, now).uploads == st.uploads
  {
  }

  /** An upload id that has left the table never comes back. */
  lemma GoneStaysGone(cfg: Config, s: Sys, a: Action, id: UploadId)
    requires Enabled(s, a) && id in s.h.used && id !in s.st.uploads
    ensures id !in Do(cfg, s, a).st.uploads
  {
    hide DoClient, DoTask, DoBegin;
    match a {
      case Tick(_) =>
      case Client(step) =>
        if step.Begin? {
          BeginKeepsUploads(cfg, s, step);
        } else {
          ClientEffect(cfg, s, step);
        }
      case Sweep(step) =>
      case TaskMoves(c, step) => TaskAddsNone(cfg, s, c, step);
    }
  }

  lemma BeginKeepsUploads(cfg: Config, s: Sys, a: ClientStep)
    requires ClientEnabled(s, a) && a.Begin?
    ensures DoClient(cfg, s, a).st.uploads == s.st.uploads
  {
  }

  /** From its validation until it settles or dies, a task finds the parts it
      validated, unless a sweep has taken the whole upload away. */
  lemma {:induction false} HeldPartsStayFixedThroughout(cfg: Config, states: seq<Sys>, acts: seq<Action>, i: nat, j: nat, c: nat)
    requires IsRun(cfg, states, acts) && i <= j < |states|
    requires forall k :: i <= k <= j ==> c in states[k].tasks && Holding(states[k].tasks[c])
    requires states[i].tasks[c].id in states[i].st.uploads
    ensures var id := states[i].tasks[c].id;
            && states[j].tasks[c].id == id
            && (id in states[j].st.uploads ==> states[j].st.uploads[id].parts == states[i].st.uploads[id].parts)
    decreases j
  {
    hide ProtocolInv, Do, Enabled, Initial;
    if i < j {
      var s, a := states[j - 1], acts[j - 1];
      HeldPartsStayFixedThroughout(cfg, states, acts, i, j - 1, c);
      ProtocolAlways(cfg, states, acts, j - 1);
      TaskIdStays(cfg, s, a, c);
      var id := s.tasks[c].id;
      if id in s.st.uploads {
        HeldPartsStayFixed(cfg, s, a, c);
      } else {
        assert id in s.h.used by { HoldersAreUsed(s, c); }
        GoneStaysGone(cfg, s, a, id);
      }
    }
  }

  lemma HoldersAreUsed(s: Sys, c: nat)
    requires ProtocolInv(s) && c in s.tasks && Holding(s.tasks[c])
    ensures s.tasks[c].id in s.h.used
  {
  }

  /** Nobody moves a task but the task itself, and it keeps its upload. */
  lemma TaskIdStays(cfg: Config, s: Sys, a: Action, c: nat)
    requires ProtocolInv(s) && Enabled(s, a) && c in s.tasks
    ensures var s' := Do(cfg, s, a); c in s'.tasks && s'.tasks[c].id == s.tasks[c].id
    ensures !(a.TaskMoves? && a.c == c) ==> Do(cfg, s, a).tasks[c] == s.tasks[c]
  {
    hide WinSys, HoldInv, DoTask, DoPutPart, DoCreate;
    match a {
      case Client(step) =>
        if step.Begin? {
          BeginKeepsTask(s, step.id, step.bucket, step.key, step.req, c);
        } else {
          ClientEffect(cfg, s, step);
        }
      case _ =>
    }
  }

  lemma BeginKeepsTask(s: Sys, id: UploadId, bucket: string, key: string, req: PartList, c: nat)
    requires ChannelInv(s.tasks, s.channels) && c in s.tasks
    ensures var s' := DoBegin(s, id, bucket, key, req); c in s'.tasks && s'.tasks[c] == s.tasks[c]
  {
  }

  lemma ClientKeepsCompleting(cfg: Config, s: Sys, a: ClientStep, id: UploadId)
    requires ClientEnabled(s, a) && s.st.uploads.Keys <= s.h.used
    requires id in s.st.uploads && s.st.uploads[id].phase == Completing
    ensures var s' := DoClient(cfg, s, a);
            id in s'.st.uploads && s'.st.uploads[id] == s.st.uploads[id]
  {
    hide DoPutPart, DoCreate, DoBegin, Answer;
    match a {
      case CreateUpload(own, bucket, key, threshold, always) => CreateKeeps(cfg, s, own, bucket, key, threshold, always, id);
      case PutPart(_, _, _, _, _, _, _) => PutPartKeeps(cfg, s, a, id);
      case _ =>
    }
  }

  lemma CreateKeeps(cfg: Config, s: Sys, own: UploadId, bucket: string, key: string,
                    threshold: Option<nat>, always: bool, id: UploadId)
    requires id in s.st.uploads && own != id
    ensures var s' := DoCreate(cfg, s, own, bucket, key, threshold, always);
            id in s'.st.uploads && s'.st.uploads[id] == s.st.uploads[id]
  {
  }

  lemma PutPartKeeps(cfg: Config, s: Sys, a: ClientStep, id: UploadId)
    requires a.PutPart? && id in s.st.uploads && s.st.uploads[id].phase == Completing
    ensures var s' := DoPutPart(cfg, s, a.id, a.bucket, a.key, a.n, a.data, a.lag, a.disk);
            id in s'.st.uploads && s'.st.uploads[id] == s.st.uploads[id]
  {
    hide UploadPart;
    PutPartEffect(cfg, s.st, a.id, a.bucket, a.key, a.n, a.data, s.st.inFlightBytes + a.lag, a.disk, s.now);
  }

  lemma SweepKeeps(cfg: Config, s: Sys, a: SweepStep, id: UploadId)
    requires SweepEnabled(s, a) && id in s.st.uploads
    ensures var s' := DoSweep(cfg, s, a);
            if id in s'.st.uploads then s'.st.uploads[id] == s.st.uploads[id]
            else a.SweepExpired? && Expired(cfg, s.st.uploads[id], a.maxAge, a.completingTimeout, s.now)
  {
  }

  /** The parts and the relay strategy of `id` are the same in both tables; so
      is everything else unless `id` is the task's own upload. */
  ghost predicate SameParts(uploads: map<UploadId, Upload>, uploads': map<UploadId, Upload>, id: UploadId, own: bool) {
    && id in uploads && id in uploads'
    && uploads'[id].parts == uploads[id].parts
    && uploads'[id].relay == uploads[id].relay
    && (!own ==> uploads'[id] == uploads[id])
  }

  /** A task never changes the parts of an upload, and removes only its own. */
  lemma TaskKeeps(cfg: Config, s: Sys, c: nat, a: TaskStep, id: UploadId)
    requires TaskEnabled(s, c, a) && id in s.st.uploads
    ensures var uploads' := DoTask(cfg, s, c, a).st.uploads;
            if id in uploads' then SameParts(s.st.uploads, uploads', id, s.tasks[c].id == id)
            else a.Settle? && s.tasks[c].id == id && Holding(s.tasks[c])
  {
    hide DoValidate, DoSettle, SetStoring;
    match a {
      case Validate(passthrough) => ValidateEffect(cfg, s, c, passthrough);
      case Settle(dirGone) => SettleKeeps(s, c, dirGone, id);
      case TakeGuard => StoringKeeps(s.st, s.tasks[c].id, true, id);
      case DropGuard => StoringKeeps(s.st, s.tasks[c].id, false, id);
      case _ =>
    }
  }

  lemma SettleKeeps(s: Sys, c: nat, dirGone: bool, id: UploadId)
    requires c in s.tasks && s.tasks[c].stage.Stored? && id in s.st.uploads
    ensures var uploads' := DoSettle(s, c, dirGone).st.uploads;
            if id in uploads' then SameParts(s.st.uploads, uploads', id, s.tasks[c].id == id) else s.tasks[c].id == id
  {
    hide Finish;
  }

  lemma StoringKeeps(st: Store, own: UploadId, flag: bool, id: UploadId)
    requires id in st.uploads
    ensures SameParts(st.uploads, SetStoring(st, own, flag).uploads, id, own == id)
  {
  }

  // --------------------------------------------------- no joiner waits forever

  /** How many steps a task still has at most before its outcome is sent, if it
      does not die on the way. */
  ghost function CalmSteps(stage: Stage): nat {
    match stage
    case Admitted => 7
    case Storing(_, _, guarded) => if guarded then 5 else 6
    case Returned(_, _) => 4
    case Stored(_, _) => 3
    case Publishing(_) => 2
    case Dropping(guarded) => if guarded then 3 else 2
    case Sending(_) => 1
    case Gone => 0
  }

  /** The same for a task that may die. */
  ghost function StepsLeft(stage: Stage): nat {
    CalmSteps(stage) + if Live(stage) then 1 else 0
  }

  /** A joiner never hangs on a silent channel: either the outcome is there, or
      the owning task is still on its way, can take a step whatever the others
      have done, and every step of its own brings it closer to sending. */
  lemma JoinersAreAnswered(cfg: Config, states: seq<Sys>, acts: seq<Action>, i: nat, w: Waiter)
    requires IsRun(cfg, states, acts) && i < |states| && w in states[i].waiters
    ensures var s := states[i];
            && w.channel in s.tasks && w.channel < |s.channels|
            && (s.channels[w.channel].None? ==>
                  && StepsLeft(s.tasks[w.channel].stage) > 0
                  && (exists a :: TaskEnabled(s, w.channel, a))
                  && (forall a :: TaskEnabled(s, w.channel, a) ==>
                        StepsLeft(DoTask(cfg, s, w.channel, a).tasks[w.channel].stage) < StepsLeft(s.tasks[w.channel].stage)))
  {
    ProtocolAlways(cfg, states, acts, i);
    var s := states[i];
    var c := w.channel;
    if s.channels[c].None? {
      SomeStepEnabled(s, c);
      forall a | TaskEnabled(s, c, a)
        ensures StepsLeft(DoTask(cfg, s, c, a).tasks[c].stage) < StepsLeft(s.tasks[c].stage)
      {
        StepsShrink(cfg, s, c, a);
      }
    }
  }

  ghost function OwnSteps(acts: seq<Action>, c: nat): nat {
    if acts == [] then 0
    else
      var last := acts[|acts| - 1];
      OwnSteps(acts[..|acts| - 1], c) + if last.TaskMoves? && last.c == c then 1 else 0
  }

  /** Whatever the others do meanwhile, the steps a task takes come off what it
      has left. */
  lemma {:induction false} TaskProgresses(cfg: Config, states: seq<Sys>, acts: seq<Action>, i: nat, j: nat, c: nat)
    requires IsRun(cfg, states, acts) && i <= j < |states| && c in states[i].tasks
    ensures c in states[j].tasks
    ensures StepsLeft(states[j].tasks[c].stage) + OwnSteps(acts[i..j], c) <= StepsLeft(states[i].tasks[c].stage)
    decreases j
  {
    hide Do, Enabled, ProtocolInv, StepsLeft, OwnSteps, Initial;
    if i < j {
      TaskProgresses(cfg, states, acts, i, j - 1, c);
      ProtocolAlways(cfg, states, acts, j - 1);
      OwnStepsNext(acts, i, j, c);
      StepsNeverGrow(cfg, states[j - 1], acts[j - 1], c);
    } else {
      assert acts[i..j] == [];
      assert OwnSteps([], c) == 0 by { NoOwnSteps(c); }
    }
  }

  lemma NoOwnSteps(c: nat)
    ensures OwnSteps([], c) == 0
  {
  }

  lemma OwnStepsNext(acts: seq<Action>, i: nat, j: nat, c: nat)
    requires i < j <= |acts|
    ensures var a := acts[j - 1];
            OwnSteps(acts[i..j], c) == OwnSteps(acts[i..j - 1], c) + if a.TaskMoves? && a.c == c then 1 else 0
  {
    assert acts[i..j][..j - i - 1] == acts[i..j - 1] && acts[i..j][j - i - 1] == acts[j - 1];
  }

  lemma StepsNeverGrow(cfg: Config, s: Sys, a: Action, c: nat)
    requires ProtocolInv(s) && Enabled(s, a) && c in s.tasks
    ensures var s' := Do(cfg, s, a);
            c in s'.tasks && StepsLeft(s'.tasks[c].stage) + (if a.TaskMoves? && a.c == c then 1 else 0) <= StepsLeft(s.tasks[c].stage)
  {
    hide ProtocolInv, StepsLeft, DoTask, DoClient, DoSweep;
    TaskIdStays(cfg, s, a, c);
    if a.TaskMoves? && a.c == c {
      StepsShrink(cfg, s, c, a.move);
    }
  }

  /** At every state of a run, the outcome a joiner waits for is on its channel
      exactly when the joined task has no step left to take; and the steps that
      task has taken since, in whatever interleaving, come off what it had left. */
  lemma JoinersAreAnsweredInTime(cfg: Config, states: seq<Sys>, acts: seq<Action>, i: nat, j: nat, w: Waiter)
    requires IsRun(cfg, states, acts) && i <= j < |states| && w in states[i].waiters
    ensures w.channel in states[i].tasks && w.channel in states[j].tasks && w.channel < |states[j].channels|
    ensures states[j].channels[w.channel].Some? <==> forall a :: !TaskEnabled(states[j], w.channel, a)
    ensures states[j].channels[w.channel].Some? <==> StepsLeft(states[j].tasks[w.channel].stage) == 0
    ensures StepsLeft(states[j].tasks[w.channel].stage) + OwnSteps(acts[i..j], w.channel)
            <= StepsLeft(states[i].tasks[w.channel].stage)
  {
    hide Do, Enabled, TaskEnabled, OwnSteps;
    ProtocolAlways(cfg, states, acts, i);
    ProtocolAlways(cfg, states, acts, j);
    TaskProgresses(cfg, states, acts, i, j, w.channel);
    DoneExactlyWhenIdle(states[j], w.channel);
  }

  lemma DoneExactlyWhenIdle(s: Sys, c: nat)
    requires c in s.tasks && c < |s.channels|
    ensures s.tasks[c].stage == Gone <==> forall a :: !TaskEnabled(s, c, a)
  {
    if s.tasks[c].stage != Gone {
      SomeStepEnabled(s, c);
    }
  }

  ghost predicate Dies(a: Action, c: nat) {
    a == TaskMoves(c, Crash)
  }

  /** What a task has done and has left, from the start of a run: nothing while
      there is no such task, and at most what it is admitted with. */
  lemma {:induction false} StepsAccounted(cfg: Config, states: seq<Sys>, acts: seq<Action>, j: nat, c: nat)
    requires IsRun(cfg, states, acts) && j < |states|
    ensures c !in states[j].tasks ==> OwnSteps(acts[..j], c) == 0
    ensures c in states[j].tasks ==> OwnSteps(acts[..j], c) + StepsLeft(states[j].tasks[c].stage) <= 8
    ensures c in states[j].tasks && (forall k :: 0 <= k < j ==> !Dies(acts[k], c)) ==>
              OwnSteps(acts[..j], c) + CalmSteps(states[j].tasks[c].stage) <= 7
    decreases j
  {
    hide Do, Enabled, ProtocolInv, StepsLeft, CalmSteps, OwnSteps, Initial, Dies;
    if j == 0 {
      assert acts[..0] == [];
      NoOwnSteps(c);
      NoTaskYet(states[0], c);
    } else {
      StepsAccounted(cfg, states, acts, j - 1, c);
      ProtocolAlways(cfg, states, acts, j - 1);
      assert acts[..j] == acts[0..j] && acts[..j - 1] == acts[0..j - 1];
      OwnStepsNext(acts, 0, j, c);
      StepAccounted(cfg, states[j - 1], acts[j - 1], c);
    }
  }

  lemma NoTaskYet(s: Sys, c: nat)
    requires Initial(s)
    ensures c !in s.tasks
  {
  }

  /** One step: a new task has everything before it, an old one less by its own. */
  lemma StepAccounted(cfg: Config, s: Sys, a: Action, c: nat)
    requires ProtocolInv(s) && Enabled(s, a)
    ensures var s' := Do(cfg, s, a);
            var own := if a.TaskMoves? && a.c == c then 1 else 0;
            && (c !in s.tasks ==> own == 0)
            && (c !in s.tasks && c in s'.tasks ==> StepsLeft(s'.tasks[c].stage) <= 8 && CalmSteps(s'.tasks[c].stage) <= 7)
            && (c in s.tasks ==>
                  && c in s'.tasks && StepsLeft(s'.tasks[c].stage) + own <= StepsLeft(s.tasks[c].stage)
                  && (!Dies(a, c) ==> CalmSteps(s'.tasks[c].stage) + own <= CalmSteps(s.tasks[c].stage)))
  {
    if c in s.tasks {
      hide ProtocolInv, Do, Enabled;
      StepsNeverGrow(cfg, s, a, c);
      if !Dies(a, c) {
        CalmNeverGrow(cfg, s, a, c);
      }
    } else {
      hide Do;
    }
  }

  lemma CalmNeverGrow(cfg: Config, s: Sys, a: Action, c: nat)
    requires ProtocolInv(s) && Enabled(s, a) && c in s.tasks && !Dies(a, c)
    ensures var s' := Do(cfg, s, a);
            c in s'.tasks && CalmSteps(s'.tasks[c].stage) + (if a.TaskMoves? && a.c == c then 1 else 0) <= CalmSteps(s.tasks[c].stage)
  {
    hide ProtocolInv, CalmSteps, DoTask, DoClient, DoSweep;
    TaskIdStays(cfg, s, a, c);
    if a.TaskMoves? && a.c == c {
      StepsShrink(cfg, s, c, a.move);
    }
  }

  /** In no run does a task take more than eight steps, and no more than seven if
      it does not die. */
  lemma TasksTakeFewSteps(cfg: Config, states: seq<Sys>, acts: seq<Action>, j: nat, c: nat)
    requires IsRun(cfg, states, acts) && j < |states|
    ensures OwnSteps(acts[..j], c) <= 8
    ensures (forall k :: 0 <= k < j ==> !Dies(acts[k], c)) ==> OwnSteps(acts[..j], c) <= 7
  {
    hide Do, Enabled, OwnSteps, Dies, StepsLeft, CalmSteps;
    StepsAccounted(cfg, states, acts, j, c);
  }

  lemma SomeStepEnabled(s: Sys, c: nat)
    requires c in s.tasks && c < |s.channels| && s.tasks[c].stage != Gone
    ensures exists a :: TaskEnabled(s, c, a)
  {
    var a := match s.tasks[c].stage
      case Admitted => Validate(true)
      case Storing(_, relayed, guarded) => if relayed && !guarded then TakeGuard else if guarded == relayed then StoreReturns(true) else Crash
      case Returned(_, _) => DropGuard
      case Stored(_, _) => Settle(true)
      case Publishing(_) => PublishSlot
      case Dropping(guarded) => if guarded then DropGuard else ClearOwnSlot
      case Sending(_) => Send
      case Gone => Crash;
    assert TaskEnabled(s, c, a);
  }

  lemma StepsShrink(cfg: Config, s: Sys, c: nat, a: TaskStep)
    requires TaskEnabled(s, c, a)
    ensures StepsLeft(DoTask(cfg, s, c, a).tasks[c].stage) < StepsLeft(s.tasks[c].stage)
    ensures !a.Crash? ==> CalmSteps(DoTask(cfg, s, c, a).tasks[c].stage) < CalmSteps(s.tasks[c].stage)
  {
    hide DoValidate, Finish, Rollback, Publish, SetStoring;
    if a.Validate? {
      ValidateEffect(cfg, s, c, a.passthrough);
    }
  }
}
