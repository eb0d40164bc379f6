/** While a store guard is held, nothing but the storing task itself removes the
    upload or its relay files. */
module MultipartGuards {
  import opened Common
  import opened MultipartModel
  import opened MultipartSystem
  import opened MultipartProtocol
  import opened MultipartRelay

  ghost predicate GuardedBy(tasks: map<nat, Task>, id: UploadId) {
    exists c :: c in tasks && Guards(tasks[c]) && tasks[c].id == id
  }

  /** The store flag of a tracked upload is up exactly while a task holds its
      guard, and no two tasks hold the guard of one upload: a boolean is enough. */
  ghost predicate GuardInv(uploads: map<UploadId, Upload>, tasks: map<nat, Task>, orphaned: set<UploadId>) {
    && (forall c :: c in tasks && tasks[c].stage == Dropping(true) ==> tasks[c].id in orphaned)
    && (forall c, d :: c in tasks && d in tasks && Guards(tasks[c]) && Guards(tasks[d]) && tasks[c].id == tasks[d].id ==> c == d)
    && (forall c :: c in tasks && Guards(tasks[c]) && tasks[c].id in uploads ==> uploads[tasks[c].id].storeInProgress)
    && (forall id :: id in uploads && uploads[id].storeInProgress ==> GuardedBy(tasks, id))
  }

  ghost predicate GuardSys(s: Sys) {
    GuardInv(s.st.uploads, s.tasks, s.h.orphaned)
  }

  lemma GuardFewer(uploads: map<UploadId, Upload>, uploads': map<UploadId, Upload>, tasks: map<nat, Task>, orphaned: set<UploadId>)
    requires GuardInv(uploads, tasks, orphaned)
    requires forall id :: id in uploads' ==> id in uploads && uploads'[id].storeInProgress == uploads[id].storeInProgress
    ensures GuardInv(uploads', tasks, orphaned)
  {
  }

  lemma GuardNewUpload(s: Sys, id: UploadId, u: Upload)
    requires GuardSys(s) && HoldSys(s) && id !in s.h.used && !u.storeInProgress
    ensures GuardInv(s.st.uploads[id := u], s.tasks, s.h.orphaned)
  {
  }

  /** A task added without a guard, or moved with its guard as it was. */
  lemma GuardSameTask(uploads: map<UploadId, Upload>, tasks: map<nat, Task>, c: nat, t: Task, orphaned: set<UploadId>, orphaned': set<UploadId>)
    requires GuardInv(uploads, tasks, orphaned) && orphaned <= orphaned'
    requires if c in tasks then t.id == tasks[c].id && (Guards(t) <==> Guards(tasks[c])) else !Guards(t)
    requires t.stage == Dropping(true) ==> t.id in orphaned'
    ensures GuardInv(uploads, tasks[c := t], orphaned')
  {
    forall id | id in uploads && uploads[id].storeInProgress
      ensures GuardedBy(tasks[c := t], id)
    {
      var d :| d in tasks && Guards(tasks[d]) && tasks[d].id == id;
      assert Guards(tasks[c := t][d]) && tasks[c := t][d].id == id;
    }
  }

  lemma GuardClient(cfg: Config, s: Sys, a: ClientStep)
    requires GuardSys(s) && HoldSys(s) && ChannelInv(s.tasks, s.channels) && ClientEnabled(s, a)
    ensures GuardSys(DoClient(cfg, s, a))
  {
    hide GuardInv, HoldInv, UploadPart;
    match a {
      case CreateUpload(id, bucket, key, threshold, always) =>
        GuardNewUpload(s, id, Upload(bucket, key, s.now, map[], Open, if always then Relayed else Buffered(threshold), false));
      case PutPart(id, bucket, key, n, data, lag, disk) =>
        PutPartEffect(cfg, s.st, id, bucket, key, n, data, s.st.inFlightBytes + lag, disk, s.now);
        GuardFewer(s.st.uploads, DoPutPart(cfg, s, id, bucket, key, n, data, lag, disk).st.uploads, s.tasks, s.h.orphaned);
      case AbortUpload(id, _, _) => GuardFewer(s.st.uploads, s.st.uploads - {id}, s.tasks, s.h.orphaned);
      case PurgeBucket(bucket) => GuardFewer(s.st.uploads, s.st.uploads - InBucket(s.st, bucket), s.tasks, s.h.orphaned);
      case Begin(id, bucket, key, req) =>
        GuardSameTask(s.st.uploads, s.tasks, |s.channels|, Task(id, bucket, key, req, Admitted), s.h.orphaned, s.h.orphaned);
      case JoinReturns(_) =>
    }
  }

  lemma GuardSweep(cfg: Config, s: Sys, a: SweepStep)
    requires GuardSys(s) && SweepEnabled(s, a)
    ensures GuardSys(DoSweep(cfg, s, a))
  {
  }

  lemma GuardTaken(s: Sys, c: nat)
    requires GuardSys(s) && HoldSys(s) && TaskEnabled(s, c, TakeGuard)
    ensures var t := s.tasks[c];
            GuardInv(SetStoring(s.st, t.id, true).uploads, s.tasks[c := t.(stage := t.stage.(guarded := true))], s.h.orphaned)
  {
    var t := s.tasks[c];
    var tasks' := s.tasks[c := t.(stage := t.stage.(guarded := true))];
    var uploads' := SetStoring(s.st, t.id, true).uploads;
    assert Holding(t);
    forall d | d in s.tasks && Guards(s.tasks[d])
      ensures s.tasks[d].id != t.id
    {
      assert s.tasks[d].stage == Dropping(true) || Holding(s.tasks[d]);
    }
    hide HoldInv;
    forall id | id in uploads' && uploads'[id].storeInProgress
      ensures GuardedBy(tasks', id)
    {
      if id == t.id {
        assert Guards(tasks'[c]);
      } else {
        var d :| d in s.tasks && Guards(s.tasks[d]) && s.tasks[d].id == id;
        assert Guards(tasks'[d]) && tasks'[d].id == id;
      }
    }
  }

  lemma GuardDropped(s: Sys, c: nat, t': Task)
    requires GuardSys(s) && c in s.tasks && Guards(s.tasks[c]) && t'.id == s.tasks[c].id && !Guards(t')
    ensures GuardInv(SetStoring(s.st, t'.id, false).uploads, s.tasks[c := t'], s.h.orphaned)
  {
    var tasks' := s.tasks[c := t'];
    var uploads' := SetStoring(s.st, t'.id, false).uploads;
    forall id | id in uploads' && uploads'[id].storeInProgress
      ensures GuardedBy(tasks', id)
    {
      var d :| d in s.tasks && Guards(s.tasks[d]) && s.tasks[d].id == id;
      assert Guards(tasks'[d]) && tasks'[d].id == id;
    }
  }

  lemma GuardSettle(s: Sys, c: nat, dirGone: bool)
    requires GuardSys(s) && c in s.tasks && s.tasks[c].stage.Stored?
    ensures GuardSys(DoSettle(s, c, dirGone))
  {
    hide GuardInv, Finish;
    var s' := DoSettle(s, c, dirGone);
    GuardFewer(s.st.uploads, s'.st.uploads, s.tasks, s.h.orphaned);
    GuardSameTask(s'.st.uploads, s.tasks, c, s'.tasks[c], s.h.orphaned, s.h.orphaned);
  }

  lemma GuardTask(cfg: Config, s: Sys, c: nat, a: TaskStep)
    requires GuardSys(s) && HoldSys(s) && TaskEnabled(s, c, a)
    ensures GuardSys(DoTask(cfg, s, c, a))
  {
    hide GuardInv, HoldInv, DoValidate, DoSettle, SetStoring;
    var s' := DoTask(cfg, s, c, a);
    match a {
      case TakeGuard => GuardTaken(s, c);
      case DropGuard => GuardDropped(s, c, s'.tasks[c]);
      case Validate(passthrough) =>
        ValidateEffect(cfg, s, c, passthrough);
        GuardFewer(s.st.uploads, s'.st.uploads, s.tasks, s.h.orphaned);
        GuardSameTask(s'.st.uploads, s.tasks, c, s'.tasks[c], s.h.orphaned, s.h.orphaned);
      case Settle(dirGone) => GuardSettle(s, c, dirGone);
      case _ => GuardSameTask(s.st.uploads, s.tasks, c, s'.tasks[c], s.h.orphaned, s'.h.orphaned);
    }
  }

  // -------------------------------------------------------------------- theorem

  /** Everything is in order, the disk side for upload `x`. */
  ghost predicate GuardedInv(cfg: Config, s: Sys, x: UploadId) {
    ProtocolInv(s) && PartsSys(cfg, s) && DiskSys(s, x) && GuardSys(s)
  }

  lemma GuardedStep(cfg: Config, s: Sys, a: Action, x: UploadId)
    requires GuardedInv(cfg, s, x) && Enabled(s, a) && Clean(s, a, x)
    ensures GuardedInv(cfg, Do(cfg, s, a), x)
  {
    ProtocolStep(cfg, s, a);
    hide WinSys, PartsSys, DiskSys, GuardSys, HoldSys, DoClient, DoTask, DoSweep, ChannelInv;
    match a {
      case Tick(d) => GuardedTick(cfg, s, d, x);
      case Client(step) =>
        PartsClient(cfg, s, step);
        DiskClient(cfg, s, step, x);
        GuardClient(cfg, s, step);
      case Sweep(step) =>
        PartsSweep(cfg, s, step);
        DiskSweep(cfg, s, step, x);
        GuardSweep(cfg, s, step);
      case TaskMoves(c, step) =>
        PartsTask(cfg, s, c, step);
        DiskTask(cfg, s, c, step, x);
        GuardTask(cfg, s, c, step);
    }
  }

  lemma GuardedTick(cfg: Config, s: Sys, d: nat, x: UploadId)
    requires GuardedInv(cfg, s, x)
    ensures var s' := s.(now := s.now + d); PartsSys(cfg, s') && DiskSys(s', x) && GuardSys(s')
  {
  }

  lemma {:induction false} GuardedAlways(cfg: Config, states: seq<Sys>, acts: seq<Action>, i: nat, x: UploadId)
    requires IsRun(cfg, states, acts) && i < |states|
    requires forall j :: 0 <= j < i ==> Clean(states[j], acts[j], x)
    ensures GuardedInv(cfg, states[i], x)
  {
    hide GuardedInv, Clean;
    if i == 0 {
      GuardedInitial(cfg, states[0], x);
    } else {
      GuardedAlways(cfg, states, acts, i - 1, x);
      GuardedStep(cfg, states[i - 1], acts[i - 1], x);
    }
  }

  lemma GuardedInitial(cfg: Config, s: Sys, x: UploadId)
    requires Initial(s)
    ensures GuardedInv(cfg, s, x)
  {
  }

  // ------------------------------------------------------- the guard protects

  /** `id` and everything on disk in its directory are as they were. */
  ghost predicate Untouched(s: Sys, s': Sys, id: UploadId) {
    && id in s.st.uploads && id in s'.st.uploads
    && s'.st.uploads[id] == s.st.uploads[id]
    && forall n :: n in s.st.uploads[id].parts && Path(id, n) in s.st.files ==>
         Path(id, n) in s'.st.files && s'.st.files[Path(id, n)] == s.st.files[Path(id, n)]
  }

  lemma PutPartElsewhere(cfg: Config, s: Store, id: UploadId, bucket: string, key: string, n: nat, data: Bytes,
                         counter: nat, disk: Disk, now: int)
    ensures var r := UploadPart(cfg, s, id, bucket, key, n, data, counter, disk, now).0;
            OnlyDir(s.files, r.files, id) && (id in s.uploads && s.uploads[id].phase != Open ==> r == s)
  {
    hide CumulativeAfter, MoveToRelay, QuotedHex, Wrap;
  }

  lemma ClientLeavesGuarded(cfg: Config, s: Sys, a: ClientStep, id: UploadId)
    requires HoldSys(s) && ClientEnabled(s, a) && id in s.st.uploads && s.st.uploads[id].phase == Completing
    ensures Untouched(s, DoClient(cfg, s, a), id)
  {
    hide HoldInv, UploadPart;
    assert s.st.uploads.Keys <= s.h.used by { HoldUsed(s); }
    ClientKeepsCompleting(cfg, s, a, id);
    if a.PutPart? {
      PutPartElsewhere(cfg, s.st, a.id, a.bucket, a.key, a.n, a.data, s.st.inFlightBytes + a.lag, a.disk, s.now);
    }
  }

  lemma HoldUsed(s: Sys)
    requires HoldSys(s)
    ensures s.st.uploads.Keys <= s.h.used
  {
  }

  lemma SweepLeavesGuarded(cfg: Config, s: Sys, a: SweepStep, id: UploadId)
    requires DiskSys(s, id) && SweepEnabled(s, a) && id in s.st.uploads
    requires s.st.uploads[id].phase == Completing && s.st.uploads[id].storeInProgress
    ensures Untouched(s, DoSweep(cfg, s, a), id)
  {
    hide FilesOk;
    SweepKeeps(cfg, s, a, id);
    if a.ScanDelete? {
      CondemnedIsUntracked(s, a.k, id);
    }
    hide ScansOk;
  }

  /** Other tasks of a guarded upload neither hold it nor its guard. */
  lemma OthersAreOut(s: Sys, c: nat, d: nat)
    requires HoldSys(s) && GuardSys(s) && c in s.tasks && d in s.tasks && d != c && Guards(s.tasks[c])
    requires s.tasks[c].id in s.st.uploads
    ensures s.st.uploads[s.tasks[c].id].phase == Completing && s.st.uploads[s.tasks[c].id].storeInProgress
    ensures s.tasks[d].id == s.tasks[c].id ==> !Holding(s.tasks[d]) && !Guards(s.tasks[d])
  {
  }

  /** A task other than the guard's holder cannot even touch the flags. */
  lemma TaskLeavesGuarded(cfg: Config, s: Sys, c: nat, d: nat, a: TaskStep)
    requires HoldSys(s) && GuardSys(s) && c in s.tasks && Guards(s.tasks[c]) && TaskEnabled(s, d, a) && d != c
    requires s.tasks[c].id in s.st.uploads
    ensures Untouched(s, DoTask(cfg, s, d, a), s.tasks[c].id)
  {
    hide HoldInv, GuardInv, DoValidate, DoSettle, DoStoreReturns, Wins;
    var id := s.tasks[c].id;
    OthersAreOut(s, c, d);
    if a.Settle? {
      SettleElsewhere(s, d, a.dirGone, id);
    } else if a.Validate? {
      ValidateLeaves(cfg, s, d, a.passthrough, id);
    } else if s.tasks[d].id != id {
      hide DoTask;
      TaskFrame(cfg, s, d, a);
      TaskKeeps(cfg, s, d, a, id);
    }
  }

  /** Validation touches no upload that is not Open. */
  lemma ValidateLeaves(cfg: Config, s: Sys, d: nat, passthrough: bool, id: UploadId)
    requires TaskEnabled(s, d, Validate(passthrough)) && id in s.st.uploads && s.st.uploads[id].phase == Completing
    ensures Untouched(s, DoValidate(cfg, s, d, passthrough), id)
  {
    hide DoValidate;
    ValidateEffect(cfg, s, d, passthrough);
  }

  lemma SettleElsewhere(s: Sys, d: nat, dirGone: bool, id: UploadId)
    requires d in s.tasks && s.tasks[d].stage.Stored? && s.tasks[d].id != id && id in s.st.uploads
    ensures Untouched(s, DoSettle(s, d, dirGone), id)
  {
    hide BytesOf, Wrap;
  }

  /** While a task holds the store guard of a tracked upload, no abort, bucket
      purge, idle sweep, orphan sweep or other task removes the upload, changes
      it, or takes any of its relay files away. */
  lemma GuardProtects(cfg: Config, s: Sys, a: Action, c: nat)
    requires c in s.tasks && GuardedInv(cfg, s, s.tasks[c].id) && Enabled(s, a)
    requires Guards(s.tasks[c]) && s.tasks[c].id in s.st.uploads
    requires !(a.TaskMoves? && a.c == c)
    ensures Untouched(s, Do(cfg, s, a), s.tasks[c].id)
    ensures var s' := Do(cfg, s, a); c in s'.tasks && s'.tasks[c] == s.tasks[c]
  {
    hide WinSys, PartsSys, DiskSys, DoClient, DoTask, DoSweep;
    var id := s.tasks[c].id;
    assert Holding(s.tasks[c]) || s.tasks[c].stage == Dropping(true);
    assert s.st.uploads[id].phase == Completing && s.st.uploads[id].storeInProgress;
    hide HoldInv, GuardInv;
    match a {
      case Tick(_) =>
      case Client(step) =>
        ClientLeavesGuarded(cfg, s, step, id);
        ClientKeepsTasks(cfg, s, step, c);
      case Sweep(step) =>
        SweepLeavesGuarded(cfg, s, step, id);
        SweepKeepsTasks(cfg, s, step);
      case TaskMoves(d, step) => TaskLeavesGuarded(cfg, s, c, d, step);
    }
  }

  lemma ClientKeepsTasks(cfg: Config, s: Sys, a: ClientStep, c: nat)
    requires ClientEnabled(s, a) && ChannelInv(s.tasks, s.channels) && c in s.tasks
    ensures var s' := DoClient(cfg, s, a); c in s'.tasks && s'.tasks[c] == s.tasks[c]
  {
    hide UploadPart;
  }

  lemma SweepKeepsTasks(cfg: Config, s: Sys, a: SweepStep)
    requires SweepEnabled(s, a)
    ensures DoSweep(cfg, s, a).tasks == s.tasks
  {
  }

  lemma UntouchedTwice(s: Sys, s1: Sys, s2: Sys, id: UploadId)
    requires Untouched(s, s1, id) && Untouched(s1, s2, id)
    ensures Untouched(s, s2, id)
  {
  }

  lemma UntouchedSame(s: Sys, id: UploadId)
    ensures Untouched(s, s, id) <==> id in s.st.uploads
    ensures forall s' :: Untouched(s, s', id) ==> id in s'.st.uploads
  {
  }

  /** The same over any stretch of a run in which the holder itself rests. */
  lemma {:induction false} GuardProtectsThroughout(cfg: Config, states: seq<Sys>, acts: seq<Action>, i: nat, j: nat, c: nat)
    requires IsRun(cfg, states, acts) && i <= j < |states|
    requires c in states[i].tasks && Guards(states[i].tasks[c]) && states[i].tasks[c].id in states[i].st.uploads
    requires forall k :: 0 <= k < j ==> Clean(states[k], acts[k], states[i].tasks[c].id)
    requires forall k :: i <= k < j ==> !(acts[k].TaskMoves? && acts[k].c == c)
    ensures Untouched(states[i], states[j], states[i].tasks[c].id)
    ensures c in states[j].tasks && states[j].tasks[c] == states[i].tasks[c]
    decreases j
  {
    hide GuardedInv, Clean, Do, Enabled, Initial, Untouched, Guards;
    UntouchedSame(states[i], states[i].tasks[c].id);
    if i < j {
      GuardProtectsThroughout(cfg, states, acts, i, j - 1, c);
      GuardedAlways(cfg, states, acts, j - 1, states[i].tasks[c].id);
      GuardProtects(cfg, states[j - 1], acts[j - 1], c);
      UntouchedTwice(states[i], states[j - 1], states[j], states[i].tasks[c].id);
    }
  }
}
