/** Where the premise of the relay theorems comes from: if no promotion of an
    upload stops half-way and scans decide about it in time, no scan condemns its
    directory while it is tracked. */
module MultipartTimely {
  import opened Common
  import opened MultipartModel
  import opened MultipartSystem
  import opened MultipartProtocol
  import opened MultipartAccounting
  import opened MultipartRelay
  import opened MultipartGuards
  import opened MultipartAssembly

  // ---------------------------------------------------------------- conditions

  /** A promotion of `x` that stops after its directory was made. */
  ghost predicate StopsHalfway(cfg: Config, s: Sys, a: Action, x: UploadId) {
    && a.Client? && a.client.PutPart? && a.client.id == x
    && var p := a.client;
       && UploadRefusal(cfg, s.st, x, p.bucket, p.key, p.n, |p.data|, s.st.inFlightBytes + p.lag).None?
       && Promotes(s.st.uploads[x], CumulativeAfter(s.st.uploads[x], p.n, |p.data|))
       && !p.disk.promotes && p.disk.dirMade
  }

  /** A scan decides about the directory of a tracked `x` only after the minimum
      age has passed since its snapshot. */
  ghost predicate DecidesLate(s: Sys, a: Action, x: UploadId) {
    && a.Sweep? && a.sweep.ScanExamine? && a.sweep.dir == x && x in s.st.uploads
    && a.sweep.k in s.scans && s.now >= s.scans[a.sweep.k].at + s.scans[a.sweep.k].minAge
  }

  /** Neither happens to `x` before step `i`. */
  ghost predicate Timely(cfg: Config, states: seq<Sys>, acts: seq<Action>, i: nat, x: UploadId)
    requires IsRun(cfg, states, acts) && i <= |acts|
  {
    forall j :: 0 <= j < i ==> !StopsHalfway(cfg, states[j], acts[j], x) && !DecidesLate(states[j], acts[j], x)
  }

  // ----------------------------------------------------------------- invariant

  /** A tracked upload still in memory has no directory. */
  ghost predicate Bare(s: Sys, x: UploadId) {
    && (x in s.st.dirs ==> x in s.h.used)
    && (x in s.st.uploads ==> x in s.h.used)
    && (x in s.st.uploads && s.st.uploads[x].relay.Buffered? ==> x !in s.st.dirs)
  }

  /** Directories only go, ids stay used, and `x` keeps its strategy or goes. */
  lemma BareStays(s: Sys, s': Sys, x: UploadId)
    requires Bare(s, x) && s.h.used <= s'.h.used && (x in s'.st.dirs ==> x in s.st.dirs)
    requires x in s'.st.uploads ==> x in s.st.uploads && s'.st.uploads[x].relay == s.st.uploads[x].relay
    ensures Bare(s', x)
  {
  }

  lemma BareCreate(cfg: Config, s: Sys, id: UploadId, bucket: string, key: string, threshold: Option<nat>, always: bool, x: UploadId)
    requires Bare(s, x) && id !in s.h.used
    ensures Bare(DoCreate(cfg, s, id, bucket, key, threshold, always), x)
  {
  }

  /** A part leaves an upload in memory without a directory, or moves it to disk. */
  lemma PartLeavesBare(cfg: Config, s: Store, id: UploadId, bucket: string, key: string, n: nat, data: Bytes,
                       counter: nat, disk: Disk, now: int)
    requires id in s.uploads && (s.uploads[id].relay.Buffered? ==> id !in s.dirs)
    requires (&& UploadRefusal(cfg, s, id, bucket, key, n, |data|, counter).None?
              && Promotes(s.uploads[id], CumulativeAfter(s.uploads[id], n, |data|)))
             ==> disk.promotes || !disk.dirMade
    ensures var r := UploadPart(cfg, s, id, bucket, key, n, data, counter, disk, now).0;
            id in r.uploads && (r.uploads[id].relay.Buffered? ==> id !in r.dirs)
  {
    hide CumulativeAfter, QuotedHex, MoveToRelay, WrittenFiles;
  }

  lemma BarePutPart(cfg: Config, s: Sys, a: ClientStep, x: UploadId)
    requires Bare(s, x) && a.PutPart? && !StopsHalfway(cfg, s, Client(a), x)
    ensures Bare(DoPutPart(cfg, s, a.id, a.bucket, a.key, a.n, a.data, a.lag, a.disk), x)
  {
    hide UploadPart, UploadRefusal, CumulativeAfter;
    var counter := s.st.inFlightBytes + a.lag;
    if a.id !in s.st.uploads {
      NoUploadNoPart(cfg, s.st, a.id, a.bucket, a.key, a.n, a.data, counter, a.disk, s.now);
    } else {
      PutPartOnly(cfg, s.st, a.id, a.bucket, a.key, a.n, a.data, counter, a.disk, s.now);
      PutPartTouches(cfg, s.st, a.id, a.bucket, a.key, a.n, a.data, counter, a.disk, s.now);
      if a.id == x {
        PartLeavesBare(cfg, s.st, x, a.bucket, a.key, a.n, a.data, counter, a.disk, s.now);
      }
    }
  }

  lemma BareClient(cfg: Config, s: Sys, a: ClientStep, x: UploadId)
    requires Bare(s, x) && ClientEnabled(s, a) && !StopsHalfway(cfg, s, Client(a), x)
    ensures Bare(DoClient(cfg, s, a), x)
  {
    hide DoPutPart, DoCreate, DoBegin, Answer, Bare, StopsHalfway;
    match a {
      case CreateUpload(id, bucket, key, threshold, always) => BareCreate(cfg, s, id, bucket, key, threshold, always, x);
      case PutPart(_, _, _, _, _, _, _) => BarePutPart(cfg, s, a, x);
      case _ => BareStays(s, DoClient(cfg, s, a), x);
    }
  }

  lemma BareSweep(cfg: Config, s: Sys, a: SweepStep, x: UploadId)
    requires Bare(s, x) && SweepEnabled(s, a)
    ensures Bare(DoSweep(cfg, s, a), x)
  {
    hide Bare, ExpiredIds;
    BareStays(s, DoSweep(cfg, s, a), x);
  }

  lemma BareTask(cfg: Config, s: Sys, c: nat, a: TaskStep, x: UploadId)
    requires Bare(s, x) && TaskEnabled(s, c, a)
    ensures Bare(DoTask(cfg, s, c, a), x)
  {
    hide Bare, DoTask;
    if a.Settle? {
      SettleRemoves(cfg, s, c, a);
    } else {
      TaskFrame(cfg, s, c, a);
    }
    if x in s.st.uploads {
      TaskKeeps(cfg, s, c, a, x);
    }
    BareStays(s, DoTask(cfg, s, c, a), x);
  }

  lemma SettleRemoves(cfg: Config, s: Sys, c: nat, a: TaskStep)
    requires TaskEnabled(s, c, a) && a.Settle?
    ensures var s' := DoTask(cfg, s, c, a);
            s'.h.used == s.h.used && s'.st.uploads.Keys <= s.st.uploads.Keys && s'.st.dirs.Keys <= s.st.dirs.Keys
  {
    hide Finish;
    FinishRemoves(s.st, s.tasks[c].id, a.dirGone);
  }

  lemma FinishRemoves(st: Store, id: UploadId, dirGone: bool)
    ensures Finish(st, id, dirGone).dirs.Keys <= st.dirs.Keys
  {
    hide BytesOf, Wrap;
  }

  lemma BareStep(cfg: Config, s: Sys, a: Action, x: UploadId)
    requires Bare(s, x) && Enabled(s, a) && !StopsHalfway(cfg, s, a, x)
    ensures Bare(Do(cfg, s, a), x)
  {
    hide StopsHalfway, DoClient, DoSweep, DoTask;
    match a {
      case Tick(_) =>
      case Client(step) => BareClient(cfg, s, step, x);
      case Sweep(step) => BareSweep(cfg, s, step, x);
      case TaskMoves(c, step) => BareTask(cfg, s, c, step, x);
    }
  }

  lemma BareInitial(s: Sys, x: UploadId)
    requires Initial(s)
    ensures Bare(s, x)
  {
  }

  /** Unless a promotion of it has stopped half-way, a tracked upload whose parts
      are in memory has no directory, in every run. */
  lemma {:induction false} BufferedHasNoDirectory(cfg: Config, states: seq<Sys>, acts: seq<Action>, i: nat, x: UploadId)
    requires IsRun(cfg, states, acts) && i < |states|
    requires forall j :: 0 <= j < i ==> !StopsHalfway(cfg, states[j], acts[j], x)
    ensures Bare(states[i], x)
    decreases i
  {
    hide Bare, StopsHalfway, Do, Enabled, Initial;
    if i == 0 {
      BareInitial(states[0], x);
    } else {
      BufferedHasNoDirectory(cfg, states, acts, i - 1, x);
      BareStep(cfg, states[i - 1], acts[i - 1], x);
    }
  }

  // ------------------------------------------------------------------ theorems

  lemma CleanHere(s: Sys, a: Action, x: UploadId)
    requires Bare(s, x) && Enabled(s, a) && !DecidesLate(s, a, x)
    ensures Clean(s, a, x)
  {
  }

  /** A scan condemns the directory of a tracked upload in two ways only: after a
      promotion of it that stopped half-way, or by deciding late. */
  lemma UncleanInTwoWaysOnly(cfg: Config, states: seq<Sys>, acts: seq<Action>, i: nat, x: UploadId)
    requires IsRun(cfg, states, acts) && i < |acts| && !Clean(states[i], acts[i], x)
    ensures DecidesLate(states[i], acts[i], x) || exists j :: 0 <= j < i && StopsHalfway(cfg, states[j], acts[j], x)
  {
    hide Bare, StopsHalfway, DecidesLate, Clean, Do, Enabled, Initial;
    if forall j :: 0 <= j < i ==> !StopsHalfway(cfg, states[j], acts[j], x) {
      BufferedHasNoDirectory(cfg, states, acts, i, x);
      if !DecidesLate(states[i], acts[i], x) {
        CleanHere(states[i], acts[i], x);
      }
    }
  }

  lemma TimelyIsClean(cfg: Config, states: seq<Sys>, acts: seq<Action>, i: nat, x: UploadId)
    requires IsRun(cfg, states, acts) && i <= |acts| && Timely(cfg, states, acts, i, x)
    ensures forall j :: 0 <= j < i ==> Clean(states[j], acts[j], x)
  {
    hide StopsHalfway, DecidesLate, Clean, Do, Enabled, Initial;
    forall j | 0 <= j < i
      ensures Clean(states[j], acts[j], x)
    {
      if !Clean(states[j], acts[j], x) {
        UncleanInTwoWaysOnly(cfg, states, acts, j, x);
      }
    }
  }

  /** With whole promotions and timely scans, nothing touches a guarded upload or
      its relay files while its holder rests. */
  lemma GuardProtectsInTime(cfg: Config, states: seq<Sys>, acts: seq<Action>, i: nat, j: nat, c: nat)
    requires IsRun(cfg, states, acts) && i <= j < |states|
    requires c in states[i].tasks && Guards(states[i].tasks[c]) && states[i].tasks[c].id in states[i].st.uploads
    requires Timely(cfg, states, acts, j, states[i].tasks[c].id)
    requires forall k :: i <= k < j ==> !(acts[k].TaskMoves? && acts[k].c == c)
    ensures Untouched(states[i], states[j], states[i].tasks[c].id)
    ensures c in states[j].tasks && states[j].tasks[c] == states[i].tasks[c]
  {
    hide Timely, Clean, Do, Enabled, Initial, Untouched, Guards;
    TimelyIsClean(cfg, states, acts, j, states[i].tasks[c].id);
    GuardProtectsThroughout(cfg, states, acts, i, j, c);
  }

  /** With whole promotions and timely scans, both completions answer the
      reference wherever the parts lie. */
  lemma PromotionIsInvisibleInTime(cfg: Config, states: seq<Sys>, acts: seq<Action>, i: nat, id: UploadId, bucket: string, key: string, req: PartList)
    requires Sound(cfg) && IsRun(cfg, states, acts) && i < |states| && Timely(cfg, states, acts, i, id)
    requires Owned(states[i].st, id, bucket, key) && states[i].st.uploads[id].phase == Open
    ensures id in states[i].h.content && AnswersReference(cfg, states[i], id, bucket, key, req)
  {
    hide Timely, Clean, Do, Enabled, Initial, AnswersReference;
    TimelyIsClean(cfg, states, acts, i, id);
    PromotionIsInvisible(cfg, states, acts, i, id, bucket, key, req);
  }
}
