/** Requests, completion tasks and sweepers interleaved over one multipart
    store. Every lock-held section of src/multipart.rs and every stage of the
    completion task of src/s3_adapter_s3s.rs is one step. */
module MultipartSystem {
  import opened Common
  import opened MultipartModel

  /** How a completion ended: an ETag, or a failure. */
  type Outcome = Option<string>

  /** Where an owning completion task is. A guarded task holds the store guard. */
  datatype Stage =
    | Admitted                                        // elected owner, nothing reserved yet
    | Storing(etag: string, relayed: bool, guarded: bool)
    | Returned(etag: string, ok: bool)                // the store is back, the guard still held
    | Stored(etag: string, ok: bool)                  // about to finish or roll back
    | Publishing(outcome: Outcome)
    | Dropping(guarded: bool)                         // rejected or panicked: the publisher unwinds
    | Sending(outcome: Outcome)                       // the slot is settled, the channel not yet
    | Gone

  datatype Task = Task(id: UploadId, bucket: string, key: string, req: PartList, stage: Stage)

  /** A request that joined the completion of `channel`. */
  datatype Waiter = Waiter(id: UploadId, req: PartList, channel: nat)

  /** A successful CompleteMultipartUpload answer. */
  datatype Response = Response(id: UploadId, req: PartList, etag: string)

  /** A store that succeeded: the part list and the ETag it was stored under. */
  datatype Win = Win(req: PartList, etag: string)

  /** An orphan sweep: its snapshot, and the directories it decided to delete. */
  datatype Scan = Scan(active: set<UploadId>, at: int, minAge: nat, condemned: set<UploadId>)

  /** What has happened so far; no step reads it. */
  datatype History = History(
    used: set<UploadId>,                      // upload ids ever drawn, and leftover directories
    content: map<UploadId, map<nat, Bytes>>,  // the bytes last accepted for each part
    wins: map<UploadId, seq<Win>>,            // the stores that succeeded
    orphaned: set<UploadId>,                  // the task died while it held the upload
    finished: map<UploadId, nat>,             // the task that finished the upload
    tombstones: map<UploadId, int>,           // when the success was published
    responses: seq<Response>)

  datatype Sys = Sys(
    st: Store,
    now: int,
    removed: map<UploadId, Upload>,     // out of the table, bytes not yet released
    tasks: map<nat, Task>,              // by the channel the task owns
    channels: seq<Option<Outcome>>,     // watch channels, None until the outcome is sent
    waiters: set<Waiter>,
    scans: map<nat, Scan>,
    h: History)

  datatype ClientStep =
    | CreateUpload(id: UploadId, bucket: string, key: string, threshold: Option<nat>, always: bool)
    | PutPart(id: UploadId, bucket: string, key: string, n: nat, data: Bytes, lag: nat, disk: Disk)
    | AbortUpload(id: UploadId, bucket: string, key: string)
    | PurgeBucket(bucket: string)
    | Begin(id: UploadId, bucket: string, key: string, req: PartList)
    | JoinReturns(w: Waiter)

  datatype SweepStep =
    | SweepExpired(maxAge: nat, completingTimeout: nat)
    | PruneSlots(completingTimeout: nat)
    | ReleaseRemoved(id: UploadId, dirGone: bool)
    | ScanStart(k: nat, minAge: nat)
    | ScanExamine(k: nat, dir: UploadId)
    | ScanDelete(k: nat, dir: UploadId)

  datatype TaskStep =
    | Validate(passthrough: bool)
    | TakeGuard
    | StoreReturns(ok: bool)
    | DropGuard
    | Settle(dirGone: bool)
    | PublishSlot
    | Crash
    | ClearOwnSlot
    | Send

  datatype Action =
    | Tick(seconds: nat)
    | Client(client: ClientStep)
    | Sweep(sweep: SweepStep)
    | TaskMoves(c: nat, move: TaskStep)

  /** The task has validated and reserved `id` and not yet settled it. */
  ghost predicate Holds(t: Task, id: UploadId) {
    t.id == id && (t.stage.Storing? || t.stage.Returned? || t.stage.Stored?)
  }

  ghost predicate Guards(t: Task) {
    (t.stage.Storing? && t.stage.guarded) || t.stage.Returned? || t.stage == Dropping(true)
  }

  ghost function Wins(s: Sys, id: UploadId): seq<Win> {
    if id in s.h.wins then s.h.wins[id] else []
  }

  // ------------------------------------------------------------- client steps

  /** Move uploads out of the table; their bytes are released by later steps. */
  ghost function TakeOut(s: Sys, ids: set<UploadId>): Sys {
    s.(st := Remove(s.st, ids), removed := s.removed + Restrict(s.st.uploads, ids))
  }

  ghost function DoCreate(cfg: Config, s: Sys, id: UploadId, bucket: string, key: string,
                          threshold: Option<nat>, always: bool): Sys
  {
    var (st', r) := Create(cfg, s.st, id, bucket, key, threshold, always, s.now);
    if r.Ok?
    then s.(st := st', h := s.h.(used := s.h.used + {id}, content := s.h.content[id := map[]]))
    else s
  }

  ghost function WithPart(parts: map<nat, Bytes>, n: nat, data: Bytes): map<nat, Bytes> {
    parts[n := data]
  }

  ghost function DoPutPart(cfg: Config, s: Sys, id: UploadId, bucket: string, key: string, n: nat,
                           data: Bytes, lag: nat, disk: Disk): Sys
  {
    var (st', r) := UploadPart(cfg, s.st, id, bucket, key, n, data, s.st.inFlightBytes + lag, disk, s.now);
    if r.Ok? && id in s.h.content
    then s.(st := st', h := s.h.(content := s.h.content[id := WithPart(s.h.content[id], n, data)]))
    else s.(st := st')
  }

  ghost function Answer(s: Sys, id: UploadId, req: PartList, outcome: Outcome): (s': Sys)
    ensures s' == s.(h := s.h.(responses := s'.h.responses))
  {
    if outcome.Some?
    then s.(h := s.h.(responses := s.h.responses + [Response(id, req, outcome.value)]))
    else s
  }

  ghost function DoBegin(s: Sys, id: UploadId, bucket: string, key: string, req: PartList): (s': Sys)
    ensures s'.st == s.st.(slots := s'.st.slots) && s'.now == s.now && s'.removed == s.removed && s'.scans == s.scans
    ensures s'.h == s.h.(responses := s'.h.responses)
  {
    var c := |s.channels|;
    var (st', r) := BeginComplete(s.st, id, bucket, key, req, c, s.now);
    if r.Err? then s
    else
      match r.value
      case Owner => s.(st := st', channels := s.channels + [None],
                       tasks := s.tasks[c := Task(id, bucket, key, req, Admitted)])
      case Join(d) => s.(waiters := s.waiters + {Waiter(id, req, d)})
      case AlreadyDone(etag) => Answer(s, id, req, Some(etag))
  }

  ghost predicate ClientEnabled(s: Sys, a: ClientStep) {
    match a
    case CreateUpload(id, _, _, _, _) => id !in s.h.used
    case JoinReturns(w) => w in s.waiters && w.channel < |s.channels| && s.channels[w.channel].Some?
    case _ => true
  }

  ghost function DoClient(cfg: Config, s: Sys, a: ClientStep): Sys
    requires ClientEnabled(s, a)
  {
    match a
    case CreateUpload(id, bucket, key, threshold, always) => DoCreate(cfg, s, id, bucket, key, threshold, always)
    case PutPart(id, bucket, key, n, data, lag, disk) => DoPutPart(cfg, s, id, bucket, key, n, data, lag, disk)
    case AbortUpload(id, bucket, key) =>
      if AbortRefusal(s.st, id, bucket, key).Some? then s else TakeOut(s, {id})
    case PurgeBucket(bucket) =>
      if PurgeRefused(s.st, bucket) then s else TakeOut(s, InBucket(s.st, bucket))
    case Begin(id, bucket, key, req) => DoBegin(s, id, bucket, key, req)
    case JoinReturns(w) => Answer(s.(waiters := s.waiters - {w}), w.id, w.req, s.channels[w.channel].value)
  }

  // ------------------------------------------------------------ sweeper steps

  ghost predicate SweepEnabled(s: Sys, a: SweepStep) {
    match a
    case ReleaseRemoved(id, _) => id in s.removed
    case ScanExamine(k, dir) =>
      k in s.scans && Orphan(s.st.dirs, dir, s.scans[k].active, s.scans[k].minAge, s.now)
    case ScanDelete(k, dir) => k in s.scans && dir in s.scans[k].condemned
    case _ => true
  }

  ghost function DoSweep(cfg: Config, s: Sys, a: SweepStep): Sys
    requires SweepEnabled(s, a)
  {
    match a
    case SweepExpired(maxAge, completingTimeout) =>
      TakeOut(s, ExpiredIds(cfg, s.st, maxAge, completingTimeout, s.now))
    case PruneSlots(completingTimeout) => s.(st := Prune(s.st, completingTimeout, s.now))
    case ReleaseRemoved(id, dirGone) =>
      s.(st := Release(s.st, id, s.removed[id], dirGone), removed := s.removed - {id})
    case ScanStart(k, minAge) => s.(scans := s.scans[k := Scan(ActiveDirs(s.st), s.now, minAge, {})])
    case ScanExamine(k, dir) =>
      s.(scans := s.scans[k := s.scans[k].(condemned := s.scans[k].condemned + {dir})])
    case ScanDelete(k, dir) => s.(st := RemoveDir(s.st, dir))
  }

  // --------------------------------------------------------------- task steps

  ghost function AtStage(s: Sys, c: nat, stage: Stage): Sys
    requires c in s.tasks
  {
    s.(tasks := s.tasks[c := s.tasks[c].(stage := stage)])
  }

  ghost predicate Live(stage: Stage) {
    stage.Admitted? || stage.Storing? || stage.Returned? || stage.Stored? || stage.Publishing?
  }

  ghost predicate TaskEnabled(s: Sys, c: nat, a: TaskStep) {
    && c in s.tasks
    && c < |s.channels|
    && var stage := s.tasks[c].stage;
       match a
       case Validate(_) => stage.Admitted?
       case TakeGuard => stage.Storing? && stage.relayed && !stage.guarded
       case StoreReturns(_) => stage.Storing? && stage.guarded == stage.relayed
       case DropGuard => stage.Returned? || stage == Dropping(true)
       case Settle(_) => stage.Stored?
       case PublishSlot => stage.Publishing?
       case Crash => Live(stage)
       case ClearOwnSlot => stage == Dropping(false)
       case Send => stage.Sending?
  }

  ghost function DoValidate(cfg: Config, s: Sys, c: nat, passthrough: bool): (s': Sys)
    requires c in s.tasks
    ensures c in s'.tasks && s'.tasks == s.tasks[c := s.tasks[c].(stage := s'.tasks[c].stage)]
  {
    var t := s.tasks[c];
    if passthrough then
      var (st', r) := CompletePassthrough(cfg, s.st, t.id, t.bucket, t.key, t.req, s.now);
      if r.Err? then AtStage(s, c, Publishing(None))
      else AtStage(s.(st := st'), c, Storing(r.value.etag, r.value.payload.RelayedParts?, false))
    else
      var (st', r) := Complete(cfg, s.st, t.id, t.bucket, t.key, t.req, s.now);
      if r.Err? then AtStage(s, c, Publishing(None))
      else AtStage(s.(st := st'), c, Storing(r.value.etag, false, false))
  }

  ghost function DoStoreReturns(s: Sys, c: nat, ok: bool): Sys
    requires c in s.tasks && s.tasks[c].stage.Storing?
  {
    var t := s.tasks[c];
    var s1 := if ok then s.(h := s.h.(wins := s.h.wins[t.id := Wins(s, t.id) + [Win(t.req, t.stage.etag)]])) else s;
    AtStage(s1, c, if t.stage.relayed then Returned(t.stage.etag, ok) else Stored(t.stage.etag, ok))
  }

  ghost function DoDropGuard(s: Sys, c: nat): Sys
    requires c in s.tasks
  {
    var t := s.tasks[c];
    AtStage(s.(st := SetStoring(s.st, t.id, false)), c,
            if t.stage.Returned? then Stored(t.stage.etag, t.stage.ok) else Dropping(false))
  }

  ghost function DoSettle(s: Sys, c: nat, dirGone: bool): Sys
    requires c in s.tasks && s.tasks[c].stage.Stored?
  {
    var t := s.tasks[c];
    if t.stage.ok then
      AtStage(s.(st := Finish(s.st, t.id, dirGone), h := s.h.(finished := s.h.finished[t.id := c])),
              c, Publishing(Some(t.stage.etag)))
    else
      AtStage(s.(st := Rollback(s.st, t.id)), c, Publishing(None))
  }

  ghost function DoPublish(s: Sys, c: nat): Sys
    requires c in s.tasks && s.tasks[c].stage.Publishing?
  {
    var t := s.tasks[c];
    var s1 := s.(st := Publish(s.st, t.id, t.req, t.bucket, t.key, t.stage.outcome, s.now));
    AtStage(if t.stage.outcome.Some? then s1.(h := s1.h.(tombstones := s1.h.tombstones[t.id := s.now])) else s1,
            c, Sending(t.stage.outcome))
  }

  /** A live task unwinds: the upload it holds, if any, is left Completing. */
  ghost function DoCrash(s: Sys, c: nat): Sys
    requires c in s.tasks
  {
    var t := s.tasks[c];
    AtStage(if Holds(t, t.id) then s.(h := s.h.(orphaned := s.h.orphaned + {t.id})) else s,
            c, Dropping(Guards(t)))
  }

  ghost function DoSend(s: Sys, c: nat): Sys
    requires c in s.tasks && c < |s.channels| && s.tasks[c].stage.Sending?
  {
    var t := s.tasks[c];
    Answer(AtStage(s.(channels := s.channels[c := Some(t.stage.outcome)]), c, Gone), t.id, t.req, t.stage.outcome)
  }

  /** A task step moves that task to another stage and leaves the others alone. */
  ghost function DoTask(cfg: Config, s: Sys, c: nat, a: TaskStep): (s': Sys)
    requires TaskEnabled(s, c, a)
    ensures c in s'.tasks && s'.tasks == s.tasks[c := s.tasks[c].(stage := s'.tasks[c].stage)]
  {
    match a
    case Validate(passthrough) => DoValidate(cfg, s, c, passthrough)
    case TakeGuard =>
      AtStage(s.(st := SetStoring(s.st, s.tasks[c].id, true)), c, s.tasks[c].stage.(guarded := true))
    case StoreReturns(ok) => DoStoreReturns(s, c, ok)
    case DropGuard => DoDropGuard(s, c)
    case Settle(dirGone) => DoSettle(s, c, dirGone)
    case PublishSlot => DoPublish(s, c)
    case Crash => DoCrash(s, c)
    case ClearOwnSlot => AtStage(s.(st := ClearSlot(s.st, s.tasks[c].id)), c, Sending(None))
    case Send => DoSend(s, c)
  }

  // ---------------------------------------------------------------------- runs

  ghost predicate Enabled(s: Sys, a: Action) {
    match a
    case Tick(_) => true
    case Client(step) => ClientEnabled(s, step)
    case Sweep(step) => SweepEnabled(s, step)
    case TaskMoves(c, step) => TaskEnabled(s, c, step)
  }

  ghost function Do(cfg: Config, s: Sys, a: Action): Sys
    requires Enabled(s, a)
  {
    match a
    case Tick(d) => s.(now := s.now + d)
    case Client(step) => DoClient(cfg, s, step)
    case Sweep(step) => DoSweep(cfg, s, step)
    case TaskMoves(c, step) => DoTask(cfg, s, c, step)
  }

  /** The store starts empty; there may be stale relay directories on disk. */
  ghost predicate Initial(s: Sys) {
    && s.st.uploads == map[] && s.st.slots == map[] && s.st.inFlightBytes == 0
    && s.h == History(s.st.dirs.Keys, map[], map[], {}, map[], map[], [])
    && s.removed == map[] && s.tasks == map[] && s.channels == [] && s.waiters == {} && s.scans == map[]
    && (forall d :: d in s.st.dirs ==> s.st.dirs[d] <= s.now)
  }

  ghost predicate IsRun(cfg: Config, states: seq<Sys>, acts: seq<Action>) {
    && |states| == |acts| + 1
    && Initial(states[0])
    && forall i :: 0 <= i < |acts| ==> Enabled(states[i], acts[i]) && states[i + 1] == Do(cfg, states[i], acts[i])
  }

  /** Some run ends in `s`. */
  ghost predicate Reached(cfg: Config, s: Sys) {
    exists states: seq<Sys>, acts: seq<Action> :: IsRun(cfg, states, acts) && states[|acts|] == s
  }

  lemma ReachInitial(cfg: Config, s: Sys)
    requires Initial(s)
    ensures Reached(cfg, s)
  {
    hide Initial, Enabled, Do;
    var states, acts: seq<Action> := [s], [];
    assert IsRun(cfg, states, acts) && states[|acts|] == s;
  }

  lemma ReachNext(cfg: Config, s: Sys, a: Action)
    requires Reached(cfg, s) && Enabled(s, a)
    ensures Reached(cfg, Do(cfg, s, a))
  {
    hide Initial, Enabled, Do;
    var states: seq<Sys>, acts: seq<Action> :| IsRun(cfg, states, acts) && states[|acts|] == s;
    var states', acts' := states + [Do(cfg, s, a)], acts + [a];
    forall i | 0 <= i < |acts'|
      ensures Enabled(states'[i], acts'[i]) && states'[i + 1] == Do(cfg, states'[i], acts'[i])
    {
      if i < |acts| {
        assert Enabled(states[i], acts[i]) && states[i + 1] == Do(cfg, states[i], acts[i]);
      }
    }
    assert states'[0] == states[0];
    assert IsRun(cfg, states', acts') && states'[|acts'|] == Do(cfg, s, a);
  }

  /** A process that has just started on an empty disk. */
  const FRESH: Sys :=
    Sys(Store(map[], map[], 0, map[], map[]), 0, map[], map[], [], {}, map[], History({}, map[], map[], {}, map[], map[], []))

  // ------------------------------------------------------- what steps may touch

  /** Validation either fails and changes nothing, or finds an Open upload of
      the right bucket and key and reserves it. */
  lemma ValidateEffect(cfg: Config, s: Sys, c: nat, passthrough: bool)
    requires c in s.tasks
    ensures var t := s.tasks[c];
            var s' := DoValidate(cfg, s, c, passthrough);
            || s' == AtStage(s, c, Publishing(None))
            || (&& Owned(s.st, t.id, t.bucket, t.key)
                && s.st.uploads[t.id].phase == Open
                && s'.tasks[c].stage.Storing? && !s'.tasks[c].stage.guarded
                && s' == AtStage(s.(st := Reserve(s.st, t.id, s.now)), c, s'.tasks[c].stage))
  {
  }

  /** UploadPart changes at most the parts of one Open upload of the right
      bucket and key, never its lifecycle flags, and no registry slot. */
  lemma PutPartEffect(cfg: Config, s: Store, id: UploadId, bucket: string, key: string, n: nat,
                      data: Bytes, counter: nat, disk: Disk, now: int)
    ensures var r := UploadPart(cfg, s, id, bucket, key, n, data, counter, disk, now).0;
            && r.slots == s.slots
            && (r == s
                || (&& Owned(s, id, bucket, key)
                    && s.uploads[id].phase == Open
                    && id in r.uploads
                    && r.uploads == s.uploads[id := r.uploads[id]]
                    && r.uploads[id] == s.uploads[id].(parts := r.uploads[id].parts, relay := r.uploads[id].relay,
                                                       lastActivity := r.uploads[id].lastActivity)))
  {
    hide BytesOf, MoveToRelay, WrittenFiles, Wrap, QuotedHex;
  }

  /** What a client request other than Complete leaves alone. */
  ghost predicate ClientFrame(s: Sys, s': Sys) {
    && s'.st.slots == s.st.slots && s'.tasks == s.tasks && s'.channels == s.channels && s'.now == s.now
    && s'.h.wins == s.h.wins && s'.h.orphaned == s.h.orphaned
    && s'.h.finished == s.h.finished && s'.h.tombstones == s.h.tombstones
    && s.h.used <= s'.h.used
  }

  lemma PutPartFrame(cfg: Config, s: Sys, id: UploadId, bucket: string, key: string, n: nat, data: Bytes, lag: nat, disk: Disk)
    ensures var s' := DoPutPart(cfg, s, id, bucket, key, n, data, lag, disk);
            ClientFrame(s, s') && forall i :: i in s'.st.uploads ==> i in s.st.uploads
  {
    hide UploadPart;
    PutPartEffect(cfg, s.st, id, bucket, key, n, data, s.st.inFlightBytes + lag, disk, s.now);
  }

  /** Client requests other than Complete leave registry and tasks alone, and
      add at most one fresh upload. */
  lemma ClientEffect(cfg: Config, s: Sys, a: ClientStep)
    requires ClientEnabled(s, a) && !a.Begin?
    ensures var s' := DoClient(cfg, s, a);
            && ClientFrame(s, s')
            && (forall id :: id in s'.st.uploads ==> id in s.st.uploads || (a.CreateUpload? && id == a.id))
  {
    hide DoPutPart, AbortRefusal, PurgeRefused, InBucket, Restrict;
    if a.PutPart? {
      PutPartFrame(cfg, s, a.id, a.bucket, a.key, a.n, a.data, a.lag, a.disk);
    }
  }
}
