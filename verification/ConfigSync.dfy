/** Nodes sharing one config database object through conditional PUTs
    (src/config_db_sync.rs), as steps of a machine. The merge is the one of
    src/config_db/mod.rs: the IAM tables are replaced, and the session
    revocations are merged to the later of the two. */
module ConfigSync {
  import opened Common

  type Etag = string
  type Identity = string
  type Revocations = map<Identity, int>

  /** The synced tables of a config database. */
  datatype Db = Db(iam: string, revs: Revocations)

  /** The object in the sync bucket. */
  datatype Object = Object(etag: Etag, db: Db)

  const MAX_UPLOAD_ATTEMPTS: nat := 3

  // ------------------------------------------------------------- revocations

  /** `a` knows every revocation of `b`, at least as late. */
  ghost predicate AtLeast(a: Revocations, b: Revocations) {
    forall i :: i in b ==> i in a && a[i] >= b[i]
  }

  /** The MAX-upsert of one table of revocations into another. */
  function MaxMerge(a: Revocations, b: Revocations): (r: Revocations)
    ensures AtLeast(r, a) && AtLeast(r, b)
  {
    map i | i in a.Keys + b.Keys ::
      if i in a && i in b then Max(a[i], b[i]) else if i in a then a[i] else b[i]
  }

  /** The merge invents nothing: it is the least table above both sides. */
  lemma MaxMergeIsLeast(a: Revocations, b: Revocations, c: Revocations)
    ensures AtLeast(c, MaxMerge(a, b)) <==> AtLeast(c, a) && AtLeast(c, b)
  {
  }

  lemma AtLeastTrans(a: Revocations, b: Revocations, c: Revocations)
    requires AtLeast(a, b) && AtLeast(b, c)
    ensures AtLeast(a, c)
  {
  }

  /** merge_iam_from. */
  function Merge(local: Db, remote: Db): Db {
    Db(remote.iam, MaxMerge(local.revs, remote.revs))
  }

  /** revoke_identity_sessions. */
  function Revoke(db: Db, identity: Identity, at: int): Db {
    db.(revs := MaxMerge(db.revs, map[identity := at]))
  }

  // ------------------------------------------------------------------- state

  /** Where a download is: download_if_newer, the merge, the commit. */
  datatype Fetch =
    | NeedHead
    | Headed(etag: Etag)
    | Wanted(etag: Etag)
    | Fetched(etag: Etag, db: Db)
    | Merged(etag: Etag)
    | Over

  /** Where an upload_with_reconcile call is. */
  datatype Stage =
    | Waiting                                                    // for the node's upload lock
    | Reading(attempt: nat)
    | HaveData(attempt: nat, data: Db)                           // file read, ETag not yet
    | Sent(attempt: nat, data: Db, expected: Option<Etag>)       // conditional PUT on its way
    | Applied(attempt: nat, data: Db, etag: Etag)                // the server took it
    | Reconciling(attempt: nat, fetch: Fetch)
    | Finished(ok: bool)

  /** A call, with the revocations the node held when it was made. */
  datatype Call = Call(since: Revocations, stage: Stage)

  datatype Node = Node(
    db: Db,
    lastEtag: Option<Etag>,
    needsUpload: bool,
    fetches: map<nat, Fetch>,
    calls: map<nat, Call>,
    issued: Revocations)          // history: what was revoked on this node

  /** A PUT its sender has given up on; it may still reach the server. */
  datatype Put = Put(data: Db, expected: Option<Etag>)

  datatype Sys = Sys(
    nodes: map<nat, Node>,
    remote: Option<Object>,
    late: set<Put>,
    versions: map<Etag, Db>)      // history: what every ETag stands for

  datatype FetchStep =
    | Head(ok: bool)
    | Compare
    | Get(ok: bool)
    | MergeIn(ok: bool)
    | Commit

  datatype CallStep =
    | Acquire
    | ReadFile(ok: bool)
    | SnapshotEtag
    | ServerApplies(etag: Etag)
    | ServerRefuses
    | PutFails                    // any other error, before or after the PUT took effect
    | Acknowledge(withEtag: bool)
    | Reconcile(step: FetchStep)
    | ReconcileEnds

  datatype Action =
    | RevokeOn(n: nat, identity: Identity, at: int, c: nat)
    | ChangeIam(n: nat, iam: string, c: nat)
    | FlushQueued(n: nat, c: nat)
    | StartPoll(n: nat, k: nat)
    | PollMoves(n: nat, k: nat, fetchStep: FetchStep)
    | CallMoves(n: nat, c: nat, callStep: CallStep)
    | LatePutLands(n: nat, put: Put, etag: Etag)

  // --------------------------------------------------------------- downloads

  ghost predicate FetchEnabled(f: Fetch, step: FetchStep) {
    match step
    case Head(_) => f.NeedHead?
    case Compare => f.Headed?
    case Get(_) => f.Wanted?
    case MergeIn(_) => f.Fetched?
    case Commit => f.Merged?
  }

  /** What the download does next. */
  ghost function FetchNext(nd: Node, remote: Option<Object>, f: Fetch, step: FetchStep): Fetch
    requires FetchEnabled(f, step)
  {
    match step
    case Head(ok) => if ok && remote.Some? then Headed(remote.value.etag) else Over
    case Compare => if nd.lastEtag == Some(f.etag) then Over else Wanted(f.etag)
    case Get(ok) =>
      if ok && remote.Some? && remote.value.etag == f.etag then Fetched(f.etag, remote.value.db) else Over
    case MergeIn(ok) => if ok then Merged(f.etag) else Over
    case Commit => Over
  }

  /** What it changes on its node. */
  ghost function FetchEffect(nd: Node, f: Fetch, step: FetchStep): (nd': Node)
    requires FetchEnabled(f, step)
    ensures nd' == nd.(db := nd'.db, lastEtag := nd'.lastEtag)
  {
    match step
    case MergeIn(ok) => if ok then nd.(db := Merge(nd.db, f.db)) else nd
    case Commit => nd.(lastEtag := Some(f.etag))
    case _ => nd
  }

  // ----------------------------------------------------------------- uploads

  ghost predicate Active(stage: Stage) {
    !stage.Waiting? && !stage.Finished?
  }

  ghost predicate LockFree(nd: Node) {
    forall c :: c in nd.calls ==> !Active(nd.calls[c].stage)
  }

  /** The server's compare half: If-Match, or If-None-Match: *. */
  ghost predicate PreconditionHolds(remote: Option<Object>, expected: Option<Etag>) {
    if expected.Some? then remote.Some? && remote.value.etag == expected.value else remote.None?
  }

  /** An ETag never stands for two different contents. */
  ghost predicate Names(versions: map<Etag, Db>, etag: Etag, db: Db) {
    etag in versions ==> versions[etag] == db
  }

  ghost predicate CallEnabled(s: Sys, nd: Node, stage: Stage, step: CallStep) {
    match step
    case Acquire => stage.Waiting? && LockFree(nd)
    case ReadFile(_) => stage.Reading?
    case SnapshotEtag => stage.HaveData?
    case ServerApplies(etag) =>
      stage.Sent? && PreconditionHolds(s.remote, stage.expected) && Names(s.versions, etag, stage.data)
    case ServerRefuses => stage.Sent? && !PreconditionHolds(s.remote, stage.expected)
    case PutFails => stage.Sent? || stage.Applied?
    case Acknowledge(_) => stage.Applied?
    case Reconcile(fetchStep) => stage.Reconciling? && FetchEnabled(stage.fetch, fetchStep)
    case ReconcileEnds => stage.Reconciling? && stage.fetch.Over?
  }

  ghost function WithStage(nd: Node, c: nat, stage: Stage): Node
    requires c in nd.calls
  {
    nd.(calls := nd.calls[c := nd.calls[c].(stage := stage)])
  }

  /** The attempt failed: try again, or queue the upload for the next poll. */
  ghost function NextAttempt(nd: Node, c: nat, attempt: nat): (nd': Node)
    requires c in nd.calls
    ensures c in nd'.calls && nd'.calls == nd.calls[c := nd.calls[c].(stage := nd'.calls[c].stage)]
    ensures nd'.issued == nd.issued && nd'.fetches == nd.fetches
  {
    if attempt < MAX_UPLOAD_ATTEMPTS then WithStage(nd, c, Reading(attempt + 1))
    else WithStage(nd.(needsUpload := true), c, Finished(false))
  }

  /** A call step moves that call on and leaves the others alone. */
  ghost function CallNode(s: Sys, nd: Node, c: nat, step: CallStep): (nd': Node)
    requires c in nd.calls && CallEnabled(s, nd, nd.calls[c].stage, step)
    ensures c in nd'.calls && nd'.calls == nd.calls[c := nd.calls[c].(stage := nd'.calls[c].stage)]
    ensures nd'.issued == nd.issued
  {
    var stage := nd.calls[c].stage;
    match step
    case Acquire => WithStage(nd, c, Reading(1))
    case ReadFile(ok) => if ok then WithStage(nd, c, HaveData(stage.attempt, nd.db)) else NextAttempt(nd, c, stage.attempt)
    case SnapshotEtag => WithStage(nd, c, Sent(stage.attempt, stage.data, nd.lastEtag))
    case ServerApplies(etag) => WithStage(nd, c, Applied(stage.attempt, stage.data, etag))
    case ServerRefuses => WithStage(nd.(lastEtag := None), c, Reconciling(stage.attempt, NeedHead))
    case PutFails => NextAttempt(nd, c, stage.attempt)
    case Acknowledge(withEtag) =>
      WithStage(if withEtag then nd.(lastEtag := Some(stage.etag)) else nd, c, Finished(true))
    case Reconcile(fetchStep) =>
      WithStage(FetchEffect(nd, stage.fetch, fetchStep), c,
                Reconciling(stage.attempt, FetchNext(nd, s.remote, stage.fetch, fetchStep)))
    case ReconcileEnds => NextAttempt(nd, c, stage.attempt)
  }

  /** The server takes a PUT. */
  ghost function Stored(s: Sys, data: Db, etag: Etag): Sys {
    s.(remote := Some(Object(etag, data)), versions := s.versions[etag := data])
  }

  /** Only a PUT the server takes changes the shared object. */
  ghost function CallRemote(s: Sys, stage: Stage, step: CallStep): Sys {
    if step.ServerApplies? && stage.Sent? then Stored(s, stage.data, step.etag)
    else if step.PutFails? && stage.Sent? then s.(late := s.late + {Put(stage.data, stage.expected)})
    else s
  }

  // -------------------------------------------------------------------- runs

  ghost predicate Enabled(s: Sys, a: Action) {
    && a.n in s.nodes
    && var nd := s.nodes[a.n];
       match a
       case RevokeOn(_, _, _, c) => c !in nd.calls
       case ChangeIam(_, _, c) => c !in nd.calls
       case FlushQueued(_, c) => c !in nd.calls
       case StartPoll(_, k) => k !in nd.fetches
       case PollMoves(_, k, step) => k in nd.fetches && FetchEnabled(nd.fetches[k], step)
       case CallMoves(_, c, step) => c in nd.calls && CallEnabled(s, nd, nd.calls[c].stage, step)
       case LatePutLands(_, put, etag) =>
         put in s.late && PreconditionHolds(s.remote, put.expected) && Names(s.versions, etag, put.data)
  }

  ghost function Calling(nd: Node, c: nat): Node {
    nd.(calls := nd.calls[c := Call(nd.db.revs, Waiting)])
  }

  ghost function NodeAfter(s: Sys, a: Action): Node
    requires Enabled(s, a)
  {
    var nd := s.nodes[a.n];
    match a
    case RevokeOn(_, identity, at, c) =>
      Calling(nd.(db := Revoke(nd.db, identity, at), issued := MaxMerge(nd.issued, map[identity := at])), c)
    case ChangeIam(_, iam, c) => Calling(nd.(db := nd.db.(iam := iam)), c)
    case FlushQueued(_, c) => if nd.needsUpload then Calling(nd.(needsUpload := false), c) else nd
    case StartPoll(_, k) => nd.(fetches := nd.fetches[k := NeedHead])
    case PollMoves(_, k, step) =>
      FetchEffect(nd, nd.fetches[k], step).(fetches := nd.fetches[k := FetchNext(nd, s.remote, nd.fetches[k], step)])
    case CallMoves(_, c, step) => CallNode(s, nd, c, step)
    case LatePutLands(_, _, _) => nd
  }

  ghost function RemoteAfter(s: Sys, a: Action): Sys
    requires Enabled(s, a)
  {
    match a
    case CallMoves(n, c, step) => CallRemote(s, s.nodes[n].calls[c].stage, step)
    case LatePutLands(_, put, etag) => Stored(s, put.data, etag)
    case _ => s
  }

  ghost function Do(s: Sys, a: Action): Sys
    requires Enabled(s, a)
  {
    RemoteAfter(s, a).(nodes := s.nodes[a.n := NodeAfter(s, a)])
  }

  /** Fresh nodes; the object may already exist. */
  ghost predicate Initial(s: Sys) {
    && (forall n :: n in s.nodes ==>
          var nd := s.nodes[n];
          nd.lastEtag.None? && !nd.needsUpload && nd.fetches == map[] && nd.calls == map[] && nd.issued == map[])
    && s.late == {}
    && (if s.remote.Some? then s.versions == map[s.remote.value.etag := s.remote.value.db] else s.versions == map[])
  }

  ghost predicate IsRun(states: seq<Sys>, acts: seq<Action>) {
    && |states| == |acts| + 1
    && Initial(states[0])
    && forall i :: 0 <= i < |acts| ==> Enabled(states[i], acts[i]) && states[i + 1] == Do(states[i], acts[i])
  }

  // -------------------------------------------- what a remembered ETag vouches for

  ghost predicate Vouched(versions: map<Etag, Db>, etag: Etag, revs: Revocations) {
    etag in versions && AtLeast(revs, versions[etag].revs)
  }

  ghost predicate FetchOk(f: Fetch, revs: Revocations, versions: map<Etag, Db>) {
    && (f.Fetched? ==> f.etag in versions && versions[f.etag] == f.db)
    && (f.Merged? ==> Vouched(versions, f.etag, revs))
  }

  ghost predicate StageOk(stage: Stage, since: Revocations, revs: Revocations, versions: map<Etag, Db>) {
    && AtLeast(revs, since)
    && (stage.HaveData? || stage.Sent? || stage.Applied? ==>
          AtLeast(revs, stage.data.revs) && AtLeast(stage.data.revs, since))
    && (stage.Applied? ==> stage.etag in versions && versions[stage.etag] == stage.data)
    && (stage.Reconciling? ==> FetchOk(stage.fetch, revs, versions))
  }

  ghost predicate NodeOk(nd: Node, versions: map<Etag, Db>) {
    && (nd.lastEtag.Some? ==> Vouched(versions, nd.lastEtag.value, nd.db.revs))
    && AtLeast(nd.db.revs, nd.issued)
    && (forall k :: k in nd.fetches ==> FetchOk(nd.fetches[k], nd.db.revs, versions))
    && (forall c :: c in nd.calls ==> StageOk(nd.calls[c].stage, nd.calls[c].since, nd.db.revs, versions))
    && (forall c, d :: c in nd.calls && d in nd.calls && Active(nd.calls[c].stage) && Active(nd.calls[d].stage) ==> c == d)
  }

  ghost predicate RemoteOk(remote: Option<Object>, versions: map<Etag, Db>) {
    remote.Some? ==> remote.value.etag in versions && versions[remote.value.etag] == remote.value.db
  }

  ghost predicate SyncInv(s: Sys) {
    && RemoteOk(s.remote, s.versions)
    && forall n :: n in s.nodes ==> NodeOk(s.nodes[n], s.versions)
  }

  /** More versions and more revocations leave everything vouched for. */
  lemma FetchOkGrows(f: Fetch, revs: Revocations, revs': Revocations, versions: map<Etag, Db>, versions': map<Etag, Db>)
    requires FetchOk(f, revs, versions) && AtLeast(revs', revs)
    requires forall e :: e in versions ==> e in versions' && versions'[e] == versions[e]
    ensures FetchOk(f, revs', versions')
  {
  }

  lemma StageOkGrows(stage: Stage, since: Revocations, revs: Revocations, revs': Revocations,
                     versions: map<Etag, Db>, versions': map<Etag, Db>)
    requires StageOk(stage, since, revs, versions) && AtLeast(revs', revs)
    requires forall e :: e in versions ==> e in versions' && versions'[e] == versions[e]
    ensures StageOk(stage, since, revs', versions')
  {
  }

  /** A node stays in order when its database only gains revocations. */
  lemma NodeOkGrows(nd: Node, nd': Node, versions: map<Etag, Db>, versions': map<Etag, Db>)
    requires NodeOk(nd, versions)
    requires nd' == nd.(db := nd'.db) && AtLeast(nd'.db.revs, nd.db.revs)
    requires forall e :: e in versions ==> e in versions' && versions'[e] == versions[e]
    ensures NodeOk(nd', versions')
  {
    hide StageOk, FetchOk, AtLeast;
    if nd.lastEtag.Some? {
      AtLeastTrans(nd'.db.revs, nd.db.revs, versions[nd.lastEtag.value].revs);
    }
    AtLeastTrans(nd'.db.revs, nd.db.revs, nd.issued);
    forall k | k in nd.fetches
      ensures FetchOk(nd.fetches[k], nd'.db.revs, versions')
    {
      FetchOkGrows(nd.fetches[k], nd.db.revs, nd'.db.revs, versions, versions');
    }
    forall c | c in nd.calls
      ensures StageOk(nd.calls[c].stage, nd.calls[c].since, nd'.db.revs, versions')
    {
      StageOkGrows(nd.calls[c].stage, nd.calls[c].since, nd.db.revs, nd'.db.revs, versions, versions');
    }
  }

  /** A download step keeps its node and itself in order. */
  lemma FetchStepKeeps(nd: Node, remote: Option<Object>, f: Fetch, step: FetchStep, versions: map<Etag, Db>)
    requires NodeOk(nd, versions) && RemoteOk(remote, versions)
    requires FetchOk(f, nd.db.revs, versions) && FetchEnabled(f, step)
    ensures NodeOk(FetchEffect(nd, f, step), versions)
    ensures FetchOk(FetchNext(nd, remote, f, step), FetchEffect(nd, f, step).db.revs, versions)
    ensures AtLeast(FetchEffect(nd, f, step).db.revs, nd.db.revs)
  {
    hide StageOk;
    if step.MergeIn? && step.ok {
      NodeOkGrows(nd, FetchEffect(nd, f, step), versions, versions);
    }
  }

  lemma WithStageKeeps(nd: Node, c: nat, stage: Stage, versions: map<Etag, Db>)
    requires NodeOk(nd, versions) && c in nd.calls
    requires StageOk(stage, nd.calls[c].since, nd.db.revs, versions)
    requires Active(stage) ==> Active(nd.calls[c].stage) || LockFree(nd)
    ensures NodeOk(WithStage(nd, c, stage), versions)
  {
  }

  lemma NextAttemptKeeps(nd: Node, c: nat, attempt: nat, versions: map<Etag, Db>)
    requires NodeOk(nd, versions) && c in nd.calls && Active(nd.calls[c].stage)
    ensures NodeOk(NextAttempt(nd, c, attempt), versions)
  {
    hide FetchOk, AtLeast, NodeOk;
    assert AtLeast(nd.db.revs, nd.calls[c].since) by { CallIsOk(nd, c, versions); }
    if attempt < MAX_UPLOAD_ATTEMPTS {
      WithStageKeeps(nd, c, Reading(attempt + 1), versions);
    } else {
      FlagKeeps(nd, true, versions);
      WithStageKeeps(nd.(needsUpload := true), c, Finished(false), versions);
    }
  }

  lemma CallIsOk(nd: Node, c: nat, versions: map<Etag, Db>)
    requires NodeOk(nd, versions) && c in nd.calls
    ensures StageOk(nd.calls[c].stage, nd.calls[c].since, nd.db.revs, versions)
    ensures AtLeast(nd.db.revs, nd.calls[c].since)
  {
  }

  lemma FlagKeeps(nd: Node, flag: bool, versions: map<Etag, Db>)
    requires NodeOk(nd, versions)
    ensures NodeOk(nd.(needsUpload := flag), versions)
  {
  }

  lemma EtagKeeps(nd: Node, etag: Option<Etag>, versions: map<Etag, Db>)
    requires NodeOk(nd, versions)
    requires etag.Some? ==> Vouched(versions, etag.value, nd.db.revs)
    ensures NodeOk(nd.(lastEtag := etag), versions)
  {
  }

  /** A call step keeps its node in order. */
  lemma CallStepKeeps(s: Sys, nd: Node, c: nat, step: CallStep)
    requires NodeOk(nd, s.versions) && RemoteOk(s.remote, s.versions)
    requires c in nd.calls && CallEnabled(s, nd, nd.calls[c].stage, step)
    ensures NodeOk(CallNode(s, nd, c, step), CallRemote(s, nd.calls[c].stage, step).versions)
  {
    hide NodeOk, AtLeast, FetchOk;
    var stage := nd.calls[c].stage;
    CallIsOk(nd, c, s.versions);
    match step
    case Acquire => WithStageKeeps(nd, c, Reading(1), s.versions);
    case ReadFile(ok) =>
      if ok {
        SameRevs(nd.db.revs);
        WithStageKeeps(nd, c, HaveData(stage.attempt, nd.db), s.versions);
      } else {
        NextAttemptKeeps(nd, c, stage.attempt, s.versions);
      }
    case SnapshotEtag => WithStageKeeps(nd, c, Sent(stage.attempt, stage.data, nd.lastEtag), s.versions);
    case ServerApplies(etag) =>
      var versions := s.versions[etag := stage.data];
      SameRevs(nd.db.revs);
      NodeOkGrows(nd, nd, s.versions, versions);
      WithStageKeeps(nd, c, Applied(stage.attempt, stage.data, etag), versions);
    case ServerRefuses =>
      EtagKeeps(nd, None, s.versions);
      assert FetchOk(NeedHead, nd.db.revs, s.versions) by { NothingFetched(nd.db.revs, s.versions); }
      WithStageKeeps(nd.(lastEtag := None), c, Reconciling(stage.attempt, NeedHead), s.versions);
    case PutFails => NextAttemptKeeps(nd, c, stage.attempt, s.versions);
    case Acknowledge(withEtag) =>
      var nd1 := if withEtag then nd.(lastEtag := Some(stage.etag)) else nd;
      EtagKeeps(nd, if withEtag then Some(stage.etag) else None, s.versions);
      WithStageKeeps(nd1, c, Finished(true), s.versions);
    case Reconcile(fetchStep) =>
      FetchStepKeeps(nd, s.remote, stage.fetch, fetchStep, s.versions);
      var nd1 := FetchEffect(nd, stage.fetch, fetchStep);
      CallIsOk(nd1, c, s.versions);
      WithStageKeeps(nd1, c, Reconciling(stage.attempt, FetchNext(nd, s.remote, stage.fetch, fetchStep)), s.versions);
    case ReconcileEnds => NextAttemptKeeps(nd, c, stage.attempt, s.versions);
  }

  lemma SameRevs(revs: Revocations)
    ensures AtLeast(revs, revs)
  {
  }

  lemma NothingFetched(revs: Revocations, versions: map<Etag, Db>)
    ensures FetchOk(NeedHead, revs, versions)
  {
  }

  lemma CallingKeeps(nd: Node, c: nat, versions: map<Etag, Db>)
    requires NodeOk(nd, versions) && c !in nd.calls
    ensures NodeOk(Calling(nd, c), versions)
  {
  }

  lemma RevokeKeeps(nd: Node, identity: Identity, at: int, c: nat, versions: map<Etag, Db>)
    requires NodeOk(nd, versions) && c !in nd.calls
    ensures NodeOk(Calling(nd.(db := Revoke(nd.db, identity, at), issued := MaxMerge(nd.issued, map[identity := at])), c), versions)
  {
    hide FetchOk, StageOk;
    var nd1 := nd.(db := Revoke(nd.db, identity, at));
    NodeOkGrows(nd, nd1, versions, versions);
    var nd2 := nd1.(issued := MaxMerge(nd.issued, map[identity := at]));
    CallingKeeps(nd2, c, versions);
  }

  lemma NodeAfterKeeps(s: Sys, a: Action)
    requires SyncInv(s) && Enabled(s, a)
    ensures NodeOk(NodeAfter(s, a), RemoteAfter(s, a).versions)
  {
    hide NodeOk, AtLeast, FetchOk, CallNode, CallRemote, CallEnabled;
    var nd := s.nodes[a.n];
    assert NodeOk(nd, s.versions);
    match a
    case RevokeOn(_, identity, at, c) => RevokeKeeps(nd, identity, at, c, s.versions);
    case ChangeIam(_, iam, c) =>
      SameRevs(nd.db.revs);
      NodeOkGrows(nd, nd.(db := nd.db.(iam := iam)), s.versions, s.versions);
      CallingKeeps(nd.(db := nd.db.(iam := iam)), c, s.versions);
    case FlushQueued(_, c) =>
      FlagKeeps(nd, false, s.versions);
      if nd.needsUpload {
        CallingKeeps(nd.(needsUpload := false), c, s.versions);
      }
    case StartPoll(_, k) => PollKeeps(nd, k, NeedHead, s.versions);
    case PollMoves(_, k, step) =>
      FetchIsOk(nd, k, s.versions);
      FetchStepKeeps(nd, s.remote, nd.fetches[k], step, s.versions);
      PollKeeps(FetchEffect(nd, nd.fetches[k], step), k, FetchNext(nd, s.remote, nd.fetches[k], step), s.versions);
    case CallMoves(_, c, step) => CallStepKeeps(s, nd, c, step);
    case LatePutLands(_, put, etag) =>
      SameRevs(nd.db.revs);
      NodeOkGrows(nd, nd, s.versions, s.versions[etag := put.data]);
  }

  lemma FetchIsOk(nd: Node, k: nat, versions: map<Etag, Db>)
    requires NodeOk(nd, versions) && k in nd.fetches
    ensures FetchOk(nd.fetches[k], nd.db.revs, versions)
  {
  }

  lemma PollKeeps(nd: Node, k: nat, f: Fetch, versions: map<Etag, Db>)
    requires NodeOk(nd, versions)
    requires f.NeedHead? || FetchOk(f, nd.db.revs, versions)
    ensures NodeOk(nd.(fetches := nd.fetches[k := f]), versions)
  {
  }

  lemma StepKeeps(s: Sys, a: Action)
    requires SyncInv(s) && Enabled(s, a)
    ensures SyncInv(Do(s, a))
  {
    hide NodeOk, AtLeast, NodeAfter;
    NodeAfterKeeps(s, a);
    VersionsGrow(s, a);
    var s' := Do(s, a);
    forall n | n in s'.nodes
      ensures NodeOk(s'.nodes[n], s'.versions)
    {
      if n != a.n {
        SameRevs(s.nodes[n].db.revs);
        NodeOkGrows(s.nodes[n], s.nodes[n], s.versions, s'.versions);
      }
    }
  }

  lemma VersionsGrow(s: Sys, a: Action)
    requires RemoteOk(s.remote, s.versions) && Enabled(s, a)
    ensures var s' := RemoteAfter(s, a);
            && RemoteOk(s'.remote, s'.versions)
            && forall e :: e in s.versions ==> e in s'.versions && s'.versions[e] == s.versions[e]
  {
  }

  lemma {:induction false} SyncAlways(states: seq<Sys>, acts: seq<Action>, i: nat)
    requires IsRun(states, acts) && i < |states|
    ensures SyncInv(states[i])
    decreases i
  {
    if i > 0 {
      SyncAlways(states, acts, i - 1);
      StepKeeps(states[i - 1], acts[i - 1]);
    }
  }

  /** In every run, a node that remembers an ETag holds all revocations of the
      version it names. */
  lemma RememberedVersionIsHeld(states: seq<Sys>, acts: seq<Action>, i: nat, n: nat)
    requires IsRun(states, acts) && i < |states| && n in states[i].nodes
    ensures var nd := states[i].nodes[n];
            nd.lastEtag.Some? ==> Vouched(states[i].versions, nd.lastEtag.value, nd.db.revs)
  {
    SyncAlways(states, acts, i);
    assert NodeOk(states[i].nodes[n], states[i].versions);
  }
}
