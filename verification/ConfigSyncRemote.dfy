/** What the shared config object guarantees over whole runs: its revocations
    never go back, an acknowledged upload is in it, and no revocation is left
    behind without an upload under way or queued. */
module ConfigSyncRemote {
  import opened Common
  import opened ConfigSync

  ghost function Known(remote: Option<Object>): Revocations {
    if remote.Some? then remote.value.db.revs else map[]
  }

  // -------------------------------------------------- what a PUT is based on

  /** `revs` includes every revocation of the version the PUT is conditioned on. */
  ghost predicate Based(revs: Revocations, expected: Option<Etag>, versions: map<Etag, Db>) {
    expected.Some? ==> Vouched(versions, expected.value, revs)
  }

  ghost predicate SendOk(stage: Stage, lastEtag: Option<Etag>, versions: map<Etag, Db>) {
    && (stage.HaveData? ==> Based(stage.data.revs, lastEtag, versions))
    && (stage.Sent? ==> Based(stage.data.revs, stage.expected, versions))
  }

  ghost predicate BaseOk(nd: Node, versions: map<Etag, Db>) {
    forall c :: c in nd.calls ==> SendOk(nd.calls[c].stage, nd.lastEtag, versions)
  }

  ghost predicate LateOk(late: set<Put>, versions: map<Etag, Db>) {
    forall p :: p in late ==> Based(p.data.revs, p.expected, versions)
  }

  ghost predicate BaseInv(s: Sys) {
    && SyncInv(s)
    && LateOk(s.late, s.versions)
    && forall n :: n in s.nodes ==> BaseOk(s.nodes[n], s.versions)
  }

  /** The premise: between the file read of an upload and its ETag snapshot, a
      concurrent download of the same node commits no version with revocations
      that the data just read lacks. */
  ghost predicate Calm(s: Sys, a: Action)
    requires Enabled(s, a)
  {
    a.PollMoves? && a.fetchStep.Commit? ==>
      var nd := s.nodes[a.n];
      forall c :: c in nd.calls && nd.calls[c].stage.HaveData? ==>
        Vouched(s.versions, nd.fetches[a.k].etag, nd.calls[c].stage.data.revs)
  }

  ghost predicate IsCalmRun(states: seq<Sys>, acts: seq<Action>) {
    IsRun(states, acts) && forall i :: 0 <= i < |acts| ==> Calm(states[i], acts[i])
  }

  lemma BaseOkGrows(nd: Node, versions: map<Etag, Db>, versions': map<Etag, Db>)
    requires BaseOk(nd, versions)
    requires forall e :: e in versions ==> e in versions' && versions'[e] == versions[e]
    ensures BaseOk(nd, versions')
  {
  }

  /** The next PUT of the call itself. */
  lemma OwnStageBased(s: Sys, nd: Node, c: nat, step: CallStep)
    requires NodeOk(nd, s.versions) && BaseOk(nd, s.versions)
    requires c in nd.calls && CallEnabled(s, nd, nd.calls[c].stage, step)
    ensures var nd' := CallNode(s, nd, c, step);
            && SendOk(nd'.calls[c].stage, nd'.lastEtag, s.versions)
            && (nd'.lastEtag == nd.lastEtag || Active(nd.calls[c].stage))
  {
    hide AtLeast, StageOk, FetchOk, LockFree, PreconditionHolds, Names;
    assert SendOk(nd.calls[c].stage, nd.lastEtag, s.versions);
    assert nd.lastEtag.Some? ==> Vouched(s.versions, nd.lastEtag.value, nd.db.revs);
  }

  /** While one call is at work, no other call of its node is past its file read. */
  lemma OtherStagesBased(nd: Node, nd': Node, c: nat, versions: map<Etag, Db>)
    requires NodeOk(nd, versions) && BaseOk(nd, versions) && c in nd.calls
    requires c in nd'.calls && nd'.calls == nd.calls[c := nd'.calls[c]]
    requires nd'.lastEtag == nd.lastEtag || Active(nd.calls[c].stage)
    requires SendOk(nd'.calls[c].stage, nd'.lastEtag, versions)
    ensures BaseOk(nd', versions)
  {
  }

  lemma NodeAfterBased(s: Sys, a: Action)
    requires BaseInv(s) && Enabled(s, a) && Calm(s, a)
    ensures BaseOk(NodeAfter(s, a), RemoteAfter(s, a).versions)
  {
    hide AtLeast, StageOk, FetchOk, CallNode, SyncInv, CallEnabled;
    var nd := s.nodes[a.n];
    assert NodeOk(nd, s.versions) by { InvOfNode(s, a.n); }
    VersionsGrow'(s, a);
    if a.CallMoves? {
      OwnStageBased(s, nd, a.c, a.callStep);
      OtherStagesBased(nd, NodeAfter(s, a), a.c, s.versions);
    }
    assert BaseOk(NodeAfter(s, a), s.versions);
    BaseOkGrows(NodeAfter(s, a), s.versions, RemoteAfter(s, a).versions);
  }

  lemma InvOfNode(s: Sys, n: nat)
    requires SyncInv(s) && n in s.nodes
    ensures NodeOk(s.nodes[n], s.versions)
  {
  }

  lemma VersionsGrow'(s: Sys, a: Action)
    requires SyncInv(s) && Enabled(s, a)
    ensures forall e :: e in s.versions ==> e in RemoteAfter(s, a).versions && RemoteAfter(s, a).versions[e] == s.versions[e]
  {
  }

  lemma LatePutsBased(s: Sys, a: Action)
    requires BaseInv(s) && Enabled(s, a)
    ensures LateOk(RemoteAfter(s, a).late, RemoteAfter(s, a).versions)
  {
  }

  lemma StepBased(s: Sys, a: Action)
    requires BaseInv(s) && Enabled(s, a) && Calm(s, a)
    ensures BaseInv(Do(s, a))
  {
    hide SyncInv, BaseOk, NodeAfter, LateOk;
    StepKeeps(s, a);
    NodeAfterBased(s, a);
    LatePutsBased(s, a);
    VersionsGrow'(s, a);
    var s' := Do(s, a);
    forall n | n in s'.nodes
      ensures BaseOk(s'.nodes[n], s'.versions)
    {
      if n != a.n {
        BaseOkGrows(s.nodes[n], s.versions, s'.versions);
      }
    }
  }

  /** A PUT the server takes replaces the object by one with no fewer revocations. */
  lemma StepKeepsRevocations(s: Sys, a: Action)
    requires BaseInv(s) && Enabled(s, a)
    ensures AtLeast(Known(Do(s, a).remote), Known(s.remote))
  {
    hide NodeOk, NodeAfter;
    assert BaseOk(s.nodes[a.n], s.versions);
  }

  lemma {:induction false} BaseAlways(states: seq<Sys>, acts: seq<Action>, i: nat)
    requires IsCalmRun(states, acts) && i < |states|
    ensures BaseInv(states[i])
    decreases i
  {
    if i > 0 {
      hide BaseInv;
      BaseAlways(states, acts, i - 1);
      StepBased(states[i - 1], acts[i - 1]);
    } else {
      SyncAlways(states, acts, 0);
    }
  }

  /** The revocations of the remote object never decrease. */
  lemma {:induction false} RemoteNeverDecreases(states: seq<Sys>, acts: seq<Action>, i: nat, j: nat)
    requires IsCalmRun(states, acts) && i <= j < |states|
    ensures AtLeast(Known(states[j].remote), Known(states[i].remote))
    decreases j
  {
    hide BaseInv, Known, AtLeast, Do, Enabled, Calm;
    if i == j {
      SameRevs(Known(states[i].remote));
    } else {
      RemoteNeverDecreases(states, acts, i, j - 1);
      BaseAlways(states, acts, j - 1);
      StepKeepsRevocations(states[j - 1], acts[j - 1]);
      AtLeastTrans(Known(states[j].remote), Known(states[j - 1].remote), Known(states[i].remote));
    }
  }

  // ------------------------------------------------- without the premise

  /** Where the premise fails while the committed version is the current one,
      the very next PUT goes through and loses a revocation. */
  lemma UncalmCommitLosesRevocations(s: Sys, n: nat, k: nat, c: nat, etag: Etag)
    requires RemoteOk(s.remote, s.versions)
    requires n in s.nodes && k in s.nodes[n].fetches && c in s.nodes[n].calls
    requires s.remote.Some? && s.nodes[n].fetches[k] == Merged(s.remote.value.etag)
    requires s.nodes[n].calls[c].stage.HaveData?
    requires Enabled(s, PollMoves(n, k, Commit)) && !Calm(s, PollMoves(n, k, Commit))
    requires forall d :: d in s.nodes[n].calls && s.nodes[n].calls[d].stage.HaveData? ==> d == c
    requires Names(s.versions, etag, s.nodes[n].calls[c].stage.data)
    ensures var s1 := Do(s, PollMoves(n, k, Commit));
            Enabled(s1, CallMoves(n, c, SnapshotEtag)) &&
            var s2 := Do(s1, CallMoves(n, c, SnapshotEtag));
            Enabled(s2, CallMoves(n, c, ServerApplies(etag))) &&
            var s3 := Do(s2, CallMoves(n, c, ServerApplies(etag)));
            !AtLeast(Known(s3.remote), Known(s.remote))
  {
  }

  // One node that starts empty, and an object that already holds a revocation.
  const HELD: Object := Object("a", Db("peer", map["x" := 1]))
  const BLANK: Node := Node(Db("", map[]), None, false, map[], map[], map[])

  ghost function OneNode(nd: Node): Sys {
    Sys(map[0 := nd], Some(HELD), {}, map["a" := HELD.db])
  }

  /** A run from that start ends in `s`. */
  ghost predicate Reached(s: Sys) {
    exists states: seq<Sys>, acts: seq<Action> ::
      IsRun(states, acts) && states[0] == OneNode(BLANK) && states[|acts|] == s
  }

  lemma ReachNext(s: Sys, a: Action, s': Sys)
    requires Reached(s) && Enabled(s, a) && s' == Do(s, a)
    ensures Reached(s')
  {
    hide Do, Enabled, Initial;
    var states: seq<Sys>, acts: seq<Action> :|
      IsRun(states, acts) && states[0] == OneNode(BLANK) && states[|acts|] == s;
    var states', acts' := states + [s'], acts + [a];
    forall i | 0 <= i < |acts'|
      ensures Enabled(states'[i], acts'[i]) && states'[i + 1] == Do(states'[i], acts'[i])
    {
      if i < |acts| {
        assert Enabled(states[i], acts[i]) && states[i + 1] == Do(states[i], acts[i]);
      }
    }
    assert states'[0] == states[0];
    assert IsRun(states', acts') && states'[0] == OneNode(BLANK) && states'[|acts'|] == s';
  }

  lemma PollNext(nd: Node, f: Fetch, step: FetchStep)
    requires Reached(OneNode(nd)) && nd.fetches == map[0 := f] && FetchEnabled(f, step)
    ensures Reached(OneNode(FetchEffect(nd, f, step).(fetches := map[0 := FetchNext(nd, Some(HELD), f, step)])))
  {
    hide Reached, FetchEffect, FetchNext;
    var nd' := FetchEffect(nd, f, step).(fetches := map[0 := FetchNext(nd, Some(HELD), f, step)]);
    assert nd.fetches[0 := FetchNext(nd, Some(HELD), f, step)] == nd'.fetches;
    ReachNext(OneNode(nd), PollMoves(0, 0, step), OneNode(nd'));
  }

  lemma CallNext(nd: Node, stage: Stage, step: CallStep, stage': Stage)
    requires Reached(OneNode(nd)) && nd.calls == map[0 := Call(map[], stage)]
    requires CallEnabled(OneNode(nd), nd, stage, step) && !step.ServerApplies? && !step.PutFails?
    requires CallNode(OneNode(nd), nd, 0, step) == WithStage(nd, 0, stage')
    ensures Reached(OneNode(nd.(calls := map[0 := Call(map[], stage')])))
  {
    hide Reached, CallNode, CallEnabled;
    var nd' := nd.(calls := map[0 := Call(map[], stage')]);
    assert WithStage(nd, 0, stage') == nd';
    ReachNext(OneNode(nd), CallMoves(0, 0, step), OneNode(nd'));
  }

  /** A poll has the peer's version in hand. */
  lemma PollFetches() returns (nd: Node)
    ensures Reached(OneNode(nd)) && nd == BLANK.(fetches := map[0 := Fetched("a", HELD.db)])
  {
    hide Reached;
    BlankIsReached();
    nd := BLANK.(fetches := map[0 := NeedHead]);
    ReachNext(OneNode(BLANK), StartPoll(0, 0), OneNode(nd));
    PollNext(nd, NeedHead, Head(true));
    nd := nd.(fetches := map[0 := Headed("a")]);
    PollNext(nd, Headed("a"), Compare);
    nd := nd.(fetches := map[0 := Wanted("a")]);
    PollNext(nd, Wanted("a"), Get(true));
    nd := nd.(fetches := map[0 := Fetched("a", HELD.db)]);
  }

  lemma BlankIsReached()
    ensures Reached(OneNode(BLANK))
  {
    var states, acts: seq<Action> := [OneNode(BLANK)], [];
    assert IsRun(states, acts) && states[0] == OneNode(BLANK) && states[|acts|] == OneNode(BLANK);
  }

  /** An upload reads the file, and only then the poll merges. */
  lemma RaceIsReached() returns (nd: Node)
    ensures Reached(OneNode(nd))
    ensures nd.fetches == map[0 := Merged("a")]
    ensures nd.calls == map[0 := Call(map[], HaveData(1, Db("new", map[])))]
  {
    hide Reached;
    var n0 := PollFetches();
    var n1 := n0.(db := Db("new", map[]), calls := map[0 := Call(map[], Waiting)]);
    ReachNext(OneNode(n0), ChangeIam(0, "new", 0), OneNode(n1));
    CallNext(n1, Waiting, Acquire, Reading(1));
    var n2 := n1.(calls := map[0 := Call(map[], Reading(1))]);
    CallNext(n2, Reading(1), ReadFile(true), HaveData(1, Db("new", map[])));
    var n3 := n2.(calls := map[0 := Call(map[], HaveData(1, Db("new", map[])))]);
    PollNext(n3, Fetched("a", HELD.db), MergeIn(true));
    nd := n3.(db := Merge(n3.db, HELD.db), fetches := map[0 := Merged("a")]);
  }

  /** Without the premise the remote object can lose a revocation. */
  lemma RemoteCanDecrease() returns (states: seq<Sys>, acts: seq<Action>)
    ensures IsRun(states, acts)
    ensures !AtLeast(Known(states[|acts|].remote), Known(states[0].remote))
  {
    var s3 := RevocationIsLost();
    states, acts :| IsRun(states, acts) && states[0] == OneNode(BLANK) && states[|acts|] == s3;
  }

  lemma RevocationIsLost() returns (s3: Sys)
    ensures Reached(s3) && !AtLeast(Known(s3.remote), HELD.db.revs)
  {
    hide Reached;
    var nd := RaceIsReached();
    var s := OneNode(nd);
    assert "x" in HELD.db.revs;
    UncalmCommitLosesRevocations(s, 0, 0, 0, "b");
    var s1 := Do(s, PollMoves(0, 0, Commit));
    ReachNext(s, PollMoves(0, 0, Commit), s1);
    var s2 := Do(s1, CallMoves(0, 0, SnapshotEtag));
    ReachNext(s1, CallMoves(0, 0, SnapshotEtag), s2);
    s3 := Do(s2, CallMoves(0, 0, ServerApplies("b")));
    ReachNext(s2, CallMoves(0, 0, ServerApplies("b")), s3);
  }
}
