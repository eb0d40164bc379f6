/** Nothing is revoked that nobody revoked: every revocation anywhere in the
    system, in a database, a download, an upload or the shared object, was there
    at the start or was issued with that very time. */
module ConfigSyncOrigin {
  import opened Common
  import opened ConfigSync

  type Issue = (Identity, int)

  ghost predicate Within(revs: Revocations, issues: set<Issue>) {
    forall i :: i in revs ==> (i, revs[i]) in issues
  }

  ghost predicate FetchWithin(f: Fetch, issues: set<Issue>) {
    f.Fetched? ==> Within(f.db.revs, issues)
  }

  ghost predicate StageWithin(stage: Stage, issues: set<Issue>) {
    && (stage.HaveData? || stage.Sent? || stage.Applied? ==> Within(stage.data.revs, issues))
    && (stage.Reconciling? ==> FetchWithin(stage.fetch, issues))
  }

  ghost predicate NodeWithin(nd: Node, issues: set<Issue>) {
    && Within(nd.db.revs, issues)
    && (forall k :: k in nd.fetches ==> FetchWithin(nd.fetches[k], issues))
    && (forall c :: c in nd.calls ==> StageWithin(nd.calls[c].stage, issues))
  }

  ghost predicate RemoteWithin(s: Sys, issues: set<Issue>) {
    && (s.remote.Some? ==> Within(s.remote.value.db.revs, issues))
    && (forall p :: p in s.late ==> Within(p.data.revs, issues))
  }

  ghost predicate SysWithin(s: Sys, issues: set<Issue>) {
    RemoteWithin(s, issues) && forall n :: n in s.nodes ==> NodeWithin(s.nodes[n], issues)
  }

  /** What a step revokes. */
  ghost function IssuedBy(a: Action): set<Issue> {
    if a.RevokeOn? then {(a.identity, a.at)} else {}
  }

  ghost function IssuedDuring(acts: seq<Action>): set<Issue> {
    if acts == [] then {} else IssuedDuring(acts[..|acts| - 1]) + IssuedBy(acts[|acts| - 1])
  }

  lemma MergeInvents(a: Revocations, b: Revocations, issues: set<Issue>)
    requires Within(a, issues) && Within(b, issues)
    ensures Within(MaxMerge(a, b), issues)
  {
  }

  lemma NodeWithinMore(nd: Node, issues: set<Issue>, more: set<Issue>)
    requires NodeWithin(nd, issues)
    ensures NodeWithin(nd, issues + more)
  {
  }

  lemma FetchInvents(nd: Node, remote: Option<Object>, f: Fetch, step: FetchStep, issues: set<Issue>)
    requires NodeWithin(nd, issues) && FetchWithin(f, issues) && FetchEnabled(f, step)
    requires remote.Some? ==> Within(remote.value.db.revs, issues)
    ensures NodeWithin(FetchEffect(nd, f, step), issues) && FetchWithin(FetchNext(nd, remote, f, step), issues)
  {
    hide Within, MaxMerge;
    if step == MergeIn(true) {
      MergeInvents(nd.db.revs, f.db.revs, issues);
    }
  }

  lemma WithStageInvents(nd: Node, c: nat, stage: Stage, issues: set<Issue>)
    requires NodeWithin(nd, issues) && c in nd.calls && StageWithin(stage, issues)
    ensures NodeWithin(WithStage(nd, c, stage), issues)
  {
  }

  lemma CallInvents(s: Sys, nd: Node, c: nat, step: CallStep, issues: set<Issue>)
    requires NodeWithin(nd, issues) && RemoteWithin(s, issues)
    requires c in nd.calls && CallEnabled(s, nd, nd.calls[c].stage, step)
    ensures NodeWithin(CallNode(s, nd, c, step), issues)
  {
    hide Within, LockFree, PreconditionHolds, Names, FetchEffect, FetchNext;
    var stage := nd.calls[c].stage;
    assert StageWithin(stage, issues);
    if step.Reconcile? {
      FetchInvents(nd, s.remote, stage.fetch, step.step, issues);
      WithStageInvents(FetchEffect(nd, stage.fetch, step.step), c,
                       Reconciling(stage.attempt, FetchNext(nd, s.remote, stage.fetch, step.step)), issues);
    }
  }

  lemma RevokeInvents(nd: Node, identity: Identity, at: int, issues: set<Issue>)
    requires NodeWithin(nd, issues)
    ensures NodeWithin(nd.(db := Revoke(nd.db, identity, at)), issues + {(identity, at)})
  {
    NodeWithinMore(nd, issues, {(identity, at)});
    MergeInvents(nd.db.revs, map[identity := at], issues + {(identity, at)});
  }

  lemma NodeInvents(s: Sys, a: Action, issues: set<Issue>)
    requires SysWithin(s, issues) && Enabled(s, a)
    ensures NodeWithin(NodeAfter(s, a), issues + IssuedBy(a))
  {
    hide Within, CallNode, CallEnabled, Revoke, MaxMerge, FetchWithin, FetchEffect, FetchNext;
    var nd := s.nodes[a.n];
    NodeWithinMore(nd, issues, IssuedBy(a));
    match a
    case RevokeOn(_, identity, at, _) => RevokeInvents(nd, identity, at, issues);
    case PollMoves(_, k, step) =>
      assert issues + IssuedBy(a) == issues;
      FetchInvents(nd, s.remote, nd.fetches[k], step, issues);
    case CallMoves(_, c, step) =>
      assert issues + IssuedBy(a) == issues;
      CallInvents(s, nd, c, step, issues);
    case StartPoll(_, _) => assert FetchWithin(NeedHead, issues + IssuedBy(a)) by { NothingToFetch(issues + IssuedBy(a)); }
    case _ =>
  }

  lemma NothingToFetch(issues: set<Issue>)
    ensures FetchWithin(NeedHead, issues)
  {
  }

  lemma RemoteInvents(s: Sys, a: Action, issues: set<Issue>)
    requires SysWithin(s, issues) && Enabled(s, a)
    ensures RemoteWithin(RemoteAfter(s, a), issues + IssuedBy(a))
  {
    hide LockFree, PreconditionHolds, Names;
    assert NodeWithin(s.nodes[a.n], issues);
  }

  lemma StepInvents(s: Sys, a: Action, issues: set<Issue>)
    requires SysWithin(s, issues) && Enabled(s, a)
    ensures SysWithin(Do(s, a), issues + IssuedBy(a))
  {
    hide Within, NodeWithin, NodeAfter, RemoteAfter, RemoteWithin;
    NodeInvents(s, a, issues);
    RemoteInvents(s, a, issues);
    RemoteSame(s, a, issues + IssuedBy(a));
    var s' := Do(s, a);
    forall n | n in s'.nodes
      ensures NodeWithin(s'.nodes[n], issues + IssuedBy(a))
    {
      if n != a.n {
        NodeWithinMore(s.nodes[n], issues, IssuedBy(a));
      }
    }
  }

  lemma RemoteSame(s: Sys, a: Action, issues: set<Issue>)
    requires Enabled(s, a) && RemoteWithin(RemoteAfter(s, a), issues)
    ensures RemoteWithin(Do(s, a), issues)
  {
    hide NodeAfter, RemoteAfter;
  }

  /** In every run a revocation held by a node or by the shared object was held
      somewhere at the start, or was issued on some node with that very time. */
  lemma {:induction false} NothingIsInvented(states: seq<Sys>, acts: seq<Action>, i: nat, start: set<Issue>)
    requires IsRun(states, acts) && i < |states| && SysWithin(states[0], start)
    ensures SysWithin(states[i], start + IssuedDuring(acts[..i]))
    decreases i
  {
    hide Do, Enabled, SysWithin, IssuedDuring, Initial;
    if i == 0 {
      assert acts[..0] == [];
      NothingIssued();
      assert start + {} == start;
    } else {
      NothingIsInvented(states, acts, i - 1, start);
      StepInvents(states[i - 1], acts[i - 1], start + IssuedDuring(acts[..i - 1]));
      IssuedOneMore(acts, i);
      assert start + IssuedDuring(acts[..i]) == start + IssuedDuring(acts[..i - 1]) + IssuedBy(acts[i - 1]);
    }
  }

  lemma NothingIssued()
    ensures IssuedDuring([]) == {}
  {
  }

  lemma IssuedOneMore(acts: seq<Action>, i: nat)
    requires 1 <= i <= |acts|
    ensures IssuedDuring(acts[..i]) == IssuedDuring(acts[..i - 1]) + IssuedBy(acts[i - 1])
  {
    assert acts[..i][..i - 1] == acts[..i - 1];
  }

  /** A revocation issued on a node is held there at once, at that time or a later
      one it already had; no other identity is touched. */
  lemma RevokeSetsExactly(db: Db, identity: Identity, at: int, other: Identity)
    ensures var db' := Revoke(db, identity, at);
            && db'.iam == db.iam && identity in db'.revs
            && db'.revs[identity] == (if identity in db.revs && db.revs[identity] > at then db.revs[identity] else at)
            && (other != identity ==> (other in db'.revs <==> other in db.revs)
                                      && (other in db.revs ==> db'.revs[other] == db.revs[other]))
  {
  }
}
