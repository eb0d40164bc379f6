/** What becomes of the IAM tables: a merge takes the remote's, an upload stores
    those its node had when it read the file, and a node that has changed and
    merged nothing since holds those of the version it remembers. */
module ConfigSyncIam {
  import opened Common
  import opened ConfigSync

  /** The fetch a step moves on node `n`, by poll or reconciliation. */
  ghost predicate MergesIn(s: Sys, a: Action, n: nat, etag: Etag) {
    && a.n == n && n in s.nodes
    && var nd := s.nodes[n];
       || (a.PollMoves? && a.fetchStep == MergeIn(true) && a.k in nd.fetches && nd.fetches[a.k].Fetched? && nd.fetches[a.k].etag == etag)
       || (&& a.CallMoves? && a.callStep == Reconcile(MergeIn(true)) && a.c in nd.calls && nd.calls[a.c].stage.Reconciling?
           && nd.calls[a.c].stage.fetch.Fetched? && nd.calls[a.c].stage.fetch.etag == etag)
  }

  /** The step may change the IAM tables of node `n`: an administrator does, or a
      merge. */
  ghost predicate TouchesIam(a: Action, n: nat) {
    && a.n == n
    && (|| a.ChangeIam?
        || (a.PollMoves? && a.fetchStep == MergeIn(true))
        || (a.CallMoves? && a.callStep == Reconcile(MergeIn(true))))
  }

  /** A merge leaves the node with the IAM tables of the version it merged. */
  lemma MergeTakesIam(s: Sys, a: Action, n: nat, etag: Etag)
    requires SyncInv(s) && Enabled(s, a) && MergesIn(s, a, n, etag)
    ensures etag in s.versions && Do(s, a).nodes[n].db.iam == s.versions[etag].iam
  {
    hide AtLeast, NodeOk, MaxMerge;
    var nd := s.nodes[n];
    assert NodeOk(nd, s.versions);
    if a.PollMoves? {
      FetchIsOk(nd, a.k, s.versions);
    } else {
      CallIsOk(nd, a.c, s.versions);
    }
  }

  /** An administrator's change is what the node then has. */
  lemma ChangeSetsIam(s: Sys, n: nat, iam: string, c: nat)
    requires Enabled(s, ChangeIam(n, iam, c))
    ensures var s' := Do(s, ChangeIam(n, iam, c));
            s'.nodes[n].db == Db(iam, s.nodes[n].db.revs) && c in s'.nodes[n].calls && s'.nodes[n].calls[c].stage == Waiting
  {
  }

  lemma StepKeepsIam(s: Sys, a: Action, n: nat)
    requires Enabled(s, a) && n in s.nodes && !TouchesIam(a, n)
    ensures n in Do(s, a).nodes && Do(s, a).nodes[n].db.iam == s.nodes[n].db.iam
  {
    hide MaxMerge, LockFree, PreconditionHolds, Names;
  }

  lemma {:induction false} IamStays(states: seq<Sys>, acts: seq<Action>, i: nat, j: nat, n: nat)
    requires IsRun(states, acts) && i <= j < |states| && n in states[i].nodes
    requires forall k :: i <= k < j ==> !TouchesIam(acts[k], n)
    ensures n in states[j].nodes && states[j].nodes[n].db.iam == states[i].nodes[n].db.iam
    decreases j
  {
    hide Do, Enabled, TouchesIam;
    if i < j {
      IamStays(states, acts, i, j - 1, n);
      StepKeepsIam(states[j - 1], acts[j - 1], n);
    }
  }

  lemma {:induction false} VersionsStay(states: seq<Sys>, acts: seq<Action>, i: nat, j: nat, etag: Etag)
    requires IsRun(states, acts) && i <= j < |states| && etag in states[i].versions
    ensures etag in states[j].versions && states[j].versions[etag] == states[i].versions[etag]
    decreases j
  {
    hide Enabled, NodeAfter, RemoteAfter;
    if i < j {
      VersionsStay(states, acts, i, j - 1, etag);
      SyncAlways(states, acts, j - 1);
      VersionsGrow(states[j - 1], acts[j - 1]);
    }
  }

  /** Whoever has merged a version, and has neither changed its IAM tables nor
      merged since, holds the IAM tables of that version; so does the node whose
      remembered ETag names it. */
  lemma MergedIamIsHeld(states: seq<Sys>, acts: seq<Action>, i: nat, j: nat, n: nat, etag: Etag)
    requires IsRun(states, acts) && i < j < |states| && MergesIn(states[i], acts[i], n, etag)
    requires forall k :: i < k < j ==> !TouchesIam(acts[k], n)
    ensures n in states[j].nodes && etag in states[j].versions
    ensures states[j].nodes[n].db.iam == states[j].versions[etag].iam
    ensures states[j].nodes[n].lastEtag == Some(etag) ==>
              states[j].nodes[n].db.iam == states[j].versions[states[j].nodes[n].lastEtag.value].iam
  {
    hide Do, SyncInv, TouchesIam;
    SyncAlways(states, acts, i);
    assert Enabled(states[i], acts[i]) && states[i + 1] == Do(states[i], acts[i]);
    MergeTakesIam(states[i], acts[i], n, etag);
    NodesStay(states[i], acts[i]);
    IamStays(states, acts, i + 1, j, n);
    VersionsStay(states, acts, i, j, etag);
  }

  lemma NodesStay(s: Sys, a: Action)
    requires Enabled(s, a)
    ensures Do(s, a).nodes.Keys == s.nodes.Keys
  {
    hide NodeAfter, RemoteAfter;
  }

  /** A fetch that commits makes its node remember the version it merged. */
  lemma CommitRemembersMerged(s: Sys, n: nat, k: nat, etag: Etag)
    requires Enabled(s, PollMoves(n, k, Commit)) && s.nodes[n].fetches[k].etag == etag
    ensures Do(s, PollMoves(n, k, Commit)).nodes[n].lastEtag == Some(etag)
    ensures Do(s, PollMoves(n, k, Commit)).nodes[n].db == s.nodes[n].db
  {
  }

  // ------------------------------------------------------------------ uploads

  /** The call holds `data` from its last file read, and has not got beyond its PUT. */
  ghost predicate Holding(s: Sys, n: nat, c: nat, data: Db) {
    && n in s.nodes && c in s.nodes[n].calls
    && var stage := s.nodes[n].calls[c].stage;
       stage.HaveData? || stage.Sent? || stage.Applied? ==> stage.data == data
  }

  ghost predicate Reads(a: Action, n: nat, c: nat) {
    a.CallMoves? && a.n == n && a.c == c && a.callStep == ReadFile(true)
  }

  lemma ReadHolds(s: Sys, a: Action, n: nat, c: nat)
    requires Enabled(s, a) && Reads(a, n, c)
    ensures Holding(Do(s, a), n, c, s.nodes[n].db)
  {
    hide LockFree, PreconditionHolds, Names;
  }

  lemma HoldingStays(s: Sys, a: Action, n: nat, c: nat, data: Db)
    requires Enabled(s, a) && Holding(s, n, c, data) && !Reads(a, n, c)
    ensures Holding(Do(s, a), n, c, data)
  {
    hide CallNode, CallEnabled, MaxMerge, RemoteAfter;
    if a.CallMoves? && a.n == n && a.c == c {
      DataStays(s, s.nodes[n], c, a.callStep);
    }
  }

  ghost predicate HasData(stage: Stage) {
    stage.HaveData? || stage.Sent? || stage.Applied?
  }

  /** A call gets data from a file read only, and keeps it. */
  lemma DataStays(s: Sys, nd: Node, c: nat, step: CallStep)
    requires c in nd.calls && CallEnabled(s, nd, nd.calls[c].stage, step) && step != ReadFile(true)
    ensures var stage, stage' := nd.calls[c].stage, CallNode(s, nd, c, step).calls[c].stage;
            HasData(stage') ==> HasData(stage) && stage'.data == stage.data
  {
    hide LockFree, PreconditionHolds, Names, FetchEffect, FetchNext;
  }

  lemma {:induction false} HoldingThroughout(states: seq<Sys>, acts: seq<Action>, i: nat, j: nat, n: nat, c: nat, data: Db)
    requires IsRun(states, acts) && i <= j < |states| && Holding(states[i], n, c, data)
    requires forall k :: i <= k < j ==> !Reads(acts[k], n, c)
    ensures Holding(states[j], n, c, data)
    decreases j
  {
    hide Do, Enabled, Holding, Reads;
    if i < j {
      HoldingThroughout(states, acts, i, j - 1, n, c, data);
      HoldingStays(states[j - 1], acts[j - 1], n, c, data);
    }
  }

  /** A PUT the server takes stores exactly the database its node had when the call
      last read the file, IAM tables and revocations. */
  lemma UploadStoresFile(states: seq<Sys>, acts: seq<Action>, i: nat, j: nat, n: nat, c: nat, etag: Etag)
    requires IsRun(states, acts) && i < j < |acts| && Reads(acts[i], n, c)
    requires forall k :: i < k < j ==> !Reads(acts[k], n, c)
    requires acts[j] == CallMoves(n, c, ServerApplies(etag))
    ensures n in states[i].nodes && states[j + 1].remote == Some(Object(etag, states[i].nodes[n].db))
    ensures etag in states[j + 1].versions && states[j + 1].versions[etag] == states[i].nodes[n].db
  {
    hide Do, Holding, Reads;
    assert Enabled(states[i], acts[i]) && states[i + 1] == Do(states[i], acts[i]);
    assert Enabled(states[j], acts[j]) && states[j + 1] == Do(states[j], acts[j]);
    ReadHolds(states[i], acts[i], n, c);
    ReadNode(acts[i], n, c);
    HoldingThroughout(states, acts, i + 1, j, n, c, states[i].nodes[n].db);
    ApplyStores(states[j], n, c, etag, states[i].nodes[n].db);
  }

  lemma ReadNode(a: Action, n: nat, c: nat)
    requires Reads(a, n, c)
    ensures a.n == n
  {
  }

  lemma ApplyStores(s: Sys, n: nat, c: nat, etag: Etag, data: Db)
    requires Enabled(s, CallMoves(n, c, ServerApplies(etag))) && Holding(s, n, c, data)
    ensures var s' := Do(s, CallMoves(n, c, ServerApplies(etag)));
            s'.remote == Some(Object(etag, data)) && etag in s'.versions && s'.versions[etag] == data
  {
    hide LockFree, PreconditionHolds, Names, CallNode;
  }

  /** A node whose own upload is acknowledged, and that has neither changed its IAM
      tables nor merged since it read the file, holds the IAM tables of the
      version it then remembers. */
  lemma UploadedIamIsHeld(states: seq<Sys>, acts: seq<Action>, i: nat, j: nat, n: nat, c: nat)
    requires IsRun(states, acts) && i < j < |acts| && Reads(acts[i], n, c)
    requires forall k :: i < k < j ==> !Reads(acts[k], n, c) && !TouchesIam(acts[k], n)
    requires acts[j] == CallMoves(n, c, Acknowledge(true))
    ensures n in states[j + 1].nodes
    ensures var nd := states[j + 1].nodes[n];
            && nd.lastEtag.Some? && nd.lastEtag.value in states[j + 1].versions
            && nd.db.iam == states[j + 1].versions[nd.lastEtag.value].iam
  {
    hide Do, Holding, Reads, SyncInv, TouchesIam;
    assert Enabled(states[i], acts[i]) && states[i + 1] == Do(states[i], acts[i]);
    assert Enabled(states[j], acts[j]) && states[j + 1] == Do(states[j], acts[j]);
    ReadHolds(states[i], acts[i], n, c);
    ReadNode(acts[i], n, c);
    ReadKeepsIam(states[i], acts[i], n, c);
    HoldingThroughout(states, acts, i + 1, j, n, c, states[i].nodes[n].db);
    IamStays(states, acts, i + 1, j, n);
    SyncAlways(states, acts, j);
    AcknowledgeRemembers(states[j], n, c, states[i].nodes[n].db);
  }

  lemma ReadKeepsIam(s: Sys, a: Action, n: nat, c: nat)
    requires Enabled(s, a) && Reads(a, n, c)
    ensures n in s.nodes && n in Do(s, a).nodes && Do(s, a).nodes[n].db == s.nodes[n].db
  {
    hide LockFree, PreconditionHolds, Names;
  }

  lemma AcknowledgeRemembers(s: Sys, n: nat, c: nat, data: Db)
    requires SyncInv(s) && Enabled(s, CallMoves(n, c, Acknowledge(true))) && Holding(s, n, c, data)
    ensures var s' := Do(s, CallMoves(n, c, Acknowledge(true)));
            && n in s'.nodes && s'.nodes[n].db == s.nodes[n].db && s'.nodes[n].lastEtag.Some?
            && s'.nodes[n].lastEtag.value in s'.versions && s'.versions[s'.nodes[n].lastEtag.value] == data
  {
    hide AtLeast, NodeOk, LockFree, PreconditionHolds, Names;
    assert NodeOk(s.nodes[n], s.versions);
    CallIsOk(s.nodes[n], c, s.versions);
  }

  /** A poll goes on to download exactly the versions its node does not remember. */
  lemma PollWantsExactlyUnremembered(nd: Node, remote: Option<Object>, etag: Etag)
    ensures FetchNext(nd, remote, Headed(etag), Compare) == (if nd.lastEtag == Some(etag) then Over else Wanted(etag))
    ensures remote.Some? ==> FetchNext(nd, remote, Wanted(remote.value.etag), Get(true)) == Fetched(remote.value.etag, remote.value.db)
  {
  }
}
