/** No revocation is dropped: until the shared object has it, an upload that
    will carry it is under way on its node, or queued there for the next poll. */
module ConfigSyncDelivery {
  import opened Common
  import opened ConfigSync
  import opened ConfigSyncRemote

  /** The call will put `issued` into the object, read the file again, or queue. */
  ghost predicate Carries(stage: Stage, issued: Revocations) {
    || stage.Waiting? || stage.Reading? || stage.Reconciling?
    || ((stage.HaveData? || stage.Sent?) && AtLeast(stage.data.revs, issued))
  }

  ghost predicate Covered(nd: Node, known: Revocations) {
    || AtLeast(known, nd.issued)
    || nd.needsUpload
    || exists c :: c in nd.calls && Carries(nd.calls[c].stage, nd.issued)
  }

  /** An upload the server took holds what its caller knew. */
  ghost predicate DoneOk(nd: Node, known: Revocations) {
    forall c :: c in nd.calls && (nd.calls[c].stage.Applied? || nd.calls[c].stage == Finished(true)) ==>
      AtLeast(known, nd.calls[c].since)
  }

  ghost predicate DeliveryInv(s: Sys) {
    forall n :: n in s.nodes ==> Covered(s.nodes[n], Known(s.remote)) && DoneOk(s.nodes[n], Known(s.remote))
  }

  lemma KnownGrows(nd: Node, known: Revocations, known': Revocations)
    requires Covered(nd, known) && DoneOk(nd, known) && AtLeast(known', known)
    ensures Covered(nd, known') && DoneOk(nd, known')
  {
  }

  /** What a call step does to the call itself. */
  lemma OwnStageDelivers(s: Sys, nd: Node, c: nat, step: CallStep)
    requires NodeOk(nd, s.versions) && DoneOk(nd, Known(s.remote))
    requires c in nd.calls && CallEnabled(s, nd, nd.calls[c].stage, step)
    ensures var nd', known' := CallNode(s, nd, c, step), Known(CallRemote(s, nd.calls[c].stage, step).remote);
            var stage, stage' := nd.calls[c].stage, nd'.calls[c].stage;
            && (nd.needsUpload ==> nd'.needsUpload)
            && (Carries(stage, nd.issued) ==> Carries(stage', nd.issued) || nd'.needsUpload || AtLeast(known', nd.issued))
            && (stage'.Applied? || stage' == Finished(true) ==> AtLeast(known', nd.calls[c].since))
  {
    hide FetchOk, LockFree, PreconditionHolds, Names, NodeOk, AtLeast;
    CallIsOk(nd, c, s.versions);
    NodeHoldsIssued(nd, s.versions);
  }

  lemma NodeHoldsIssued(nd: Node, versions: map<Etag, Db>)
    requires NodeOk(nd, versions)
    ensures AtLeast(nd.db.revs, nd.issued)
  {
  }

  lemma CallStepDelivers(s: Sys, nd: Node, c: nat, step: CallStep)
    requires NodeOk(nd, s.versions) && c in nd.calls && CallEnabled(s, nd, nd.calls[c].stage, step)
    requires Covered(nd, Known(s.remote)) && DoneOk(nd, Known(s.remote))
    requires AtLeast(Known(CallRemote(s, nd.calls[c].stage, step).remote), Known(s.remote))
    ensures var nd', known' := CallNode(s, nd, c, step), Known(CallRemote(s, nd.calls[c].stage, step).remote);
            Covered(nd', known') && DoneOk(nd', known')
  {
    hide CallNode, CallRemote, AtLeast, Carries, NodeOk, CallEnabled;
    OwnStageDelivers(s, nd, c, step);
    var known' := Known(CallRemote(s, nd.calls[c].stage, step).remote);
    KnownGrows(nd, Known(s.remote), known');
    var nd' := CallNode(s, nd, c, step);
    if !nd'.needsUpload && !AtLeast(known', nd.issued) {
      var d :| d in nd.calls && Carries(nd.calls[d].stage, nd.issued);
      assert Carries(nd'.calls[d].stage, nd'.issued);
    }
  }

  /** A step that starts a call, or leaves the calls alone. */
  lemma NodeStepDelivers(s: Sys, a: Action)
    requires Enabled(s, a) && !a.CallMoves?
    requires Covered(s.nodes[a.n], Known(s.remote)) && DoneOk(s.nodes[a.n], Known(s.remote))
    ensures Covered(NodeAfter(s, a), Known(s.remote)) && DoneOk(NodeAfter(s, a), Known(s.remote))
  {
    hide AtLeast, CallNode;
    var nd, nd' := s.nodes[a.n], NodeAfter(s, a);
    if a.RevokeOn? || a.ChangeIam? || (a.FlushQueued? && nd.needsUpload) {
      assert a.c in nd'.calls && Carries(nd'.calls[a.c].stage, nd'.issued);
    } else {
      assert nd'.calls == nd.calls && nd'.issued == nd.issued && nd'.needsUpload == nd.needsUpload;
    }
  }

  lemma NodeDelivers(s: Sys, a: Action)
    requires BaseInv(s) && DeliveryInv(s) && Enabled(s, a)
    ensures Covered(NodeAfter(s, a), Known(Do(s, a).remote)) && DoneOk(NodeAfter(s, a), Known(Do(s, a).remote))
  {
    hide AtLeast, Covered, DoneOk, CallNode, NodeOk, CallEnabled, LateOk, BaseOk;
    var nd := s.nodes[a.n];
    StepKeepsRevocations(s, a);
    if a.CallMoves? {
      InvOfNode(s, a.n);
      CallStepDelivers(s, nd, a.c, a.callStep);
    } else {
      NodeStepDelivers(s, a);
      KnownGrows(NodeAfter(s, a), Known(s.remote), Known(Do(s, a).remote));
    }
  }

  lemma StepDelivers(s: Sys, a: Action)
    requires BaseInv(s) && DeliveryInv(s) && Enabled(s, a)
    ensures DeliveryInv(Do(s, a))
  {
    hide AtLeast, Covered, DoneOk, NodeAfter, BaseInv, RemoteAfter, Known;
    NodeDelivers(s, a);
    StepKeepsRevocations(s, a);
    var s' := Do(s, a);
    forall n | n in s'.nodes
      ensures Covered(s'.nodes[n], Known(s'.remote)) && DoneOk(s'.nodes[n], Known(s'.remote))
    {
      if n != a.n {
        KnownGrows(s.nodes[n], Known(s.remote), Known(s'.remote));
      }
    }
  }

  lemma {:induction false} DeliveryAlways(states: seq<Sys>, acts: seq<Action>, i: nat)
    requires IsCalmRun(states, acts) && i < |states|
    ensures DeliveryInv(states[i])
    decreases i
  {
    if i > 0 {
      hide BaseInv, DeliveryInv;
      DeliveryAlways(states, acts, i - 1);
      BaseAlways(states, acts, i - 1);
      StepDelivers(states[i - 1], acts[i - 1]);
    }
  }

  /** At every moment of a run, what a node revoked is in the shared object, or
      the node has an upload carrying it or has one queued. */
  lemma RevocationsAreNeverDropped(states: seq<Sys>, acts: seq<Action>, i: nat, n: nat)
    requires IsCalmRun(states, acts) && i < |states| && n in states[i].nodes
    ensures Covered(states[i].nodes[n], Known(states[i].remote))
  {
    DeliveryAlways(states, acts, i);
  }

  /** Once a node has no upload left and none queued, its revocations are stored. */
  lemma QuietMeansStored(states: seq<Sys>, acts: seq<Action>, i: nat, n: nat)
    requires IsCalmRun(states, acts) && i < |states| && n in states[i].nodes
    requires !states[i].nodes[n].needsUpload
    requires forall c :: c in states[i].nodes[n].calls ==> states[i].nodes[n].calls[c].stage.Finished?
    ensures AtLeast(Known(states[i].remote), states[i].nodes[n].issued)
  {
    DeliveryAlways(states, acts, i);
  }

  // ------------------------------------------------------- how a call ends

  lemma {:induction false} CallsStay(states: seq<Sys>, acts: seq<Action>, i: nat, j: nat, n: nat, c: nat)
    requires IsRun(states, acts) && i <= j < |states|
    requires n in states[i].nodes && c in states[i].nodes[n].calls
    ensures n in states[j].nodes && c in states[j].nodes[n].calls
    ensures states[j].nodes[n].calls[c].since == states[i].nodes[n].calls[c].since
    decreases j
  {
    hide CallNode, CallEnabled;
    if i < j {
      CallsStay(states, acts, i, j - 1, n, c);
      assert states[j] == Do(states[j - 1], acts[j - 1]);
    }
  }

  /** The action starts call `c`. */
  ghost predicate Starts(s: Sys, a: Action, c: nat)
    requires Enabled(s, a)
  {
    || ((a.RevokeOn? || a.ChangeIam?) && a.c == c)
    || (a.FlushQueued? && a.c == c && s.nodes[a.n].needsUpload)
  }

  /** A call that reports success has stored every revocation its node held when
      the call was made. */
  lemma SuccessMeansStored(states: seq<Sys>, acts: seq<Action>, i: nat, j: nat, c: nat)
    requires IsCalmRun(states, acts) && i < |acts| && i < j < |states|
    requires Starts(states[i], acts[i], c)
    ensures var n := acts[i].n;
            && n in states[i + 1].nodes && n in states[j].nodes && c in states[j].nodes[n].calls
            && (states[j].nodes[n].calls[c].stage == Finished(true) ==>
                  AtLeast(Known(states[j].remote), states[i + 1].nodes[n].db.revs))
  {
    hide AtLeast, CallNode;
    assert states[i + 1] == Do(states[i], acts[i]);
    CallsStay(states, acts, i + 1, j, acts[i].n, c);
    DeliveryAlways(states, acts, j);
    assert DoneOk(states[j].nodes[acts[i].n], Known(states[j].remote));
  }

  /** A call that reports failure has queued the upload at that very step. */
  lemma FailureMeansQueued(states: seq<Sys>, acts: seq<Action>, i: nat, n: nat, c: nat)
    requires IsRun(states, acts) && i < |acts|
    requires n in states[i].nodes && c in states[i].nodes[n].calls && !states[i].nodes[n].calls[c].stage.Finished?
    ensures n in states[i + 1].nodes && c in states[i + 1].nodes[n].calls
    ensures states[i + 1].nodes[n].calls[c].stage == Finished(false) ==> states[i + 1].nodes[n].needsUpload
  {
    CallsStay(states, acts, i, i + 1, n, c);
    assert states[i + 1] == Do(states[i], acts[i]);
  }
}
