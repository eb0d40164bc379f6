/** Runs outside the premise of the retry theorem: a finished upload whose
    identical Complete is admitted once more. */
module MultipartRestarts {
  import opened Common
  import opened MultipartModel
  import opened MultipartSystem
  import opened MultipartAssembly
  import opened MultipartRetries
  import opened MultipartSweeps

  ghost function Ask(cfg: Config): PartList {
    [(1, QuotedHex(cfg, cfg.md5([0])))]
  }

  /** The first Complete of `u` has stored it and is about to publish. */
  ghost predicate AboutToPublish(cfg: Config, s: Sys) {
    && Reached(cfg, s) && s.now == 0 && s.channels == [None] && s.st.slots == map["u" := InFlight(Ask(cfg), 0, 0)]
    && s.tasks.Keys == {0} && s.tasks[0].id == "u" && s.tasks[0].req == Ask(cfg)
    && s.tasks[0].stage.Publishing? && s.tasks[0].stage.outcome.Some?
    && Finished(cfg, s)
  }

  /** `u` is finished, was stored once, and has no tombstone yet. */
  ghost predicate Finished(cfg: Config, s: Sys) {
    && "u" in s.h.finished && s.h.tombstones == map[]
    && |Wins(s, "u")| == 1 && Wins(s, "u")[0].req == Ask(cfg)
  }

  lemma CompleteSucceeds(cfg: Config, now: int)
    requires PlainHex(cfg) && cfg.maxObjectSize == 10
    ensures var st := OneUpload(cfg, None).st;
            var r := Complete(cfg, st.(slots := map["u" := InFlight(Ask(cfg), 0, 0)]), "u", "b", "k", Ask(cfg), now);
            r.1.Ok? && r.0 == Reserve(st.(slots := map["u" := InFlight(Ask(cfg), 0, 0)]), "u", now)
  {
    var st, req := OneUpload(cfg, None).st, Ask(cfg);
    ReturnedETagMatches(cfg, cfg.md5([0]));
    var g := GatherOne(cfg, st.files, st.uploads["u"].parts, req[0], true, Gathered(0, [], []));
    assert req[1..] == [] && g.Ok?;
    assert Gather(cfg, st.files, st.uploads["u"].parts, req[1..], true, g.value) == g;
  }

  lemma ReachAdmitted(cfg: Config) returns (s1: Sys)
    requires Reached(cfg, OneUpload(cfg, None))
    ensures Reached(cfg, s1) && s1.st == OneUpload(cfg, None).st.(slots := map["u" := InFlight(Ask(cfg), 0, 0)])
    ensures s1.now == 0 && s1.channels == [None] && s1.h == OneUpload(cfg, None).h
    ensures s1.tasks == map[0 := Task("u", "b", "k", Ask(cfg), Admitted)]
  {
    hide Reached;
    var a := Client(Begin("u", "b", "k", Ask(cfg)));
    ReachNext(cfg, OneUpload(cfg, None), a);
    s1 := Do(cfg, OneUpload(cfg, None), a);
    assert s1.st.slots == map["u" := InFlight(Ask(cfg), 0, 0)];
    assert s1.tasks == map[0 := Task("u", "b", "k", Ask(cfg), Admitted)];
  }

  lemma ReachPublishing(cfg: Config) returns (s4: Sys)
    requires PlainHex(cfg) && cfg.maxObjectSize == 10 && Reached(cfg, OneUpload(cfg, None))
    ensures AboutToPublish(cfg, s4)
  {
    hide Reached, Complete, Finish, Ask;
    var s1 := ReachAdmitted(cfg);
    CompleteSucceeds(cfg, 0);
    ReachNext(cfg, s1, TaskMoves(0, Validate(false)));
    var s2 := Do(cfg, s1, TaskMoves(0, Validate(false)));
    assert s2.tasks[0].stage.Storing? && !s2.tasks[0].stage.relayed;
    s4 := ReachStored(cfg, s2);
  }

  lemma ReachStored(cfg: Config, s2: Sys) returns (s4: Sys)
    requires Reached(cfg, s2) && s2.now == 0 && s2.channels == [None] && s2.tasks.Keys == {0}
    requires s2.tasks[0].id == "u" && s2.tasks[0].req == Ask(cfg) && s2.tasks[0].stage.Storing?
    requires !s2.tasks[0].stage.relayed && !s2.tasks[0].stage.guarded
    requires s2.st.slots == map["u" := InFlight(Ask(cfg), 0, 0)] && s2.h.wins == map[] && s2.h.tombstones == map[]
    ensures AboutToPublish(cfg, s4)
  {
    hide Reached, Finish, Ask;
    ReachNext(cfg, s2, TaskMoves(0, StoreReturns(true)));
    var s3 := Do(cfg, s2, TaskMoves(0, StoreReturns(true)));
    ReachNext(cfg, s3, TaskMoves(0, Settle(true)));
    s4 := Do(cfg, s3, TaskMoves(0, Settle(true)));
  }

  /** The same request again, while `u` has no slot. */
  lemma AskAgain(cfg: Config, s: Sys) returns (s': Sys)
    requires Reached(cfg, s) && Finished(cfg, s) && s.st.slots == map[] && |s.channels| == 1
    ensures Reached(cfg, s') && Finished(cfg, s') && 1 in s'.tasks && s'.tasks[1] == Task("u", "b", "k", Ask(cfg), Admitted)
  {
    hide Reached, Ask;
    var a := Client(Begin("u", "b", "k", Ask(cfg)));
    ReachNext(cfg, s, a);
    s' := Do(cfg, s, a);
  }

  /** The run ends with `u` finished and its identical retry admitted as owner. */
  ghost predicate EndsRestarted(cfg: Config, states: seq<Sys>, acts: seq<Action>)
    requires |states| == |acts| + 1
  {
    var s := states[|acts|];
    Finished(cfg, s) && 1 in s.tasks && s.tasks[1] == Task("u", "b", "k", Ask(cfg), Admitted)
  }

  /** The finishing task stalls before it publishes until a prune drops its slot
      for its age: the identical retry becomes owner. */
  lemma StalledPublisherRestarts(md5: Bytes -> Bytes, hex: Bytes -> string) returns (cfg: Config, states: seq<Sys>, acts: seq<Action>)
    requires forall d: Bytes, c :: c in hex(d) ==> c != '"'
    ensures IsRun(cfg, states, acts) && EndsRestarted(cfg, states, acts)
  {
    hide Do, Enabled, Initial, AboutToPublish, OneUpload, Ask, Finished;
    cfg := RunConfig(md5, hex);
    OneUploadIsReached(cfg, md5, hex, None);
    var s := ReachPublishing(cfg);
    s := PruneOld(cfg, s);
    s := AskAgain(cfg, s);
    states, acts :| IsRun(cfg, states, acts) && states[|acts|] == s;
  }

  lemma PruneOld(cfg: Config, s: Sys) returns (s2: Sys)
    requires AboutToPublish(cfg, s)
    ensures Reached(cfg, s2) && Finished(cfg, s2) && s2.st.slots == map[] && |s2.channels| == 1
  {
    hide Reached, Ask;
    ReachNext(cfg, s, Tick(900));
    var s1 := Do(cfg, s, Tick(900));
    var a := Sweep(PruneSlots(300));
    ReachNext(cfg, s1, a);
    s2 := Do(cfg, s1, a);
  }

  /** The finishing task dies before it publishes: the identical retry becomes
      owner. */
  lemma DeadPublisherRestarts(md5: Bytes -> Bytes, hex: Bytes -> string) returns (cfg: Config, states: seq<Sys>, acts: seq<Action>)
    requires forall d: Bytes, c :: c in hex(d) ==> c != '"'
    ensures IsRun(cfg, states, acts) && EndsRestarted(cfg, states, acts)
  {
    hide Do, Enabled, Initial, AboutToPublish, OneUpload, Ask, Finished;
    cfg := RunConfig(md5, hex);
    OneUploadIsReached(cfg, md5, hex, None);
    var s := ReachPublishing(cfg);
    s := DieBeforePublishing(cfg, s);
    s := AskAgain(cfg, s);
    states, acts :| IsRun(cfg, states, acts) && states[|acts|] == s;
  }

  lemma DieBeforePublishing(cfg: Config, s: Sys) returns (s2: Sys)
    requires AboutToPublish(cfg, s)
    ensures Reached(cfg, s2) && Finished(cfg, s2) && s2.st.slots == map[] && |s2.channels| == 1
  {
    hide Reached, Ask;
    ReachNext(cfg, s, TaskMoves(0, Crash));
    var s1 := Do(cfg, s, TaskMoves(0, Crash));
    ReachNext(cfg, s1, TaskMoves(0, ClearOwnSlot));
    s2 := Do(cfg, s1, TaskMoves(0, ClearOwnSlot));
    assert s2.st.slots == map[];
  }
}
