/** What an orphan sweep of a tracked upload's directory takes away: the exact
    condition behind the premise of the relay theorems, and runs that miss it. */
module MultipartSweeps {
  import opened Common
  import opened MultipartModel
  import opened MultipartSystem
  import opened MultipartProtocol
  import opened MultipartAccounting
  import opened MultipartRelay
  import opened MultipartAssembly

  /** The premise says exactly that a scan condemns no tracked directory. */
  lemma CleanExactlyWhenUntracked(s: Sys, k: nat, x: UploadId)
    requires DiskSys(s, x) && SweepEnabled(s, ScanExamine(k, x))
    ensures Clean(s, Sweep(ScanExamine(k, x)), x) <==> x !in s.st.uploads
  {
  }

  /** Hexadecimal digits are no quotes. */
  ghost predicate PlainHex(cfg: Config) {
    forall d: Bytes, c :: c in cfg.hex(d) ==> c != '"'
  }

  ghost predicate InMemoryOnly(u: Upload) {
    forall n :: n in u.parts ==> u.parts[n].payload.InMemory?
  }

  /** Every completion of the upload, either way, answers the reference. */
  ghost predicate Invisible(cfg: Config, s: Sys, id: UploadId, bucket: string, key: string)
    requires id in s.h.content
  {
    forall req :: AnswersReference(cfg, s, id, bucket, key, req)
  }

  /** A part without its file fails every completion that asks for it. */
  lemma MissingFileShows(cfg: Config, s: Sys, id: UploadId, bucket: string, key: string, n: nat, etag: string)
    requires Owned(s.st, id, bucket, key) && s.st.uploads[id].phase == Open && id in s.h.content
    requires n in s.st.uploads[id].parts && s.st.uploads[id].parts[n].size <= cfg.maxObjectSize
    requires UploadOk(cfg, id, s.st.uploads[id], s.h.content[id]) && s.st.uploads[id].parts[n].payload.RelayedFile? && Path(id, n) !in s.st.files
    requires TrimQuotes(etag) == cfg.hex(cfg.md5(s.h.content[id][n]))
    ensures Complete(cfg, s.st, id, bucket, key, [(n, etag)], s.now).1 == Err(InternalError)
    ensures CompletePassthrough(cfg, s.st, id, bucket, key, [(n, etag)], s.now).1 == Err(InternalError)
    ensures Reference(cfg, s.h.content[id], [(n, etag)]).Ok?
  {
    var u, req := s.st.uploads[id], [(n, etag)];
    assert PartOk(cfg, id, n, u.parts[n], s.h.content[id][n]);
    assert req[1..] == [] && Requested(cfg, s.h.content[id], req[1..]) == Ok([]);
    assert Requested(cfg, s.h.content[id], req).Ok?;
    assert GatherOne(cfg, s.st.files, u.parts, req[0], true, Gathered(0, [], [])) == Err(InternalError);
    var g := GatherOne(cfg, s.st.files, u.parts, req[0], false, Gathered(0, [], []));
    assert g.Ok? && Gather(cfg, s.st.files, u.parts, req[1..], false, g.value) == g;
    assert ValidateParts(cfg, s.st, id, bucket, key, req, false).Ok?;
  }

  lemma SizeWithin(u: Upload, n: nat)
    requires n in u.parts
    ensures u.parts[n].size <= BytesOf(u)
  {
    SumRemove(u.parts, SizeOf, n);
  }

  /** Once an orphan sweep has deleted the directory of a tracked upload, its
      completions are right exactly when all its parts were still in memory; if
      not, both variants refuse some request that is in order. */
  lemma SweptUploadIsRightExactlyInMemory(cfg: Config, s: Sys, k: nat, x: UploadId, bucket: string, key: string)
    requires PlainHex(cfg) && PartsSys(cfg, s) && SweepEnabled(s, ScanDelete(k, x))
    requires Owned(s.st, x, bucket, key) && s.st.uploads[x].phase == Open && BytesOf(s.st.uploads[x]) <= cfg.maxObjectSize
    ensures var s' := DoSweep(cfg, s, ScanDelete(k, x));
            && x in s'.h.content && (Invisible(cfg, s', x, bucket, key) <==> InMemoryOnly(s.st.uploads[x]))
            && (!InMemoryOnly(s.st.uploads[x]) ==> exists req ::
                  && Reference(cfg, s'.h.content[x], req).Ok?
                  && Complete(cfg, s'.st, x, bucket, key, req, s'.now).1 == Err(InternalError)
                  && CompletePassthrough(cfg, s'.st, x, bucket, key, req, s'.now).1 == Err(InternalError))
  {
    hide UploadOk, Complete, Reference, BytesOf;
    var s', u := DoSweep(cfg, s, ScanDelete(k, x)), s.st.uploads[x];
    assert PartsSys(cfg, s');
    if InMemoryOnly(u) {
      assert FilesOk(s', x) by { MemoryNeedsNoFile(cfg, x, u, s.h.content[x], s'.st.files); }
      forall req
        ensures AnswersReference(cfg, s', x, bucket, key, req)
      {
        InvisibleIn(cfg, s', x, bucket, key, req);
      }
    } else {
      var n :| n in u.parts && !u.parts[n].payload.InMemory?;
      SizeWithin(u, n);
      assert n in s.h.content[x] by { PartsHaveContent(cfg, x, u, s.h.content[x]); }
      var digest := cfg.md5(s.h.content[x][n]);
      ReturnedETagMatches(cfg, digest);
      MissingFileShows(cfg, s', x, bucket, key, n, QuotedHex(cfg, digest));
      assert !AnswersReference(cfg, s', x, bucket, key, [(n, QuotedHex(cfg, digest))]);
    }
  }

  lemma MemoryNeedsNoFile(cfg: Config, id: UploadId, u: Upload, bytes: map<nat, Bytes>, files: map<Path, Bytes>)
    requires UploadOk(cfg, id, u, bytes) && InMemoryOnly(u)
    ensures DiskOk(id, u, bytes, files)
  {
  }

  lemma PartsHaveContent(cfg: Config, id: UploadId, u: Upload, bytes: map<nat, Bytes>)
    requires UploadOk(cfg, id, u, bytes)
    ensures u.parts.Keys == bytes.Keys
  {
  }

  /** A promotion that stops after part `m` leaves a directory that belongs to no
      relayed upload, so an orphan sweep may take it once it is old enough; until
      then every part still loads. */
  lemma HalfPromotionIsOrphaned(cfg: Config, s: Store, id: UploadId, bucket: string, key: string, n: nat, data: Bytes,
                                counter: nat, now: int, m: nat, minAge: nat, bytes: map<nat, Bytes>)
    requires UploadRefusal(cfg, s, id, bucket, key, n, |data|, counter).None?
    requires Promotes(s.uploads[id], CumulativeAfter(s.uploads[id], n, |data|))
    requires m in s.uploads[id].parts && s.uploads[id].parts[m].payload.InMemory?
    requires UploadOk(cfg, id, s.uploads[id], bytes) && DiskOk(id, s.uploads[id], bytes, s.files)
    ensures var s1 := UploadPart(cfg, s, id, bucket, key, n, data, counter, Disk(false, true, {m}, true), now).0;
            && id in s1.uploads && m in s1.uploads[id].parts && s1.uploads[id].parts[m].payload.RelayedFile?
            && Orphan(s1.dirs, id, ActiveDirs(s1), minAge, now + minAge)
            && Loadable(cfg, s1.files, s1.uploads[id].parts, bytes)
  {
    hide BytesOf, WrittenFiles, UploadOk, DiskOk;
    var disk := Disk(false, true, {m}, true);
    var s1 := UploadPart(cfg, s, id, bucket, key, n, data, counter, disk, now).0;
    PutPartOnDisk(cfg, s, id, bucket, key, n, data, counter, disk, now, bytes);
    PutPartKeepsParts(cfg, s, id, bucket, key, n, data, counter, disk, now, bytes);
    UploadLoads(cfg, id, s1.uploads[id], bytes, s1.files);
  }

  // ------------------------------------------------------------- a late scan

  ghost function RunConfig(md5: Bytes -> Bytes, hex: Bytes -> string): Config {
    Config(10, 10, 10, 0, md5, hex)
  }

  /** An upload made after the snapshot of a scan, with one relayed part. */
  ghost function MadeSince(cfg: Config, now: int): Sys {
    var u := Upload("b", "k", 0, map[1 := Part(RelayedFile(Path("u", 1)), cfg.md5([0]), 1)], Open, Relayed, false);
    FRESH.(st := Store(map["u" := u], map[], 1, map[Path("u", 1) := [0]], map["u" := 0]), now := now,
           scans := map[0 := Scan({}, 0, 1, {})],
           h := FRESH.h.(used := {"u"}, content := map["u" := map[1 := [0]]]))
  }

  lemma MadeSinceIsReached(cfg: Config, md5: Bytes -> Bytes, hex: Bytes -> string)
    requires cfg == RunConfig(md5, hex)
    ensures Reached(cfg, MadeSince(cfg, 0))
  {
    hide Reached;
    ReachInitial(cfg, FRESH);
    var a0 := Sweep(ScanStart(0, 1));
    ReachNext(cfg, FRESH, a0);
    var s1 := FRESH.(scans := map[0 := Scan({}, 0, 1, {})]);
    assert ActiveDirs(FRESH.st) == {} && FRESH.scans[0 := Scan({}, 0, 1, {})] == s1.scans;
    assert Do(cfg, FRESH, a0) == s1;
    var a1 := Client(CreateUpload("u", "b", "k", None, true));
    ReachNext(cfg, s1, a1);
    var u := Upload("b", "k", 0, map[], Open, Relayed, false);
    var s2 := s1.(st := s1.st.(uploads := map["u" := u]), h := s1.h.(used := {"u"}, content := map["u" := map[]]));
    assert s1.st.uploads["u" := u] == s2.st.uploads && s1.h.content["u" := map[]] == s2.h.content;
    assert Do(cfg, s1, a1) == s2;
    FirstPart(cfg, s2, u);
  }

  lemma FirstPart(cfg: Config, s2: Sys, u: Upload)
    requires cfg.maxObjectSize == 10 && cfg.maxTotalBytes == 10 && Reached(cfg, s2)
    requires u == Upload("b", "k", 0, map[], Open, Relayed, false)
    requires s2 == FRESH.(scans := map[0 := Scan({}, 0, 1, {})], st := FRESH.st.(uploads := map["u" := u]),
                          h := FRESH.h.(used := {"u"}, content := map["u" := map[]]))
    ensures Reached(cfg, MadeSince(cfg, 0))
  {
    hide Reached;
    var data: Bytes := [0];
    var a2 := Client(PutPart("u", "b", "k", 1, data, 0, Disk(true, true, {}, true)));
    ReachNext(cfg, s2, a2);
    assert BytesOf(u) == 0;
    assert UploadRefusal(cfg, s2.st, "u", "b", "k", 1, 1, 0).None?;
    var st' := UploadPart(cfg, s2.st, "u", "b", "k", 1, data, 0, Disk(true, true, {}, true), 0).0;
    assert st' == AcceptPart(cfg, s2.st, "u", 1, data, 0);
    var part := Part(RelayedFile(Path("u", 1)), cfg.md5(data), 1);
    assert u.parts[1 := part] == map[1 := part];
    assert st' == MadeSince(cfg, 0).st;
    assert WithPart(map[], 1, data) == map[1 := data];
    assert Do(cfg, s2, a2) == MadeSince(cfg, 0);
  }

  /** A scan that is past its minimum age from its snapshot when it comes upon an
      upload made since then deletes that upload's part. */
  lemma LateScanLosesPart(md5: Bytes -> Bytes, hex: Bytes -> string) returns (cfg: Config, states: seq<Sys>, acts: seq<Action>)
    ensures IsRun(cfg, states, acts)
    ensures var s := states[|acts|];
            && Owned(s.st, "u", "b", "k") && s.st.uploads["u"].phase == Open && "u" in s.h.content
            && 1 in s.st.uploads["u"].parts && s.h.content["u"] == map[1 := [0]]
            && LoadBytes(cfg, s.st.files, s.st.uploads["u"].parts[1]) == Err(InternalError)
  {
    cfg := RunConfig(md5, hex);
    MadeSinceIsReached(cfg, md5, hex);
    var s := LateDelete(cfg);
    states, acts :| IsRun(cfg, states, acts) && states[|acts|] == s;
  }

  lemma LateDelete(cfg: Config) returns (s6: Sys)
    requires Reached(cfg, MadeSince(cfg, 0))
    ensures Reached(cfg, s6) && s6.st == RemoveDir(MadeSince(cfg, 1).st, "u") && s6.h == MadeSince(cfg, 1).h
  {
    hide Reached;
    var s3, s4 := MadeSince(cfg, 0), MadeSince(cfg, 1);
    ReachNext(cfg, s3, Tick(1));
    assert Do(cfg, s3, Tick(1)) == s4;
    var a4 := Sweep(ScanExamine(0, "u"));
    ReachNext(cfg, s4, a4);
    var s5 := s4.(scans := map[0 := Scan({}, 0, 1, {"u"})]);
    assert s4.scans[0 := Scan({}, 0, 1, {"u"})] == s5.scans && {} + {"u"} == {"u"};
    assert Do(cfg, s4, a4) == s5;
    var a5 := Sweep(ScanDelete(0, "u"));
    ReachNext(cfg, s5, a5);
    s6 := Do(cfg, s5, a5);
  }

  // ------------------------------------------------- a promotion that stops

  ghost function InMemoryPart(cfg: Config): Part {
    Part(InMemory([0]), cfg.md5([0]), 1)
  }

  ghost function OneBuffered(cfg: Config, threshold: Option<nat>): Upload {
    Upload("b", "k", 0, map[1 := InMemoryPart(cfg)], Open, Buffered(threshold), false)
  }

  /** One upload with one part of one byte in memory. */
  ghost function OneUpload(cfg: Config, threshold: Option<nat>): Sys {
    FRESH.(st := Store(map["u" := OneBuffered(cfg, threshold)], map[], 1, map[], map[]),
           h := FRESH.h.(used := {"u"}, content := map["u" := map[1 := [0]]]))
  }

  lemma OneUploadIsReached(cfg: Config, md5: Bytes -> Bytes, hex: Bytes -> string, threshold: Option<nat>)
    requires cfg == RunConfig(md5, hex) && (threshold.Some? ==> threshold.value >= 1)
    ensures Reached(cfg, OneUpload(cfg, threshold))
  {
    hide Reached;
    ReachInitial(cfg, FRESH);
    var a0 := Client(CreateUpload("u", "b", "k", threshold, false));
    ReachNext(cfg, FRESH, a0);
    var u := Upload("b", "k", 0, map[], Open, Buffered(threshold), false);
    var s1 := FRESH.(st := FRESH.st.(uploads := map["u" := u]), h := FRESH.h.(used := {"u"}, content := map["u" := map[]]));
    assert FRESH.st.uploads["u" := u] == s1.st.uploads && FRESH.h.content["u" := map[]] == s1.h.content;
    assert FRESH.h.used + {"u"} == {"u"};
    assert Do(cfg, FRESH, a0) == s1;
    FirstInMemory(cfg, s1.st, u, threshold);
    hide UploadPart;
    var a1 := Client(PutPart("u", "b", "k", 1, [0], 0, Disk(true, true, {}, true)));
    ReachNext(cfg, s1, a1);
    assert WithPart(map[], 1, [0]) == map[1 := [0]];
    assert s1.h.content["u" := map[1 := [0]]] == map["u" := map[1 := [0]]];
    assert Do(cfg, s1, a1) == OneUpload(cfg, threshold);
  }

  lemma FirstInMemory(cfg: Config, st: Store, u: Upload, threshold: Option<nat>)
    requires cfg.maxObjectSize == 10 && cfg.maxTotalBytes == 10 && (threshold.Some? ==> threshold.value >= 1)
    requires u == Upload("b", "k", 0, map[], Open, Buffered(threshold), false)
    requires st == Store(map["u" := u], map[], 0, map[], map[])
    ensures var r := UploadPart(cfg, st, "u", "b", "k", 1, [0], 0, Disk(true, true, {}, true), 0);
            r.0 == OneUpload(cfg, threshold).st && r.1.Ok?
  {
    assert BytesOf(u) == 0;
    assert UploadRefusal(cfg, st, "u", "b", "k", 1, 1, 0).None?;
    assert u.parts[1 := InMemoryPart(cfg)] == map[1 := InMemoryPart(cfg)];
    assert st.uploads["u" := OneBuffered(cfg, threshold)] == map["u" := OneBuffered(cfg, threshold)];
  }

  /** The store after a second part whose promotion stopped: part 1 is on disk,
      under a strategy that does not know it. */
  lemma HalfwayStore(cfg: Config)
    requires cfg.maxObjectSize == 10 && cfg.maxTotalBytes == 10
    ensures var r := UploadPart(cfg, OneUpload(cfg, Some(1)).st, "u", "b", "k", 2, [0], 1, Disk(false, true, {1}, true), 0);
            && r.1.Err? && r.0.dirs == map["u" := 0]
            && r.0.uploads == map["u" := OneBuffered(cfg, Some(1)).(parts := map[1 := Part(RelayedFile(Path("u", 1)), cfg.md5([0]), 1)])]
  {
    var st, u := OneUpload(cfg, Some(1)).st, OneBuffered(cfg, Some(1));
    var none: map<nat, Part> := map[];
    PartReplaced(none, 1, InMemoryPart(cfg));
    assert none[1 := InMemoryPart(cfg)] == u.parts;
    assert BytesOf(u) == 1;
    assert UploadRefusal(cfg, st, "u", "b", "k", 2, 1, 1).None?;
    assert MoveToRelay("u", u.parts, {1}) == map[1 := Part(RelayedFile(Path("u", 1)), cfg.md5([0]), 1)];
  }

  /** A promotion stops after it has written a part; the next sweep deletes the
      part, though the upload is tracked. */
  lemma HalfPromotionLosesPart(md5: Bytes -> Bytes, hex: Bytes -> string) returns (cfg: Config, states: seq<Sys>, acts: seq<Action>)
    ensures IsRun(cfg, states, acts)
    ensures var s := states[|acts|];
            && Owned(s.st, "u", "b", "k") && s.st.uploads["u"].phase == Open && "u" in s.h.content
            && 1 in s.st.uploads["u"].parts && s.h.content["u"] == map[1 := [0]]
            && LoadBytes(cfg, s.st.files, s.st.uploads["u"].parts[1]) == Err(InternalError)
  {
    hide Do, Enabled, Initial;
    cfg := RunConfig(md5, hex);
    OneUploadIsReached(cfg, md5, hex, Some(1));
    var s := HalfwayDelete(cfg);
    states, acts :| IsRun(cfg, states, acts) && states[|acts|] == s;
  }

  lemma HalfwayDelete(cfg: Config) returns (s4: Sys)
    requires cfg.maxObjectSize == 10 && cfg.maxTotalBytes == 10 && Reached(cfg, OneUpload(cfg, Some(1)))
    ensures Reached(cfg, s4) && Path("u", 1) !in s4.st.files && s4.h.content == map["u" := map[1 := [0]]]
    ensures s4.st.uploads == map["u" := OneBuffered(cfg, Some(1)).(parts := map[1 := Part(RelayedFile(Path("u", 1)), cfg.md5([0]), 1)])]
  {
    hide Reached, UploadPart;
    var s0 := OneUpload(cfg, Some(1));
    var a0 := Client(PutPart("u", "b", "k", 2, [0], 0, Disk(false, true, {1}, true)));
    ReachNext(cfg, s0, a0);
    HalfwayStore(cfg);
    var s1 := Do(cfg, s0, a0);
    var a1 := Sweep(ScanStart(0, 0));
    ReachNext(cfg, s1, a1);
    var s2 := Do(cfg, s1, a1);
    assert "u" !in s2.scans[0].active;
    var a2 := Sweep(ScanExamine(0, "u"));
    ReachNext(cfg, s2, a2);
    var s3 := Do(cfg, s2, a2);
    var a3 := Sweep(ScanDelete(0, "u"));
    ReachNext(cfg, s3, a3);
    s4 := Do(cfg, s3, a3);
  }
}
