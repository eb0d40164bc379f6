/** The global byte counter agrees with the upload table in every
    interleaving, and both size caps hold. */
module MultipartAccounting {
  import opened Common
  import opened MultipartModel
  import opened MultipartSystem

  // --------------------------------------------------------------- byte algebra

  lemma PartReplaced(parts: map<nat, Part>, n: nat, p: Part)
    ensures var before := if n in parts then parts[n].size else 0;
            Sum(parts[n := p], SizeOf) + before == Sum(parts, SizeOf) + p.size && before <= Sum(parts, SizeOf)
  {
    SumUpdate(parts, SizeOf, n, p);
    if n in parts {
      SumRemove(parts, SizeOf, n);
    }
  }

  lemma UploadReplaced(all: map<UploadId, Upload>, id: UploadId, u: Upload)
    ensures TotalBytes(all[id := u]) + (if id in all then BytesOf(all[id]) else 0) == TotalBytes(all) + BytesOf(u)
    ensures id in all ==> BytesOf(all[id]) <= TotalBytes(all)
  {
    SumUpdate(all, BytesOf, id, u);
    if id in all {
      SumRemove(all, BytesOf, id);
    }
  }

  // --------------------------------------------------------------- the invariant

  /** The configurations under which the counter can be trusted: a cap of exactly
      2^64 - 1 is no cap, unless nothing can ever be uploaded. */
  ghost predicate Sound(cfg: Config) {
    && cfg.maxTotalBytes <= U64_MAX
    && (cfg.maxTotalBytes < U64_MAX || cfg.maxObjectSize == 0 || cfg.maxUploads == 0)
  }

  /** The counter is the part bytes of the tracked uploads plus those removed
      but not yet released; it respects the global cap, each upload its own. */
  ghost predicate Counted(cfg: Config, uploads: map<UploadId, Upload>,
                          removed: map<UploadId, Upload>, counter: int)
  {
    && uploads.Keys !! removed.Keys
    && counter == TotalBytes(uploads + removed)
    && counter <= cfg.maxTotalBytes
    && (forall id :: id in uploads ==> BytesOf(uploads[id]) <= cfg.maxObjectSize)
    && (cfg.maxUploads == 0 ==> uploads == map[])
  }

  /** Replacing a tracked upload moves the count by the difference in bytes. */
  lemma CountedReplace(cfg: Config, uploads: map<UploadId, Upload>, removed: map<UploadId, Upload>,
                       counter: int, id: UploadId, u: Upload, counter': int)
    requires Counted(cfg, uploads, removed, counter) && id in uploads
    requires counter' == counter - BytesOf(uploads[id]) + BytesOf(u) <= cfg.maxTotalBytes
    requires BytesOf(u) <= cfg.maxObjectSize
    ensures Counted(cfg, uploads[id := u], removed, counter')
    ensures BytesOf(u) <= counter'
  {
    hide TotalBytes, BytesOf;
    UploadReplaced(uploads + removed, id, u);
    assert uploads[id := u] + removed == (uploads + removed)[id := u];
    UploadReplaced((uploads + removed)[id := u], id, u);
  }

  lemma CountedPromote(cfg: Config, s: Store, removed: map<UploadId, Upload>, id: UploadId,
                       which: set<nat>, complete: bool, now: int)
    requires Counted(cfg, s.uploads, removed, s.inFlightBytes) && id in s.uploads
    ensures var r := Promote(s, id, which, complete, now);
            Counted(cfg, r.uploads, removed, r.inFlightBytes) && BytesOf(r.uploads[id]) == BytesOf(s.uploads[id])
  {
    var u := s.uploads[id];
    var u' := Promote(s, id, which, complete, now).uploads[id];
    SumAgrees(u.parts, u'.parts, SizeOf);
    CountedReplace(cfg, s.uploads, removed, s.inFlightBytes, id, u', s.inFlightBytes);
  }

  /** The two size checks of upload_part, without saturation. */
  lemma ChecksAreExact(cfg: Config, u: Upload, n: nat, size: nat, inFlight: nat, counter: nat)
    requires Sound(cfg) && cfg.maxUploads > 0 && BytesOf(u) <= inFlight <= counter && inFlight <= cfg.maxTotalBytes
    requires CumulativeAfter(u, n, size) <= cfg.maxObjectSize && BytesOf(u) <= cfg.maxObjectSize
    requires size > OldSize(u, n) ==> SaturatingAdd(counter, size - OldSize(u, n)) <= cfg.maxTotalBytes
    requires OldSize(u, n) <= BytesOf(u)
    ensures inFlight + size - OldSize(u, n) <= cfg.maxTotalBytes
    ensures BytesOf(u) - OldSize(u, n) + size <= cfg.maxObjectSize
  {
  }

  lemma CountedAccept(cfg: Config, s: Store, removed: map<UploadId, Upload>, id: UploadId,
                      n: nat, data: Bytes, counter: nat, now: int)
    requires Sound(cfg)
    requires Counted(cfg, s.uploads, removed, s.inFlightBytes) && id in s.uploads
    requires s.inFlightBytes <= counter
    requires CumulativeAfter(s.uploads[id], n, |data|) <= cfg.maxObjectSize
    requires |data| > OldSize(s.uploads[id], n) ==>
               SaturatingAdd(counter, |data| - OldSize(s.uploads[id], n)) <= cfg.maxTotalBytes
    ensures var r := AcceptPart(cfg, s, id, n, data, now);
            Counted(cfg, r.uploads, removed, r.inFlightBytes)
  {
    var u := s.uploads[id];
    var u' := AcceptPart(cfg, s, id, n, data, now).uploads[id];
    PartReplaced(u.parts, n, u'.parts[n]);
    CountedReplace(cfg, s.uploads, removed, s.inFlightBytes, id, u, s.inFlightBytes);
    ChecksAreExact(cfg, u, n, |data|, s.inFlightBytes, counter);
    CountedReplace(cfg, s.uploads, removed, s.inFlightBytes, id, u', s.inFlightBytes + |data| - OldSize(u, n));
  }

  /** No outcome of UploadPart, failed relay writes included, upsets the count. */
  lemma CountedPutPart(cfg: Config, s: Store, removed: map<UploadId, Upload>, id: UploadId, bucket: string,
                       key: string, n: nat, data: Bytes, counter: nat, disk: Disk, now: int)
    requires Sound(cfg)
    requires Counted(cfg, s.uploads, removed, s.inFlightBytes) && s.inFlightBytes <= counter
    ensures var r := UploadPart(cfg, s, id, bucket, key, n, data, counter, disk, now).0;
            Counted(cfg, r.uploads, removed, r.inFlightBytes)
  {
    hide Sum, BytesOf, TotalBytes, AcceptPart, Counted, WrittenFiles;
    if UploadRefusal(cfg, s, id, bucket, key, n, |data|, counter).None? {
      var u := s.uploads[id];
      if Promotes(u, CumulativeAfter(u, n, |data|)) {
        CountedPromote(cfg, s, removed, id, disk.written, false, now);
        CountedPromote(cfg, s, removed, id, u.parts.Keys, true, now);
        var s1 := Promote(s, id, u.parts.Keys, true, now);
        assert OldSize(s1.uploads[id], n) == OldSize(u, n);
        CountedAccept(cfg, s1, removed, id, n, data, counter, now);
      } else {
        CountedAccept(cfg, s, removed, id, n, data, counter, now);
      }
    }
  }

  lemma CountedRelease(cfg: Config, s: Store, removed: map<UploadId, Upload>, id: UploadId, dirGone: bool)
    requires Sound(cfg)
    requires Counted(cfg, s.uploads, removed, s.inFlightBytes) && id in removed
    ensures BytesOf(removed[id]) <= s.inFlightBytes
    ensures var r := Release(s, id, removed[id], dirGone);
            Counted(cfg, r.uploads, removed - {id}, r.inFlightBytes)
  {
    SumRemove(s.uploads + removed, BytesOf, id);
    assert s.uploads + (removed - {id}) == (s.uploads + removed) - {id};
  }

  lemma CountedFinish(cfg: Config, s: Store, removed: map<UploadId, Upload>, id: UploadId, dirGone: bool)
    requires Sound(cfg)
    requires Counted(cfg, s.uploads, removed, s.inFlightBytes)
    ensures var r := Finish(s, id, dirGone); Counted(cfg, r.uploads, removed, r.inFlightBytes)
  {
    if id in s.uploads {
      HandedOver(s.uploads, removed, {id});
      var out := removed + Restrict(s.uploads, {id});
      CountedRelease(cfg, Remove(s, {id}), out, id, dirGone);
      assert out - {id} == removed;
    }
  }

  ghost predicate CountedSys(cfg: Config, s: Sys) {
    Counted(cfg, s.st.uploads, s.removed, s.st.inFlightBytes) && s.st.uploads.Keys + s.removed.Keys <= s.h.used
  }

  /** A step that only touches the flags of one upload keeps the count. */
  lemma CountedFlags(cfg: Config, s: Sys, s': Sys, id: UploadId)
    requires CountedSys(cfg, s)
    requires s'.removed == s.removed && s'.st.inFlightBytes == s.st.inFlightBytes && s'.h.used == s.h.used
    requires s'.st.uploads == s.st.uploads
             || (id in s.st.uploads && id in s'.st.uploads
                 && s'.st.uploads == s.st.uploads[id := s'.st.uploads[id]]
                 && s'.st.uploads[id].parts == s.st.uploads[id].parts)
    ensures CountedSys(cfg, s')
  {
    if s'.st.uploads != s.st.uploads {
      CountedReplace(cfg, s.st.uploads, s.removed, s.st.inFlightBytes, id, s'.st.uploads[id], s.st.inFlightBytes);
    }
  }

  lemma CountedNew(cfg: Config, s: Sys, s': Sys, id: UploadId, u: Upload)
    requires CountedSys(cfg, s) && id !in s.h.used && u.parts == map[] && cfg.maxUploads > 0
    requires s'.st.uploads == s.st.uploads[id := u] && s'.h.used == s.h.used + {id}
    requires s'.removed == s.removed && s'.st.inFlightBytes == s.st.inFlightBytes
    ensures CountedSys(cfg, s')
  {
    var uploads, removed := s.st.uploads, s.removed;
    UploadReplaced(uploads + removed, id, u);
    assert uploads[id := u] + removed == (uploads + removed)[id := u];
  }

  lemma CountedCreate(cfg: Config, s: Sys, id: UploadId, bucket: string, key: string,
                      threshold: Option<nat>, always: bool)
    requires CountedSys(cfg, s) && id !in s.h.used
    ensures CountedSys(cfg, DoCreate(cfg, s, id, bucket, key, threshold, always))
  {
    hide CountedSys;
    var s' := DoCreate(cfg, s, id, bucket, key, threshold, always);
    if |s.st.uploads| < cfg.maxUploads {
      CountedNew(cfg, s, s', id, s'.st.uploads[id]);
    }
  }

  lemma CountedPutPartStep(cfg: Config, s: Sys, id: UploadId, bucket: string, key: string, n: nat,
                           data: Bytes, lag: nat, disk: Disk)
    requires Sound(cfg) && CountedSys(cfg, s)
    ensures CountedSys(cfg, DoPutPart(cfg, s, id, bucket, key, n, data, lag, disk))
  {
    hide Counted, UploadPart;
    PutPartEffect(cfg, s.st, id, bucket, key, n, data, s.st.inFlightBytes + lag, disk, s.now);
    CountedPutPart(cfg, s.st, s.removed, id, bucket, key, n, data, s.st.inFlightBytes + lag, disk, s.now);
  }

  /** Removal hands uploads from one table to the other, and counts nothing. */
  lemma CountedTakeOut(cfg: Config, s: Sys, ids: set<UploadId>)
    requires CountedSys(cfg, s)
    ensures CountedSys(cfg, TakeOut(s, ids))
  {
    hide Sum, BytesOf, TotalBytes;
    HandedOver(s.st.uploads, s.removed, ids);
  }

  lemma CountedClient(cfg: Config, s: Sys, a: ClientStep)
    requires Sound(cfg) && CountedSys(cfg, s) && ClientEnabled(s, a)
    ensures CountedSys(cfg, DoClient(cfg, s, a))
  {
    hide Counted, TakeOut, DoCreate, DoPutPart;
    match a {
      case CreateUpload(id, bucket, key, threshold, always) =>
        CountedCreate(cfg, s, id, bucket, key, threshold, always);
      case PutPart(id, bucket, key, n, data, lag, disk) =>
        CountedPutPartStep(cfg, s, id, bucket, key, n, data, lag, disk);
      case AbortUpload(id, _, _) => CountedTakeOut(cfg, s, {id});
      case PurgeBucket(bucket) => CountedTakeOut(cfg, s, InBucket(s.st, bucket));
      case Begin(_, _, _, _) =>
      case JoinReturns(_) =>
    }
  }

  lemma CountedSweep(cfg: Config, s: Sys, a: SweepStep)
    requires Sound(cfg) && CountedSys(cfg, s) && SweepEnabled(s, a)
    ensures CountedSys(cfg, DoSweep(cfg, s, a))
  {
    hide Sum, BytesOf, TotalBytes, Counted, TakeOut;
    match a {
      case SweepExpired(maxAge, timeout) =>
        CountedTakeOut(cfg, s, ExpiredIds(cfg, s.st, maxAge, timeout, s.now));
      case ReleaseRemoved(id, dirGone) => CountedRelease(cfg, s.st, s.removed, id, dirGone);
      case _ =>
    }
  }

  lemma CountedTask(cfg: Config, s: Sys, c: nat, a: TaskStep)
    requires Sound(cfg) && CountedSys(cfg, s) && TaskEnabled(s, c, a)
    ensures CountedSys(cfg, DoTask(cfg, s, c, a))
  {
    hide Sum, BytesOf, TotalBytes, DoValidate, Counted;
    match a {
      case Settle(dirGone) =>
        if s.tasks[c].stage.ok {
          CountedFinish(cfg, s.st, s.removed, s.tasks[c].id, dirGone);
        } else {
          CountedFlags(cfg, s, DoSettle(s, c, dirGone), s.tasks[c].id);
        }
      case Validate(passthrough) =>
        ValidateEffect(cfg, s, c, passthrough);
        CountedFlags(cfg, s, DoValidate(cfg, s, c, passthrough), s.tasks[c].id);
      case TakeGuard => CountedFlags(cfg, s, DoTask(cfg, s, c, a), s.tasks[c].id);
      case DropGuard => CountedFlags(cfg, s, DoDropGuard(s, c), s.tasks[c].id);
      case _ =>
    }
  }

  lemma CountedStep(cfg: Config, s: Sys, a: Action)
    requires Sound(cfg) && CountedSys(cfg, s) && Enabled(s, a)
    ensures CountedSys(cfg, Do(cfg, s, a))
  {
    hide DoClient, DoSweep, DoTask, Counted;
    match a {
      case Tick(_) =>
      case Client(step) => CountedClient(cfg, s, step);
      case Sweep(step) => CountedSweep(cfg, s, step);
      case TaskMoves(c, step) => CountedTask(cfg, s, c, step);
    }
  }

  // -------------------------------------------------------------------- theorem

  lemma {:induction false} CountedAlways(cfg: Config, states: seq<Sys>, acts: seq<Action>, i: nat)
    requires Sound(cfg) && IsRun(cfg, states, acts) && i < |states|
    ensures CountedSys(cfg, states[i])
  {
    if i > 0 {
      CountedAlways(cfg, states, acts, i - 1);
      CountedStep(cfg, states[i - 1], acts[i - 1]);
    }
  }

  /** In every state of every run the counter equals the part bytes of the
      tracked uploads plus those removed but not yet released; it stays within
      the global cap, every upload within its own, and no release underflows. */
  lemma BytesAreCounted(cfg: Config, states: seq<Sys>, acts: seq<Action>, i: nat)
    requires Sound(cfg) && IsRun(cfg, states, acts) && i < |states|
    ensures var s := states[i];
            && s.st.inFlightBytes == TotalBytes(s.st.uploads) + TotalBytes(s.removed)
            && s.st.inFlightBytes <= cfg.maxTotalBytes
            && (forall id :: id in s.st.uploads ==> BytesOf(s.st.uploads[id]) <= cfg.maxObjectSize)
            && (forall id :: id in s.removed ==> BytesOf(s.removed[id]) <= s.st.inFlightBytes)
  {
    var s := states[i];
    CountedAlways(cfg, states, acts, i);
    SumUnion(s.st.uploads, s.removed, BytesOf);
    forall id | id in s.removed
      ensures BytesOf(s.removed[id]) <= s.st.inFlightBytes
    {
      CountedRelease(cfg, s.st, s.removed, id, true);
    }
  }

  /** Recording a part keeps the count right exactly when the new total is within
      the cap; the saturating check sees to that at every cap below 2^64 - 1. */
  lemma AcceptCountsExactlyWhenItFits(cfg: Config, s: Store, removed: map<UploadId, Upload>, id: UploadId, n: nat, data: Bytes, now: int)
    requires cfg.maxTotalBytes <= U64_MAX && Counted(cfg, s.uploads, removed, s.inFlightBytes) && id in s.uploads
    requires BytesOf(s.uploads[id]) - OldSize(s.uploads[id], n) + |data| <= cfg.maxObjectSize
    ensures var r := AcceptPart(cfg, s, id, n, data, now);
            Counted(cfg, r.uploads, removed, r.inFlightBytes)
            <==> s.inFlightBytes + |data| - OldSize(s.uploads[id], n) <= cfg.maxTotalBytes
  {
    hide Sum, TotalBytes;
    var u, total := s.uploads[id], s.inFlightBytes + |data| - OldSize(s.uploads[id], n);
    var u' := AcceptPart(cfg, s, id, n, data, now).uploads[id];
    PartReplaced(u.parts, n, u'.parts[n]);
    assert BytesOf(u') == BytesOf(u) - OldSize(u, n) + |data|;
    TotalReplaced(cfg, s.uploads, removed, s.inFlightBytes, id, u');
    if total <= cfg.maxTotalBytes {
      CountedReplace(cfg, s.uploads, removed, s.inFlightBytes, id, u', total);
    }
  }

  lemma TotalReplaced(cfg: Config, uploads: map<UploadId, Upload>, removed: map<UploadId, Upload>, counter: int, id: UploadId, u: Upload)
    requires Counted(cfg, uploads, removed, counter) && id in uploads
    ensures TotalBytes(uploads[id := u] + removed) == counter - BytesOf(uploads[id]) + BytesOf(u)
    ensures BytesOf(uploads[id]) <= counter
  {
    UploadReplaced(uploads + removed, id, u);
    assert uploads[id := u] + removed == (uploads + removed)[id := u];
  }

  // ------------------------------------------------- where the cap is no cap

  /** The counter agrees with what it counts. */
  ghost predicate Agrees(s: Sys) {
    s.st.inFlightBytes == TotalBytes(s.st.uploads) + TotalBytes(s.removed)
  }

  /** A state in which every upload so far was aborted and none released yet:
      `total` bytes in all, under ids shorter than `names`. */
  ghost predicate Piled(cfg: Config, s: Sys, total: nat, names: nat) {
    && Reached(cfg, s) && s.st.uploads == map[] && s.removed.Keys <= s.h.used
    && TotalBytes(s.removed) == total && s.st.inFlightBytes == Wrap(total)
    && forall id :: id in s.h.used ==> |id| < names
  }

  ghost function Name(k: nat): UploadId {
    seq(k, _ => 'x')
  }

  /** Create an upload, give it one part, and abort it. */
  lemma PileUp(cfg: Config, s: Sys, total: nat, names: nat, data: Bytes) returns (s': Sys)
    requires Piled(cfg, s, total, names) && total <= U64_MAX
    requires cfg.maxTotalBytes == U64_MAX && cfg.maxUploads > 0 && |data| <= cfg.maxObjectSize && |data| <= U64_MAX
    ensures Piled(cfg, s', total + |data|, names + 1)
  {
    hide Reached, TotalBytes;
    var id := Name(names);
    var a1 := Client(CreateUpload(id, "b", "k", None, false));
    var u := Upload("b", "k", s.now, map[], Open, Buffered(None), false);
    var s1 := s.(st := s.st.(uploads := map[id := u]), h := s.h.(used := s.h.used + {id}, content := s.h.content[id := map[]]));
    assert s.st.uploads[id := u] == map[id := u];
    ReachNext(cfg, s, a1);
    assert Do(cfg, s, a1) == s1;
    var s2 := PilePart(cfg, s1, id, u, total, data);
    s' := PileAbort(cfg, s2, id, total, data);
  }

  /** The store after the first part of an upload, where only the sum can wrap. */
  lemma PartGoesIn(cfg: Config, st: Store, id: UploadId, u: Upload, total: nat, data: Bytes, now: int)
    requires st.uploads == map[id := u] && st.inFlightBytes == Wrap(total) && total <= U64_MAX
    requires u == Upload("b", "k", now, map[], Open, Buffered(None), false)
    requires cfg.maxTotalBytes == U64_MAX && |data| <= cfg.maxObjectSize && |data| <= U64_MAX
    ensures var r := UploadPart(cfg, st, id, "b", "k", 1, data, st.inFlightBytes, Disk(true, true, {}, true), now);
            && r.1.Ok? && r.0.inFlightBytes == Wrap(total + |data|)
            && r.0.uploads == map[id := u.(parts := map[1 := Part(InMemory(data), cfg.md5(data), |data|)])]
  {
    assert BytesOf(u) == 0;
    assert UploadRefusal(cfg, st, id, "b", "k", 1, |data|, st.inFlightBytes).None?;
    var part := Part(InMemory(data), cfg.md5(data), |data|);
    assert u.parts[1 := part] == map[1 := part];
  }

  lemma PilePart(cfg: Config, s1: Sys, id: UploadId, u: Upload, total: nat, data: Bytes) returns (s2: Sys)
    requires Reached(cfg, s1) && s1.st.uploads == map[id := u] && s1.st.inFlightBytes == Wrap(total) && total <= U64_MAX
    requires u == Upload("b", "k", s1.now, map[], Open, Buffered(None), false)
    requires cfg.maxTotalBytes == U64_MAX && |data| <= cfg.maxObjectSize && |data| <= U64_MAX
    ensures Reached(cfg, s2) && s2.removed == s1.removed && s2.h.used == s1.h.used && s2.now == s1.now
    ensures s2.st.uploads == map[id := u.(parts := map[1 := Part(InMemory(data), cfg.md5(data), |data|)])]
    ensures s2.st.inFlightBytes == Wrap(total + |data|)
  {
    hide Reached, UploadPart;
    var a := Client(PutPart(id, "b", "k", 1, data, 0, Disk(true, true, {}, true)));
    ReachNext(cfg, s1, a);
    s2 := Do(cfg, s1, a);
    PartGoesIn(cfg, s1.st, id, u, total, data, s1.now);
  }

  lemma PileAbort(cfg: Config, s2: Sys, id: UploadId, total: nat, data: Bytes) returns (s': Sys)
    requires Reached(cfg, s2) && id in s2.st.uploads && s2.st.uploads == map[id := s2.st.uploads[id]]
    requires s2.st.uploads[id].bucket == "b" && s2.st.uploads[id].key == "k" && s2.st.uploads[id].phase == Open
    requires s2.st.uploads[id].parts == map[1 := Part(InMemory(data), cfg.md5(data), |data|)]
    requires id !in s2.removed && TotalBytes(s2.removed) == total
    ensures Reached(cfg, s') && s'.st.uploads == map[] && s'.removed.Keys == s2.removed.Keys + {id}
    ensures s'.h == s2.h && s'.st.inFlightBytes == s2.st.inFlightBytes && TotalBytes(s'.removed) == total + |data|
  {
    hide Reached, TotalBytes;
    var a := Client(AbortUpload(id, "b", "k"));
    ReachNext(cfg, s2, a);
    s' := Do(cfg, s2, a);
    var u := s2.st.uploads[id];
    assert s'.st.uploads == map[];
    assert s'.removed == s2.removed[id := u];
    UploadReplaced(s2.removed, id, u);
    var none: map<nat, Part> := map[];
    PartReplaced(none, 1, u.parts[1]);
    assert u.parts == none[1 := u.parts[1]];
  }

  lemma NothingPiled(cfg: Config)
    ensures Piled(cfg, FRESH, 0, 0)
  {
    ReachInitial(cfg, FRESH);
  }

  lemma {:induction false} PileBytes(cfg: Config, k: nat) returns (s: Sys)
    requires cfg.maxTotalBytes == U64_MAX && cfg.maxUploads > 0 && cfg.maxObjectSize > 0 && k <= U64_MAX + 1
    ensures Piled(cfg, s, k, k)
    decreases k
  {
    hide Piled;
    if k == 0 {
      NothingPiled(cfg);
      s := FRESH;
    } else {
      var before := PileBytes(cfg, k - 1);
      s := PileUp(cfg, before, k - 1, k - 1, [0]);
    }
  }

  lemma PiledTooHigh(cfg: Config, s: Sys, total: nat, names: nat)
    requires Piled(cfg, s, total, names) && total > U64_MAX
    ensures Reached(cfg, s) && !Agrees(s)
  {
    hide Reached;
  }

  /** With a cap of 2^64 - 1 two aborted uploads of 2^63 - 1 bytes, not yet
      released, and a part of two bytes wrap the counter: the check saturates. */
  lemma LargestCapWraps(cfg: Config) returns (states: seq<Sys>, acts: seq<Action>)
    requires cfg.maxTotalBytes == U64_MAX && cfg.maxUploads > 0 && cfg.maxObjectSize == 0x7FFF_FFFF_FFFF_FFFF
    ensures IsRun(cfg, states, acts) && !Agrees(states[|acts|])
  {
    hide Piled, Agrees;
    var big: Bytes := seq(0x7FFF_FFFF_FFFF_FFFF, _ => 0);
    NothingPiled(cfg);
    var s1 := PileUp(cfg, FRESH, 0, 0, big);
    var s2 := PileUp(cfg, s1, 0x7FFF_FFFF_FFFF_FFFF, 1, big);
    var s3 := PileUp(cfg, s2, 0xFFFF_FFFF_FFFF_FFFE, 2, [0, 0]);
    PiledTooHigh(cfg, s3, 0x1_0000_0000_0000_0000, 3);
    states, acts :| IsRun(cfg, states, acts) && states[|acts|] == s3;
  }

  /** Over all configurations: the counter agrees with what it counts in every
      state of every run exactly when the configuration is sound. */
  lemma CountedExactlyWhenSound(cfg: Config)
    requires cfg.maxTotalBytes <= U64_MAX
    ensures (forall states: seq<Sys>, acts: seq<Action> :: IsRun(cfg, states, acts) ==> Agrees(states[|acts|])) <==> Sound(cfg)
  {
    hide Agrees, Piled;
    if Sound(cfg) {
      forall states: seq<Sys>, acts: seq<Action> | IsRun(cfg, states, acts)
        ensures Agrees(states[|acts|])
      {
        BytesAreCounted(cfg, states, acts, |acts|);
        assert Agrees(states[|acts|]) by { AgreesIs(states[|acts|]); }
      }
    } else {
      var s := PileBytes(cfg, U64_MAX + 1);
      PiledTooHigh(cfg, s, U64_MAX + 1, U64_MAX + 1);
      var states: seq<Sys>, acts: seq<Action> :| IsRun(cfg, states, acts) && states[|acts|] == s;
    }
  }

  lemma AgreesIs(s: Sys)
    ensures Agrees(s) <==> s.st.inFlightBytes == TotalBytes(s.st.uploads) + TotalBytes(s.removed)
  {
  }
}
