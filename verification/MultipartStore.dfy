/** The multipart store as the object it is: a table, a registry and a counter
    updated in place. Every method is tied to its step on values. */
module MultipartStore {
  import opened Common
  import opened MultipartModel

  /** What an `AtomicU64` holds. */
  type u64 = n: nat | n <= U64_MAX

  // ------------------------------------------------------ releasing a batch

  /** The removed uploads whose directory goes away with them. */
  ghost function DirsGone(out: map<UploadId, Upload>, stuck: set<UploadId>): set<UploadId> {
    set id | id in out && out[id].relay.Relayed? && id !in stuck
  }

  ghost function FilesOutside(files: map<Path, Bytes>, gone: set<UploadId>): map<Path, Bytes> {
    map p: Path | p in files && p.dir !in gone :: files[p]
  }

  /** Releasing a whole batch of removed uploads, in any order. The directories
      in `stuck` cannot be deleted. */
  ghost function ReleaseAll(s: Store, out: map<UploadId, Upload>, stuck: set<UploadId>): Store {
    s.(inFlightBytes := Wrap(s.inFlightBytes - TotalBytes(out)),
       files := FilesOutside(s.files, DirsGone(out, stuck)),
       dirs := s.dirs - DirsGone(out, stuck))
  }

  lemma WrapTwice(x: int, b: int)
    ensures Wrap(Wrap(x) - b) == Wrap(x - b)
  {
  }

  /** Releasing one more upload of the batch. */
  lemma ReleaseOneMore(s: Store, out: map<UploadId, Upload>, stuck: set<UploadId>, id: UploadId, u: Upload)
    requires id !in out
    ensures Release(ReleaseAll(s, out, stuck), id, u, id !in stuck) == ReleaseAll(s, out[id := u], stuck)
  {
    hide Wrap, Sum, BytesOf;
    SumUpdate(out, BytesOf, id, u);
    WrapTwice(s.inFlightBytes - TotalBytes(out), BytesOf(u));
    var gone := DirsGone(out, stuck);
    if u.relay.Relayed? && id !in stuck {
      assert DirsGone(out[id := u], stuck) == gone + {id};
      assert s.dirs - gone - {id} == s.dirs - (gone + {id});
    } else {
      assert DirsGone(out[id := u], stuck) == gone;
    }
  }

  lemma ReleaseNothing(s: Store, stuck: set<UploadId>)
    requires s.inFlightBytes <= U64_MAX
    ensures ReleaseAll(s, map[], stuck) == s
    ensures Swept(map[]) == Report(0, 0, 0)
  {
  }

  /** One more key decided by a retain loop. */
  lemma TakeOneMore(all: map<UploadId, Upload>, ids: set<UploadId>, todo: set<UploadId>, id: UploadId)
    requires id in todo && id in all && todo <= all.Keys && ids <= all.Keys
    ensures id !in ids ==> Restrict(all, ids - (todo - {id})) == Restrict(all, ids - todo)
    ensures id in ids ==> Restrict(all, ids - (todo - {id})) == Restrict(all, ids - todo)[id := all[id]]
    ensures id !in ids ==> all - (ids - (todo - {id})) == all - (ids - todo)
    ensures id in ids ==> all - (ids - (todo - {id})) == all - (ids - todo) - {id}
  {
  }

  ghost function Orphans(dirs: map<UploadId, int>, active: set<UploadId>, minAge: nat, now: int): set<UploadId> {
    set d | d in dirs && Orphan(dirs, d, active, minAge, now)
  }

  ghost function WithoutDirs(s: Store, gone: set<UploadId>): Store {
    s.(files := FilesOutside(s.files, gone), dirs := s.dirs - gone)
  }

  /** One more directory entry looked at by the orphan scan. */
  lemma SweepOneMore(s: Store, gone: set<UploadId>, todo: set<UploadId>, dir: UploadId)
    requires dir in todo
    ensures WithoutDirs(s, gone - (todo - {dir}))
            == if dir in gone then RemoveDir(WithoutDirs(s, gone - todo), dir) else WithoutDirs(s, gone - todo)
    ensures |gone - (todo - {dir})| == |gone - todo| + (if dir in gone then 1 else 0)
  {
    var left := gone - todo;
    if dir in gone {
      assert gone - (todo - {dir}) == left + {dir};
      assert s.dirs - (left + {dir}) == s.dirs - left - {dir};
    } else {
      assert gone - (todo - {dir}) == left;
    }
  }

  // --------------------------------------------------------- moving to disk

  /** Moving one more part to disk: the part table. */
  lemma MoveOneMore(id: UploadId, parts: map<nat, Part>, done: set<nat>, n: nat)
    requires n in parts && n !in done
    ensures MoveToRelay(id, parts, done + {n})
            == if parts[n].payload.InMemory?
               then MoveToRelay(id, parts, done)[n := parts[n].(payload := RelayedFile(Path(id, n)))]
               else MoveToRelay(id, parts, done)
  {
  }

  /** Moving one more part to disk: the files. */
  lemma WriteOneMore(id: UploadId, parts: map<nat, Part>, files: map<Path, Bytes>, done: set<nat>, n: nat)
    requires n in parts && n !in done
    ensures files + WrittenFiles(id, parts, done + {n})
            == if parts[n].payload.InMemory?
               then (files + WrittenFiles(id, parts, done))[Path(id, n) := parts[n].payload.data]
               else files + WrittenFiles(id, parts, done)
  {
  }

  /** What one sweep reports (MultipartSweepReport). */
  datatype Report = Report(sweptOpen: nat, sweptCompleting: nat, reclaimedBytes: nat)

  ghost function InPhase(out: map<UploadId, Upload>, phase: Phase): set<UploadId> {
    set id | id in out && out[id].phase == phase
  }

  ghost function Swept(out: map<UploadId, Upload>): Report {
    Report(|InPhase(out, Open)|, |InPhase(out, Completing)|, TotalBytes(out))
  }

  lemma InPhaseOneMore(out: map<UploadId, Upload>, id: UploadId, u: Upload, phase: Phase)
    requires id !in out
    ensures |InPhase(out[id := u], phase)| == |InPhase(out, phase)| + (if u.phase == phase then 1 else 0)
  {
    if u.phase == phase {
      assert InPhase(out[id := u], phase) == InPhase(out, phase) + {id};
    } else {
      assert InPhase(out[id := u], phase) == InPhase(out, phase);
    }
  }

  lemma SweptOneMore(out: map<UploadId, Upload>, id: UploadId, u: Upload)
    requires id !in out
    ensures Swept(out[id := u])
            == Report(Swept(out).sweptOpen + (if u.phase == Open then 1 else 0),
                      Swept(out).sweptCompleting + (if u.phase == Completing then 1 else 0),
                      Swept(out).reclaimedBytes + BytesOf(u))
  {
    hide BytesOf, Sum, InPhase;
    SumUpdate(out, BytesOf, id, u);
    InPhaseOneMore(out, id, u, Open);
    InPhaseOneMore(out, id, u, Completing);
  }

  ghost function CompletingIn(s: Store, bucket: string): set<UploadId> {
    set id | id in s.uploads && s.uploads[id].bucket == bucket && s.uploads[id].phase == Completing
  }

  lemma CountOneMore(all: set<UploadId>, todo: set<UploadId>, id: UploadId)
    requires id in todo
    ensures |all - (todo - {id})| == |all - todo| + if id in all then 1 else 0
  {
    if id in all {
      assert all - (todo - {id}) == (all - todo) + {id};
    } else {
      assert all - (todo - {id}) == all - todo;
    }
  }

  lemma RefusedIfAny(s: Store, bucket: string)
    ensures |CompletingIn(s, bucket)| > 0 <==> PurgeRefused(s, bucket)
  {
    if id :| id in s.uploads && s.uploads[id].bucket == bucket && s.uploads[id].phase == Completing {
      assert id in CompletingIn(s, bucket);
    }
    if |CompletingIn(s, bucket)| > 0 {
      var id :| id in CompletingIn(s, bucket);
    }
  }

  class MultipartStore {
    const cfg: Config
    var uploads: map<UploadId, Upload>
    var slots: map<UploadId, Slot>
    var inFlightBytes: u64
    var files: map<Path, Bytes>
    var dirs: map<UploadId, int>

    /** The object as a value. */
    function View(): Store
      reads this
    {
      Store(uploads, slots, inFlightBytes, files, dirs)
    }

    constructor (cfg: Config)
      ensures this.cfg == cfg && View() == Store(map[], map[], 0, map[], map[])
    {
      this.cfg := cfg;
      uploads, slots, inFlightBytes, files, dirs := map[], map[], 0, map[], map[];
    }

    // ------------------------------------------------------ create and upload

    method Create(id: UploadId, bucket: string, key: string, threshold: Option<nat>, always: bool, now: int)
      returns (r: Result<UploadId>)
      modifies this
      ensures (View(), r) == MultipartModel.Create(cfg, old(View()), id, bucket, key, threshold, always, now)
    {
      if |uploads| >= cfg.maxUploads {
        return Err(SlowDown);
      }
      var relay := if always then Relayed else Buffered(threshold);
      uploads := uploads[id := Upload(bucket, key, now, map[], Open, relay, false)];
      r := Ok(id);
    }

    /** The sum of all part sizes. */
    static method SumParts(parts: map<nat, Part>) returns (total: nat)
      ensures total == Sum(parts, SizeOf)
    {
      total := 0;
      var todo := parts.Keys;
      ghost var done: set<nat> := {};
      assert Restrict(parts, done) == map[];
      while todo != {}
        invariant todo == parts.Keys - done && done <= parts.Keys
        invariant total == Sum(Restrict(parts, done), SizeOf)
        decreases todo
      {
        var n :| n in todo;
        SumUpdate(Restrict(parts, done), SizeOf, n, parts[n]);
        assert Restrict(parts, done + {n}) == Restrict(parts, done)[n := parts[n]];
        total := total + parts[n].size;
        todo, done := todo - {n}, done + {n};
      }
      assert Restrict(parts, done) == parts;
    }

    /** Move the parts of `which` to disk one by one, in no particular order. */
    static method RelayEach(id: UploadId, parts: map<nat, Part>, files: map<Path, Bytes>, which: set<nat>)
      returns (moved: map<nat, Part>, onDisk: map<Path, Bytes>)
      ensures moved == MoveToRelay(id, parts, which)
      ensures onDisk == files + WrittenFiles(id, parts, which)
    {
      moved, onDisk := parts, files;
      var todo := which * parts.Keys;
      ghost var done: set<nat> := {};
      assert MoveToRelay(id, parts, done) == parts;
      assert files + WrittenFiles(id, parts, done) == files;
      while todo != {}
        invariant done <= which * parts.Keys && todo == which * parts.Keys - done
        invariant moved == MoveToRelay(id, parts, done)
        invariant onDisk == files + WrittenFiles(id, parts, done)
        decreases todo
      {
        hide MoveToRelay, WrittenFiles;
        var n :| n in todo;
        MoveOneMore(id, parts, done, n);
        WriteOneMore(id, parts, files, done, n);
        match parts[n].payload {
          case InMemory(data) =>
            onDisk := onDisk[Path(id, n) := data];
            moved := moved[n := parts[n].(payload := RelayedFile(Path(id, n)))];
          case RelayedFile(_) =>
        }
        todo, done := todo - {n}, done + {n};
      }
      assert MoveToRelay(id, parts, which) == MoveToRelay(id, parts, done);
      assert WrittenFiles(id, parts, which) == WrittenFiles(id, parts, done);
    }

    /** promote_upload_to_relay; the disk may give out after `disk.written`. */
    method PromoteToRelay(id: UploadId, disk: Disk, now: int) returns (ok: bool)
      requires id in uploads
      modifies this
      ensures ok == disk.promotes
      ensures View() == if ok then Promote(old(View()), id, old(uploads[id].parts.Keys), true, now)
                        else if disk.dirMade then Promote(old(View()), id, disk.written, false, now)
                        else old(View())
    {
      if !disk.promotes && !disk.dirMade {
        return false;
      }
      var u := uploads[id];
      var which := if disk.promotes then u.parts.Keys else disk.written;
      var moved, onDisk := RelayEach(id, u.parts, files, which);
      dirs := dirs[id := now];
      files := onDisk;
      u := u.(parts := moved);
      if disk.promotes {
        u := u.(relay := Relayed);
      }
      uploads := uploads[id := u];
      ok := disk.promotes;
    }

    /** The checks upload_part makes before it buffers anything. */
    method CheckPart(id: UploadId, bucket: string, key: string, n: nat, size: nat)
      returns (refusal: Option<S3Error>, cumulative: nat)
      ensures refusal == UploadRefusal(cfg, View(), id, bucket, key, n, size, inFlightBytes)
      ensures refusal.None? ==> id in uploads && cumulative == CumulativeAfter(uploads[id], n, size)
    {
      cumulative := 0;
      if !(1 <= n <= 10000) {
        return Some(InvalidArgument), 0;
      }
      if id !in uploads || uploads[id].bucket != bucket || uploads[id].key != key {
        return Some(NoSuchUpload), 0;
      }
      if uploads[id].phase != Open {
        return Some(InvalidRequest), 0;
      }
      var replaced := if n in uploads[id].parts then uploads[id].parts[n].size else 0;
      var sum := SumParts(uploads[id].parts);
      cumulative := SaturatingAdd(SaturatingSub(sum, replaced), size);
      if cumulative > cfg.maxObjectSize {
        return Some(EntityTooLarge), cumulative;
      }
      if size > replaced && SaturatingAdd(inFlightBytes, size - replaced) > cfg.maxTotalBytes {
        return Some(SlowDown), cumulative;
      }
      refusal := None;
    }

    /** Write and record an accepted part. */
    method StorePart(id: UploadId, n: nat, data: Bytes, disk: Disk, now: int) returns (r: Result<string>)
      requires id in uploads
      modifies this
      ensures (View(), r)
              == if old(uploads[id].relay.Relayed?) && !disk.writes
                 then (if disk.dirMade then old(View()).(dirs := old(dirs)[id := now]) else old(View()), Err(InternalError))
                 else (AcceptPart(cfg, old(View()), id, n, data, now), Ok(QuotedHex(cfg, cfg.md5(data))))
    {
      var u := uploads[id];
      var payload := InMemory(data);
      if u.relay.Relayed? {
        if disk.dirMade || disk.writes {
          dirs := dirs[id := now];
        }
        if !disk.writes {
          return Err(InternalError);
        }
        files := files[Path(id, n) := data];
        payload := RelayedFile(Path(id, n));
      }
      var replaced := if n in u.parts then u.parts[n].size else 0;
      var digest := cfg.md5(data);
      uploads := uploads[id := u.(parts := u.parts[n := Part(payload, digest, |data|)], lastActivity := now)];
      if |data| >= replaced {
        inFlightBytes := Wrap(inFlightBytes + (|data| - replaced));
      } else {
        inFlightBytes := Wrap(inFlightBytes - (replaced - |data|));
      }
      r := Ok("\"" + cfg.hex(digest) + "\"");
    }

    method UploadPart(id: UploadId, bucket: string, key: string, n: nat, data: Bytes, disk: Disk, now: int)
      returns (r: Result<string>)
      modifies this
      ensures (View(), r) == MultipartModel.UploadPart(cfg, old(View()), id, bucket, key, n, data, old(inFlightBytes), disk, now)
    {
      hide UploadRefusal, CumulativeAfter, MoveToRelay, WrittenFiles, AcceptPart, QuotedHex;
      var refusal, cumulative := CheckPart(id, bucket, key, n, |data|);
      if refusal.Some? {
        return Err(refusal.value);
      }
      if Promotes(uploads[id], cumulative) {
        var ok := PromoteToRelay(id, disk, now);
        if !ok {
          return Err(InternalError);
        }
      }
      r := StorePart(id, n, data, disk, now);
    }

    // --------------------------------------------------------------- complete

    /** The checks of validate_parts, then its loop over the requested parts. */
    method ValidateParts(id: UploadId, bucket: string, key: string, req: PartList, hydrate: bool)
      returns (r: Result<Gathered>)
      ensures r == MultipartModel.ValidateParts(cfg, View(), id, bucket, key, req, hydrate)
    {
      if id !in uploads || uploads[id].bucket != bucket || uploads[id].key != key {
        return Err(NoSuchUpload);
      }
      if |req| == 0 {
        return Err(InvalidPart);
      }
      for w := 0 to |req| - 1
        invariant forall i :: 0 <= i < w ==> req[i].0 < req[i + 1].0
      {
        if req[w].0 >= req[w + 1].0 {
          return Err(InvalidPartOrder);
        }
      }
      var parts := uploads[id].parts;
      var total: nat, digests, chunks := 0, [], [];
      for k := 0 to |req|
        invariant Gather(cfg, files, parts, req, hydrate, Gathered(0, [], []))
                  == Gather(cfg, files, parts, req[k..], hydrate, Gathered(total, digests, chunks))
      {
        assert req[k..][1..] == req[k + 1..];
        if req[k].0 !in parts {
          return Err(InvalidPart);
        }
        var part := parts[req[k].0];
        if TrimQuotes(req[k].1) != cfg.hex(part.md5) {
          return Err(InvalidPart);
        }
        total := total + part.size;
        if total > cfg.maxObjectSize {
          return Err(InvalidArgument);
        }
        digests := digests + part.md5;
        if hydrate {
          var loaded := LoadBytes(cfg, files, part);
          if loaded.Err? {
            return Err(loaded.error);
          }
          chunks := chunks + [loaded.value];
        }
      }
      r := Ok(Gathered(total, digests, chunks));
    }

    static method Assemble(chunks: seq<Bytes>) returns (data: Bytes)
      ensures data == Concat(chunks)
    {
      data := [];
      for k := 0 to |chunks|
        invariant data + Concat(chunks[k..]) == Concat(chunks)
      {
        assert chunks[k..][1..] == chunks[k + 1..];
        data := data + chunks[k];
      }
    }

    method Complete(id: UploadId, bucket: string, key: string, req: PartList, now: int)
      returns (r: Result<Completed>)
      modifies this
      ensures (View(), r) == MultipartModel.Complete(cfg, old(View()), id, bucket, key, req, now)
    {
      hide Gather, Concat, Ascending;
      if id in uploads && uploads[id].phase == Completing {
        return Err(InvalidRequest);
      }
      var v := ValidateParts(id, bucket, key, req, true);
      if v.Err? {
        return Err(v.error);
      }
      var data := Assemble(v.value.chunks);
      uploads := uploads[id := uploads[id].(phase := Completing, lastActivity := now)];
      var etag := "\"" + cfg.hex(cfg.md5(v.value.digests)) + "-" + Decimal(|req|) + "\"";
      r := Ok(Completed(data, etag));
    }

    /** ordered_relay_part_paths. */
    static method OrderedPaths(cfg: Config, files: map<Path, Bytes>, parts: map<nat, Part>, req: PartList)
      returns (r: Result<seq<Path>>)
      ensures r == MultipartModel.OrderedPaths(cfg, files, parts, req)
    {
      var paths: seq<Path> := [];
      ghost var all := MultipartModel.OrderedPaths(cfg, files, parts, req);
      assert req[0..] == req;
      assert all.Ok? ==> [] + all.value == all.value;
      for k := 0 to |req|
        invariant var rest := MultipartModel.OrderedPaths(cfg, files, parts, req[k..]);
                  MultipartModel.OrderedPaths(cfg, files, parts, req)
                  == if rest.Err? then rest else Ok(paths + rest.value)
      {
        assert req[k..][1..] == req[k + 1..];
        if req[k].0 !in parts {
          return Err(InvalidPart);
        }
        match parts[req[k].0].payload {
          case InMemory(_) =>
            return Err(InternalError);
          case RelayedFile(path) =>
            if path !in files || cfg.md5(files[path]) != parts[req[k].0].md5 {
              return Err(InternalError);
            }
            ghost var rest := MultipartModel.OrderedPaths(cfg, files, parts, req[k + 1..]);
            assert rest.Ok? ==> paths + ([path] + rest.value) == paths + [path] + rest.value;
            paths := paths + [path];
        }
      }
      assert paths + [] == paths;
      r := Ok(paths);
    }

    method CompletePassthrough(id: UploadId, bucket: string, key: string, req: PartList, now: int)
      returns (r: Result<Passthrough>)
      modifies this
      ensures (View(), r) == MultipartModel.CompletePassthrough(cfg, old(View()), id, bucket, key, req, now)
    {
      hide Gather, Concat, Ascending;
      if id in uploads && uploads[id].phase == Completing {
        return Err(InvalidRequest);
      }
      if id !in uploads {
        return Err(NoSuchUpload);
      }
      var hydrate := uploads[id].relay.Buffered?;
      var v := ValidateParts(id, bucket, key, req, hydrate);
      if v.Err? {
        return Err(v.error);
      }
      var payload := Chunks(v.value.chunks);
      if uploads[id].relay.Relayed? {
        var paths := OrderedPaths(cfg, files, uploads[id].parts, req);
        if paths.Err? {
          return Err(paths.error);
        }
        payload := RelayedParts(paths.value);
      }
      uploads := uploads[id := uploads[id].(phase := Completing, lastActivity := now)];
      var etag := "\"" + cfg.hex(cfg.md5(v.value.digests)) + "-" + Decimal(|req|) + "\"";
      r := Ok(Passthrough(payload, etag, v.value.total));
    }

    method Rollback(id: UploadId)
      modifies this
      ensures View() == MultipartModel.Rollback(old(View()), id)
    {
      if id in uploads {
        uploads := uploads[id := uploads[id].(phase := Open)];
      }
    }

    /** store_guard (`flag`) and clear_store_in_progress. */
    method SetStoring(id: UploadId, flag: bool)
      modifies this
      ensures View() == MultipartModel.SetStoring(old(View()), id, flag)
    {
      if id in uploads {
        uploads := uploads[id := uploads[id].(storeInProgress := flag)];
      }
    }

    // ------------------------------------------------- removing and releasing

    /** release_bytes, then cleanup_relay_dir_for_upload. */
    method Release(id: UploadId, u: Upload, dirGone: bool) returns (freed: nat)
      modifies this
      ensures View() == MultipartModel.Release(old(View()), id, u, dirGone)
      ensures freed == BytesOf(u)
    {
      freed := SumParts(u.parts);
      inFlightBytes := Wrap(inFlightBytes - freed);
      if u.relay.Relayed? && dirGone {
        DeleteDir(id);
      }
    }

    method Finish(id: UploadId, dirGone: bool)
      modifies this
      ensures View() == MultipartModel.Finish(old(View()), id, dirGone)
    {
      if id in uploads {
        var u := uploads[id];
        uploads := uploads - {id};
        var _ := Release(id, u, dirGone);
      }
    }

    method Abort(id: UploadId, bucket: string, key: string, dirGone: bool) returns (r: Result<()>)
      modifies this
      ensures r.Ok? <==> AbortRefusal(old(View()), id, bucket, key).None?
      ensures r.Err? ==> Some(r.error) == AbortRefusal(old(View()), id, bucket, key) && View() == old(View())
      ensures r.Ok? ==> View() == MultipartModel.Finish(old(View()), id, dirGone)
    {
      if id !in uploads || uploads[id].bucket != bucket || uploads[id].key != key {
        return Err(NoSuchUpload);
      }
      if uploads[id].phase == Completing {
        return Err(InvalidRequest);
      }
      var u := uploads[id];
      uploads := uploads - {id};
      var _ := Release(id, u, dirGone);
      r := Ok(());
    }

    /** Release the bytes and directories of a removed batch, one upload at a time. */
    method ReleaseBatch(out: map<UploadId, Upload>, stuck: set<UploadId>) returns (report: Report)
      modifies this
      ensures View() == ReleaseAll(old(View()), out, stuck)
      ensures report == Swept(out)
    {
      hide ReleaseAll, Swept, BytesOf, MultipartModel.Release;
      report := Report(0, 0, 0);
      var todo := out.Keys;
      ghost var done: set<UploadId> := {};
      ghost var before := View();
      assert Restrict(out, done) == map[];
      ReleaseNothing(before, stuck);
      while todo != {}
        invariant done <= out.Keys && todo == out.Keys - done
        invariant View() == ReleaseAll(before, Restrict(out, done), stuck)
        invariant report == Swept(Restrict(out, done))
        decreases todo
      {
        var id :| id in todo;
        var u := out[id];
        ReleaseOneMore(before, Restrict(out, done), stuck, id, u);
        SweptOneMore(Restrict(out, done), id, u);
        assert Restrict(out, done + {id}) == Restrict(out, done)[id := u];
        var freed := Release(id, u, id !in stuck);
        if u.phase == Completing {
          report := report.(sweptCompleting := report.sweptCompleting + 1);
        } else {
          report := report.(sweptOpen := report.sweptOpen + 1);
        }
        report := report.(reclaimedBytes := report.reclaimedBytes + freed);
        todo, done := todo - {id}, done + {id};
      }
      assert Restrict(out, done) == out;
    }

    /** purge_uploads_for_bucket: all Open uploads of the bucket, or nothing. */
    method Purge(bucket: string, stuck: set<UploadId>) returns (refused: bool, count: nat)
      modifies this
      ensures refused <==> PurgeRefused(old(View()), bucket)
      ensures refused ==> View() == old(View()) && count == |CompletingIn(old(View()), bucket)|
      ensures !refused ==>
        var ids := InBucket(old(View()), bucket);
        && count == |ids|
        && View() == ReleaseAll(Remove(old(View()), ids), Restrict(old(uploads), ids), stuck)
    {
      count := CountCompleting(bucket);
      if count > 0 {
        return true, count;
      }
      var out := map[];
      var todo := uploads.Keys;
      ghost var before := View();
      ghost var ids := InBucket(before, bucket);
      assert Restrict(before.uploads, ids - todo) == map[];
      assert before.uploads - (ids - todo) == before.uploads;
      while todo != {}
        invariant todo <= before.uploads.Keys && ids <= before.uploads.Keys
        invariant out == Restrict(before.uploads, ids - todo)
        invariant View() == Remove(before, ids - todo)
        decreases todo
      {
        hide Restrict;
        var id :| id in todo;
        TakeOneMore(before.uploads, ids, todo, id);
        if uploads[id].bucket == bucket {
          out := out[id := uploads[id]];
          uploads := uploads - {id};
        }
        todo := todo - {id};
      }
      assert ids - todo == ids;
      var _ := ReleaseBatch(out, stuck);
      assert out.Keys == ids;
      refused, count := false, |out|;
    }

    method CountCompleting(bucket: string) returns (count: nat)
      ensures count == |CompletingIn(View(), bucket)|
      ensures count > 0 <==> PurgeRefused(View(), bucket)
    {
      count := 0;
      ghost var all := CompletingIn(View(), bucket);
      assert forall id :: id in uploads ==> (id in all <==> uploads[id].bucket == bucket && uploads[id].phase == Completing);
      var todo := uploads.Keys;
      assert all - todo == {};
      while todo != {}
        invariant todo <= uploads.Keys && count == |all - todo|
        decreases todo
      {
        hide View;
        var id :| id in todo;
        CountOneMore(all, todo, id);
        if uploads[id].bucket == bucket && uploads[id].phase == Completing {
          count := count + 1;
        }
        todo := todo - {id};
      }
      assert all - todo == all;
      RefusedIfAny(View(), bucket);
    }

    /** cleanup_expired. */
    method CleanupExpired(maxAge: int, completingTimeout: int, now: int, stuck: set<UploadId>) returns (report: Report)
      modifies this
      ensures var ids := ExpiredIds(cfg, old(View()), maxAge, completingTimeout, now);
        && View() == ReleaseAll(Remove(Prune(old(View()), completingTimeout, now), ids), Restrict(old(uploads), ids), stuck)
        && report == Swept(Restrict(old(uploads), ids))
    {
      PruneTombstones(completingTimeout, now);
      var idleCutoff, maxAgeCutoff := now - cfg.idleTtl, now - maxAge;
      var cutoff := if idleCutoff > maxAgeCutoff then idleCutoff else maxAgeCutoff;
      var completingCutoff := now - completingTimeout;
      var out := map[];
      var todo := uploads.Keys;
      ghost var before := View();
      ghost var ids := ExpiredIds(cfg, before, maxAge, completingTimeout, now);
      assert Restrict(before.uploads, ids - todo) == map[];
      assert before.uploads - (ids - todo) == before.uploads;
      while todo != {}
        invariant todo <= before.uploads.Keys && ids <= before.uploads.Keys
        invariant out == Restrict(before.uploads, ids - todo)
        invariant View() == Remove(before, ids - todo)
        decreases todo
      {
        hide Restrict;
        var id :| id in todo;
        TakeOneMore(before.uploads, ids, todo, id);
        var u := uploads[id];
        var expired := if u.phase == Completing then u.lastActivity <= completingCutoff && !u.storeInProgress
                       else u.lastActivity <= cutoff;
        if expired {
          out := out[id := u];
          uploads := uploads - {id};
        }
        todo := todo - {id};
      }
      assert ids - todo == ids;
      report := ReleaseBatch(out, stuck);
    }

    // ---------------------------------------------------- completion registry

    method BeginComplete(id: UploadId, bucket: string, key: string, req: PartList, channel: nat, now: int)
      returns (r: Result<BeginOutcome>)
      modifies this
      ensures (View(), r) == MultipartModel.BeginComplete(old(View()), id, bucket, key, req, channel, now)
    {
      if id !in slots {
        slots := slots[id := InFlight(req, channel, now)];
        return Ok(Owner);
      }
      match slots[id] {
        case Done(f, etag, b, k, _) =>
          r := if f == req && b == bucket && k == key then Ok(AlreadyDone(etag)) else Err(InvalidPart);
        case InFlight(f, c, _) =>
          r := if f == req then Ok(Join(c)) else Err(InvalidRequest);
      }
    }

    method PublishCompletion(id: UploadId, req: PartList, bucket: string, key: string, etag: Option<string>, now: int)
      modifies this
      ensures View() == Publish(old(View()), id, req, bucket, key, etag, now)
    {
      match etag {
        case Some(e) => slots := slots[id := Done(req, e, bucket, key, now)];
        case None => slots := slots - {id};
      }
    }

    method ClearSlot(id: UploadId)
      modifies this
      ensures View() == MultipartModel.ClearSlot(old(View()), id)
    {
      slots := slots - {id};
    }

    method PruneTombstones(completingTimeout: int, now: int)
      modifies this
      ensures View() == Prune(old(View()), completingTimeout, now)
    {
      var bound := Max(2 * completingTimeout, COMPLETION_TOMBSTONE_TTL);
      var todo := slots.Keys;
      ghost var before := View();
      while todo != {}
        invariant todo <= before.slots.Keys
        invariant View() == before.(slots := slots)
        invariant forall id :: id in slots <==>
          id in before.slots && (id in todo || SlotKept(before.slots[id], completingTimeout, now))
        invariant forall id :: id in slots ==> slots[id] == before.slots[id]
        decreases todo
      {
        var id :| id in todo;
        var kept := match slots[id]
          case Done(_, _, _, _, at) => now - at < COMPLETION_TOMBSTONE_TTL
          case InFlight(_, _, started) => now - started < bound;
        if !kept {
          slots := slots - {id};
        }
        todo := todo - {id};
      }
      assert slots == Prune(before, completingTimeout, now).slots;
    }

    // --------------------------------------------------------- orphan sweeping

    /** `remove_dir_all` on one relay directory. */
    method DeleteDir(dir: UploadId)
      modifies this
      ensures View() == RemoveDir(old(View()), dir)
    {
      files := map p: Path | p in files && p.dir != dir :: files[p];
      dirs := dirs - {dir};
    }

    /** sweep_orphan_relay_artifacts on this process's own relay root: a snapshot
        of the active directories, then a scan of the entries. */
    method SweepOrphans(minAge: nat, now: int, stuck: set<UploadId>) returns (removed: nat)
      modifies this
      ensures var gone := Orphans(old(dirs), ActiveDirs(old(View())), minAge, now) - stuck;
        removed == |gone| && View() == WithoutDirs(old(View()), gone)
    {
      hide RemoveDir;
      removed := 0;
      var active := set id | id in uploads && uploads[id].relay.Relayed?;
      var todo := dirs.Keys;
      ghost var before := View();
      ghost var gone := Orphans(dirs, active, minAge, now) - stuck;
      assert gone - todo == {};
      assert FilesOutside(files, {}) == files;
      while todo != {}
        invariant todo <= before.dirs.Keys
        invariant removed == |gone - todo|
        invariant View() == WithoutDirs(before, gone - todo)
        decreases todo
      {
        hide FilesOutside;
        var dir :| dir in todo;
        SweepOneMore(before, gone, todo, dir);
        todo := todo - {dir};
        if minAge != 0 && now - dirs[dir] < minAge {
          continue;
        }
        if dir in active {
          continue;
        }
        if dir !in stuck {
          DeleteDir(dir);
          removed := removed + 1;
        }
      }
      assert gone - todo == gone;
    }
  }
}
