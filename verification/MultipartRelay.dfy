/** Relay promotion is invisible to a completion, and no sweeper takes relay
    files away from a store that is reading them. */
module MultipartRelay {
  import opened Common
  import opened MultipartModel
  import opened MultipartSystem
  import opened MultipartProtocol

  // ------------------------------------------------------------ uploaded bytes

  /** A part stands for the bytes last accepted under its number. */
  ghost predicate PartOk(cfg: Config, id: UploadId, n: nat, p: Part, bytes: Bytes) {
    && p.size == |bytes|
    && p.md5 == cfg.md5(bytes)
    && match p.payload
       case InMemory(data) => data == bytes
       case RelayedFile(path) => path == Path(id, n)
  }

  /** The part table of an upload matches the accepted bytes, and an upload that
      was promoted has no part left in memory. */
  ghost predicate UploadOk(cfg: Config, id: UploadId, u: Upload, bytes: map<nat, Bytes>) {
    && u.parts.Keys == bytes.Keys
    && (forall n :: n in u.parts ==> PartOk(cfg, id, n, u.parts[n], bytes[n]))
    && (u.relay.Relayed? ==> forall n :: n in u.parts ==> u.parts[n].payload.RelayedFile?)
  }

  /** Every part on disk has its file, with the accepted bytes. That includes the
      parts a promotion wrote before it stopped half-way. */
  ghost predicate DiskOk(id: UploadId, u: Upload, bytes: map<nat, Bytes>, files: map<Path, Bytes>) {
    && u.parts.Keys == bytes.Keys
    && forall n :: n in u.parts && u.parts[n].payload.RelayedFile? ==>
         Path(id, n) in files && files[Path(id, n)] == bytes[n]
  }

  lemma PromoteKeepsParts(cfg: Config, s: Store, id: UploadId, which: set<nat>, complete: bool, now: int, bytes: map<nat, Bytes>)
    requires id in s.uploads && UploadOk(cfg, id, s.uploads[id], bytes)
    requires complete ==> s.uploads[id].parts.Keys <= which
    ensures UploadOk(cfg, id, Promote(s, id, which, complete, now).uploads[id], bytes)
  {
  }

  lemma AcceptKeepsParts(cfg: Config, s: Store, id: UploadId, n: nat, data: Bytes, now: int, bytes: map<nat, Bytes>)
    requires id in s.uploads && UploadOk(cfg, id, s.uploads[id], bytes)
    ensures UploadOk(cfg, id, AcceptPart(cfg, s, id, n, data, now).uploads[id], WithPart(bytes, n, data))
  {
  }

  /** Whatever the disk does, UploadPart keeps the part table in step with the
      bytes it accepted. */
  lemma PutPartKeepsParts(cfg: Config, s: Store, id: UploadId, bucket: string, key: string, n: nat, data: Bytes,
                          counter: nat, disk: Disk, now: int, bytes: map<nat, Bytes>)
    requires id in s.uploads && UploadOk(cfg, id, s.uploads[id], bytes)
    ensures var r := UploadPart(cfg, s, id, bucket, key, n, data, counter, disk, now);
            id in r.0.uploads && UploadOk(cfg, id, r.0.uploads[id], if r.1.Ok? then WithPart(bytes, n, data) else bytes)
  {
    hide UploadOk, AcceptPart, Promote, QuotedHex, CumulativeAfter;
    if UploadRefusal(cfg, s, id, bucket, key, n, |data|, counter).None? {
      var u := s.uploads[id];
      PutPartStages(cfg, s, id, n, data, disk, now, bytes);
    }
  }

  lemma PutPartStages(cfg: Config, s: Store, id: UploadId, n: nat, data: Bytes, disk: Disk, now: int, bytes: map<nat, Bytes>)
    requires id in s.uploads && UploadOk(cfg, id, s.uploads[id], bytes)
    ensures var full := Promote(s, id, s.uploads[id].parts.Keys, true, now);
            var partial := Promote(s, id, disk.written, false, now);
            && id in full.uploads && id in partial.uploads
            && UploadOk(cfg, id, partial.uploads[id], bytes)
            && UploadOk(cfg, id, full.uploads[id], bytes)
            && full.uploads[id].relay.Relayed?
            && id in AcceptPart(cfg, s, id, n, data, now).uploads
            && id in AcceptPart(cfg, full, id, n, data, now).uploads
            && UploadOk(cfg, id, AcceptPart(cfg, s, id, n, data, now).uploads[id], WithPart(bytes, n, data))
            && UploadOk(cfg, id, AcceptPart(cfg, full, id, n, data, now).uploads[id], WithPart(bytes, n, data))
  {
    hide UploadOk;
    var full := Promote(s, id, s.uploads[id].parts.Keys, true, now);
    PromoteKeepsParts(cfg, s, id, disk.written, false, now, bytes);
    PromoteKeepsParts(cfg, s, id, s.uploads[id].parts.Keys, true, now, bytes);
    AcceptKeepsParts(cfg, s, id, n, data, now, bytes);
    AcceptKeepsParts(cfg, full, id, n, data, now, bytes);
  }

  ghost predicate PartsSys(cfg: Config, s: Sys) {
    && s.st.uploads.Keys <= s.h.content.Keys
    && forall id :: id in s.st.uploads ==> UploadOk(cfg, id, s.st.uploads[id], s.h.content[id])
  }

  lemma PartsPutPart(cfg: Config, s: Sys, id: UploadId, bucket: string, key: string, n: nat, data: Bytes, lag: nat, disk: Disk)
    requires PartsSys(cfg, s)
    ensures PartsSys(cfg, DoPutPart(cfg, s, id, bucket, key, n, data, lag, disk))
  {
    hide UploadPart, UploadOk;
    PutPartEffect(cfg, s.st, id, bucket, key, n, data, s.st.inFlightBytes + lag, disk, s.now);
    if id in s.st.uploads {
      PutPartKeepsParts(cfg, s.st, id, bucket, key, n, data, s.st.inFlightBytes + lag, disk, s.now, s.h.content[id]);
    } else {
      NoUploadNoPart(cfg, s.st, id, bucket, key, n, data, s.st.inFlightBytes + lag, disk, s.now);
    }
  }

  lemma NoUploadNoPart(cfg: Config, s: Store, id: UploadId, bucket: string, key: string, n: nat, data: Bytes,
                       counter: nat, disk: Disk, now: int)
    requires id !in s.uploads
    ensures var r := UploadPart(cfg, s, id, bucket, key, n, data, counter, disk, now); r.0 == s && r.1.Err?
  {
  }

  lemma PartsCreate(cfg: Config, s: Sys, id: UploadId, bucket: string, key: string, threshold: Option<nat>, always: bool)
    requires PartsSys(cfg, s)
    ensures PartsSys(cfg, DoCreate(cfg, s, id, bucket, key, threshold, always))
  {
  }

  lemma PartsClient(cfg: Config, s: Sys, a: ClientStep)
    requires PartsSys(cfg, s) && ClientEnabled(s, a)
    ensures PartsSys(cfg, DoClient(cfg, s, a))
  {
    hide DoPutPart, DoCreate, UploadOk, AbortRefusal, PurgeRefused, InBucket, Restrict;
    match a {
      case PutPart(id, bucket, key, n, data, lag, disk) => PartsPutPart(cfg, s, id, bucket, key, n, data, lag, disk);
      case CreateUpload(id, bucket, key, threshold, always) => PartsCreate(cfg, s, id, bucket, key, threshold, always);
      case _ =>
    }
  }

  lemma PartsSweep(cfg: Config, s: Sys, a: SweepStep)
    requires PartsSys(cfg, s) && SweepEnabled(s, a)
    ensures PartsSys(cfg, DoSweep(cfg, s, a))
  {
  }

  lemma PartsTask(cfg: Config, s: Sys, c: nat, a: TaskStep)
    requires PartsSys(cfg, s) && TaskEnabled(s, c, a)
    ensures PartsSys(cfg, DoTask(cfg, s, c, a))
  {
    hide UploadOk, DoTask;
    var s' := DoTask(cfg, s, c, a);
    if a.Settle? {
      SettleFrame(cfg, s, c, a);
    } else {
      TaskFrame(cfg, s, c, a);
    }
    forall id | id in s'.st.uploads
      ensures id in s'.h.content && UploadOk(cfg, id, s'.st.uploads[id], s'.h.content[id])
    {
      TaskKeeps(cfg, s, c, a, id);
      SamePartsOk(cfg, id, s.st.uploads[id], s'.st.uploads[id], s.h.content[id]);
    }
  }

  lemma SettleFrame(cfg: Config, s: Sys, c: nat, a: TaskStep)
    requires TaskEnabled(s, c, a) && a.Settle?
    ensures var s' := DoTask(cfg, s, c, a);
            s'.h.content == s.h.content && s'.st.uploads.Keys <= s.st.uploads.Keys
  {
    hide Finish;
  }

  lemma SamePartsOk(cfg: Config, id: UploadId, u: Upload, v: Upload, bytes: map<nat, Bytes>)
    requires UploadOk(cfg, id, u, bytes) && v.parts == u.parts && v.relay == u.relay
    ensures UploadOk(cfg, id, v, bytes)
  {
  }

  /** Nothing but the upload flags, the registry, the tasks and their history differ. */
  ghost predicate SameGround(s: Sys, s': Sys) {
    && s'.h.content == s.h.content && s'.h.used == s.h.used && s'.scans == s.scans
    && s'.removed == s.removed && s'.now == s.now
    && s'.st.files == s.st.files && s'.st.dirs == s.st.dirs
    && s'.st.uploads.Keys == s.st.uploads.Keys
  }

  lemma PublishFrame(st: Store, t: Task, now: int)
    ensures t.stage.Publishing? ==>
      var st' := Publish(st, t.id, t.req, t.bucket, t.key, t.stage.outcome, now); st' == st.(slots := st'.slots)
  {
  }

  /** Tasks add no upload, accept no bytes, start no scan; and only finishing an
      upload touches the disk. */
  lemma TaskFrame(cfg: Config, s: Sys, c: nat, a: TaskStep)
    requires TaskEnabled(s, c, a) && !a.Settle?
    ensures SameGround(s, DoTask(cfg, s, c, a))
  {
    hide DoValidate, DoSettle, DoStoreReturns, DoDropGuard, DoPublish, DoCrash, DoSend, SetStoring, ClearSlot;
    match a {
      case Validate(passthrough) => ValidateEffect(cfg, s, c, passthrough);
      case TakeGuard => StoringFrame(s.st, s.tasks[c].id, true);
      case StoreReturns(ok) => ReturnFrame(s, c, ok);
      case DropGuard => DropFrame(s, c);
      case PublishSlot => PublishStepFrame(s, c);
      case Crash => CrashFrame(s, c);
      case ClearOwnSlot => ClearFrame(s.st, s.tasks[c].id);
      case Send => SendFrame(s, c);
    }
  }

  lemma StoringFrame(st: Store, id: UploadId, flag: bool)
    ensures var r := SetStoring(st, id, flag);
            r.files == st.files && r.dirs == st.dirs && r.uploads.Keys == st.uploads.Keys
  {
  }

  lemma ClearFrame(st: Store, id: UploadId)
    ensures var r := ClearSlot(st, id); r.files == st.files && r.dirs == st.dirs && r.uploads == st.uploads
  {
  }

  lemma ReturnFrame(s: Sys, c: nat, ok: bool)
    requires TaskEnabled(s, c, StoreReturns(ok))
    ensures SameGround(s, DoStoreReturns(s, c, ok))
  {
  }

  lemma DropFrame(s: Sys, c: nat)
    requires TaskEnabled(s, c, DropGuard)
    ensures SameGround(s, DoDropGuard(s, c))
  {
  }

  lemma PublishStepFrame(s: Sys, c: nat)
    requires TaskEnabled(s, c, PublishSlot)
    ensures SameGround(s, DoPublish(s, c))
  {
    hide Publish;
    PublishFrame(s.st, s.tasks[c], s.now);
  }

  lemma CrashFrame(s: Sys, c: nat)
    requires TaskEnabled(s, c, Crash)
    ensures SameGround(s, DoCrash(s, c))
  {
  }

  lemma SendFrame(s: Sys, c: nat)
    requires TaskEnabled(s, c, Send)
    ensures SameGround(s, DoSend(s, c))
  {
  }

  // --------------------------------------------------------------- relay files

  /** Files outside the directory of `id` are the same. */
  ghost predicate OnlyDir(files: map<Path, Bytes>, files': map<Path, Bytes>, id: UploadId) {
    forall p: Path :: p.dir != id ==> (p in files <==> p in files') && (p in files ==> files'[p] == files[p])
  }

  /** Directory times outside `id` are the same; that of `id` may be renewed. */
  ghost predicate OnlyTime(dirs: map<UploadId, int>, dirs': map<UploadId, int>, id: UploadId, now: int) {
    dirs' == dirs || dirs' == dirs[id := now]
  }

  lemma PromoteOnDisk(s: Store, id: UploadId, which: set<nat>, complete: bool, now: int, bytes: map<nat, Bytes>, cfg: Config)
    requires id in s.uploads
    requires UploadOk(cfg, id, s.uploads[id], bytes) && DiskOk(id, s.uploads[id], bytes, s.files)
    ensures var r := Promote(s, id, which, complete, now);
            id in r.uploads && DiskOk(id, r.uploads[id], bytes, r.files)
  {
  }

  lemma AcceptOnDisk(cfg: Config, s: Store, id: UploadId, n: nat, data: Bytes, now: int, bytes: map<nat, Bytes>)
    requires id in s.uploads && DiskOk(id, s.uploads[id], bytes, s.files)
    ensures var r := AcceptPart(cfg, s, id, n, data, now);
            id in r.uploads && DiskOk(id, r.uploads[id], WithPart(bytes, n, data), r.files)
  {
  }

  /** UploadPart touches no other directory, and renews its own when it changes the
      strategy. */
  lemma PutPartTouches(cfg: Config, s: Store, id: UploadId, bucket: string, key: string, n: nat, data: Bytes,
                       counter: nat, disk: Disk, now: int)
    requires id in s.uploads
    ensures var r := UploadPart(cfg, s, id, bucket, key, n, data, counter, disk, now).0;
            && id in r.uploads && OnlyDir(s.files, r.files, id) && OnlyTime(s.dirs, r.dirs, id, now)
            && (r.uploads[id].relay == s.uploads[id].relay || r.dirs == s.dirs[id := now])
  {
    hide CumulativeAfter, Promote, AcceptPart, QuotedHex, OnlyDir;
    var s1 := Promote(s, id, s.uploads[id].parts.Keys, true, now);
    PromoteTouches(s, id, disk.written, false, now);
    PromoteTouches(s, id, s.uploads[id].parts.Keys, true, now);
    AcceptTouches(cfg, s, id, n, data, now);
    AcceptTouches(cfg, s1, id, n, data, now);
    OnlyDirTwice(s.files, s1.files, AcceptPart(cfg, s1, id, n, data, now).files, id);
    OnlyDirTwice(s.files, s.files, s.files, id);
  }

  lemma PromoteTouches(s: Store, id: UploadId, which: set<nat>, complete: bool, now: int)
    requires id in s.uploads
    ensures var r := Promote(s, id, which, complete, now);
            && id in r.uploads && OnlyDir(s.files, r.files, id) && r.dirs == s.dirs[id := now]
            && (!complete ==> r.uploads[id].relay == s.uploads[id].relay)
  {
  }

  lemma AcceptTouches(cfg: Config, s: Store, id: UploadId, n: nat, data: Bytes, now: int)
    requires id in s.uploads
    ensures var r := AcceptPart(cfg, s, id, n, data, now);
            && id in r.uploads && OnlyDir(s.files, r.files, id) && OnlyTime(s.dirs, r.dirs, id, now)
            && r.uploads[id].relay == s.uploads[id].relay
  {
  }

  lemma OnlyDirTwice(a: map<Path, Bytes>, b: map<Path, Bytes>, c: map<Path, Bytes>, id: UploadId)
    ensures OnlyDir(a, b, id) && OnlyDir(b, c, id) ==> OnlyDir(a, c, id)
    ensures OnlyDir(a, a, id)
  {
  }

  /** Whatever the disk does, UploadPart keeps the relay files of its upload in
      step with the accepted bytes. */
  lemma PutPartOnDisk(cfg: Config, s: Store, id: UploadId, bucket: string, key: string, n: nat, data: Bytes,
                      counter: nat, disk: Disk, now: int, bytes: map<nat, Bytes>)
    requires id in s.uploads
    requires UploadOk(cfg, id, s.uploads[id], bytes) && DiskOk(id, s.uploads[id], bytes, s.files)
    ensures var r := UploadPart(cfg, s, id, bucket, key, n, data, counter, disk, now);
            id in r.0.uploads && DiskOk(id, r.0.uploads[id], if r.1.Ok? then WithPart(bytes, n, data) else bytes, r.0.files)
  {
    hide UploadOk, DiskOk, AcceptPart, QuotedHex, CumulativeAfter, MoveToRelay, WrittenFiles;
    if UploadRefusal(cfg, s, id, bucket, key, n, |data|, counter).None? {
      var u := s.uploads[id];
      if !Promotes(u, CumulativeAfter(u, n, |data|)) {
        AcceptOnDisk(cfg, s, id, n, data, now, bytes);
      } else if !disk.promotes {
        PromoteOnDisk(s, id, disk.written, false, now, bytes, cfg);
      } else {
        PromoteOnDisk(s, id, u.parts.Keys, true, now, bytes, cfg);
        AcceptOnDisk(cfg, Promote(s, id, u.parts.Keys, true, now), id, n, data, now, bytes);
      }
    }
  }

  /** Nothing outside `id` changed on disk, so no other upload notices. */
  lemma OthersOnDisk(id: UploadId, u: Upload, bytes: map<nat, Bytes>, files: map<Path, Bytes>, files': map<Path, Bytes>, other: UploadId)
    requires DiskOk(id, u, bytes, files) && id != other && OnlyDir(files, files', other)
    ensures DiskOk(id, u, bytes, files')
  {
  }

  // ----------------------------------------------------------- orphan sweeping

  /** Whatever upload was promoted after the snapshot has a directory written
      since; and the directory of `x` is not condemned while `x` is tracked. */
  ghost predicate ScanOk(scan: Scan, uploads: map<UploadId, Upload>, dirs: map<UploadId, int>, used: set<UploadId>, now: int, x: UploadId) {
    && scan.at <= now
    && (forall id :: id in uploads && uploads[id].relay.Relayed? && id in dirs && id !in scan.active ==> dirs[id] >= scan.at)
    && scan.condemned <= used
    && (x in scan.condemned ==> x !in uploads)
  }

  ghost predicate ScansOk(scans: map<nat, Scan>, uploads: map<UploadId, Upload>, dirs: map<UploadId, int>, used: set<UploadId>, now: int,
                          x: UploadId)
  {
    forall k :: k in scans ==> ScanOk(scans[k], uploads, dirs, used, now, x)
  }

  ghost predicate FilesOk(s: Sys, x: UploadId) {
    x in s.st.uploads ==> x in s.h.content && DiskOk(x, s.st.uploads[x], s.h.content[x], s.st.files)
  }

  ghost predicate NamesOk(s: Sys) {
    && s.st.uploads.Keys <= s.h.used && s.removed.Keys <= s.h.used && s.st.dirs.Keys <= s.h.used
    && s.st.uploads.Keys !! s.removed.Keys
  }

  /** The disk side of upload `x` is in order. */
  ghost predicate DiskSys(s: Sys, x: UploadId) {
    FilesOk(s, x) && NamesOk(s) && ScansOk(s.scans, s.st.uploads, s.st.dirs, s.h.used, s.now, x)
  }

  /** The premise for upload `x`: when an orphan scan decides to delete its
      directory while it is tracked, it is relayed and the scan is within its
      minimum age from its snapshot. So it rules out a scan that comes upon what a
      promotion of `x` left half-way, and a late scan if `x` was made since. */
  ghost predicate Clean(s: Sys, a: Action, x: UploadId) {
    match a
    case Sweep(step) =>
      step.ScanExamine? && step.k in s.scans && step.dir == x && x in s.st.uploads ==>
        s.st.uploads[x].relay.Relayed? && s.now < s.scans[step.k].at + s.scans[step.k].minAge
    case _ => true
  }

  /** Under the premise the directory of a tracked upload is not condemned. */
  lemma OrphansAreUntracked(scan: Scan, uploads: map<UploadId, Upload>, dirs: map<UploadId, int>, used: set<UploadId>, now: int, x: UploadId)
    requires ScanOk(scan, uploads, dirs, used, now, x) && Orphan(dirs, x, scan.active, scan.minAge, now)
    requires x in uploads ==> uploads[x].relay.Relayed? && now < scan.at + scan.minAge
    ensures x !in uploads
  {
  }

  /** One upload may change if it stays what it was to the sweepers, or has just
      been written to. */
  lemma ScansOneUpload(scans: map<nat, Scan>, uploads: map<UploadId, Upload>, dirs: map<UploadId, int>, used: set<UploadId>, now: int,
                       id: UploadId, u: Upload, dirs': map<UploadId, int>, used': set<UploadId>, x: UploadId)
    requires ScansOk(scans, uploads, dirs, used, now, x) && used <= used'
    requires id in uploads || id !in used
    requires OnlyTime(dirs, dirs', id, now)
    requires (id in uploads && u.relay == uploads[id].relay) || id !in dirs || dirs' == dirs[id := now]
    requires id in uploads || dirs' == dirs
    ensures ScansOk(scans, uploads[id := u], dirs', used', now, x)
  {
  }

  lemma ScansFewer(scans: map<nat, Scan>, uploads: map<UploadId, Upload>, dirs: map<UploadId, int>, used: set<UploadId>, now: int,
                   uploads': map<UploadId, Upload>, dirs': map<UploadId, int>, x: UploadId)
    requires ScansOk(scans, uploads, dirs, used, now, x)
    requires forall id :: id in uploads' ==> id in uploads && uploads'[id].relay == uploads[id].relay
    requires forall d :: d in dirs' ==> d in dirs && dirs'[d] == dirs[d]
    ensures ScansOk(scans, uploads', dirs', used, now, x)
  {
  }

  // ---------------------------------------------------------------- disk steps

  lemma DiskPutPart(cfg: Config, s: Sys, id: UploadId, bucket: string, key: string, n: nat, data: Bytes, lag: nat, disk: Disk, x: UploadId)
    requires DiskSys(s, x) && PartsSys(cfg, s)
    ensures DiskSys(DoPutPart(cfg, s, id, bucket, key, n, data, lag, disk), x)
  {
    hide DiskSys, UploadPart;
    var counter := s.st.inFlightBytes + lag;
    if id !in s.st.uploads {
      NoUploadNoPart(cfg, s.st, id, bucket, key, n, data, counter, disk, s.now);
    } else {
      var r := UploadPart(cfg, s.st, id, bucket, key, n, data, counter, disk, s.now);
      PutPartTouches(cfg, s.st, id, bucket, key, n, data, counter, disk, s.now);
      PutPartOnly(cfg, s.st, id, bucket, key, n, data, counter, disk, s.now);
      var content := if r.1.Ok? then s.h.content[id := WithPart(s.h.content[id], n, data)] else s.h.content;
      if id == x {
        assert DiskOk(id, s.st.uploads[id], s.h.content[id], s.st.files) by { FilesOf(s, x); }
        PutPartOnDisk(cfg, s.st, id, bucket, key, n, data, counter, disk, s.now, s.h.content[id]);
      }
      DiskOneUpload(s, s.(st := r.0, h := s.h.(content := content)), id, x);
    }
  }

  lemma FilesOf(s: Sys, x: UploadId)
    requires DiskSys(s, x) && x in s.st.uploads
    ensures x in s.h.content && DiskOk(x, s.st.uploads[x], s.h.content[x], s.st.files)
  {
  }

  lemma PutPartOnly(cfg: Config, s: Store, id: UploadId, bucket: string, key: string, n: nat, data: Bytes,
                    counter: nat, disk: Disk, now: int)
    requires id in s.uploads
    ensures var r := UploadPart(cfg, s, id, bucket, key, n, data, counter, disk, now).0;
            id in r.uploads && r.uploads == s.uploads[id := r.uploads[id]]
  {
    hide UploadPart;
    PutPartEffect(cfg, s, id, bucket, key, n, data, counter, disk, now);
  }

  /** One upload changed, together with its own directory. */
  lemma DiskOneUpload(s: Sys, s': Sys, id: UploadId, x: UploadId)
    requires DiskSys(s, x) && id in s.st.uploads && id in s'.st.uploads && id in s'.h.content
    requires s'.st.uploads == s.st.uploads[id := s'.st.uploads[id]]
    requires s'.h.content == s.h.content[id := s'.h.content[id]]
    requires s'.removed == s.removed && s'.scans == s.scans && s'.now == s.now && s'.h.used == s.h.used
    requires id == x ==> DiskOk(id, s'.st.uploads[id], s'.h.content[id], s'.st.files)
    requires OnlyDir(s.st.files, s'.st.files, id) && OnlyTime(s.st.dirs, s'.st.dirs, id, s.now)
    requires s'.st.uploads[id].relay == s.st.uploads[id].relay || s'.st.dirs == s.st.dirs[id := s.now]
    ensures DiskSys(s', x)
  {
    hide DiskOk, ScansOk, OnlyDir;
    ScansOneUpload(s.scans, s.st.uploads, s.st.dirs, s.h.used, s.now, id, s'.st.uploads[id], s'.st.dirs, s.h.used, x);
    if x in s.st.uploads && x != id {
      OthersOnDisk(x, s.st.uploads[x], s.h.content[x], s.st.files, s'.st.files, id);
    }
  }

  lemma DiskCreate(cfg: Config, s: Sys, id: UploadId, bucket: string, key: string, threshold: Option<nat>, always: bool, x: UploadId)
    requires DiskSys(s, x) && id !in s.h.used
    ensures DiskSys(DoCreate(cfg, s, id, bucket, key, threshold, always), x)
  {
    hide DiskSys;
    var u := Upload(bucket, key, s.now, map[], Open, if always then Relayed else Buffered(threshold), false);
    DiskNewUpload(s, id, u, x);
  }

  lemma DiskNewUpload(s: Sys, id: UploadId, u: Upload, x: UploadId)
    requires DiskSys(s, x) && id !in s.h.used && u.parts == map[]
    ensures DiskSys(s.(st := s.st.(uploads := s.st.uploads[id := u]),
                       h := s.h.(used := s.h.used + {id}, content := s.h.content[id := map[]])), x)
  {
  }

  lemma DiskTakeOut(s: Sys, ids: set<UploadId>, x: UploadId)
    requires DiskSys(s, x)
    ensures DiskSys(TakeOut(s, ids), x)
  {
    hide ScansOk, DiskOk;
    ScansFewer(s.scans, s.st.uploads, s.st.dirs, s.h.used, s.now, s.st.uploads - ids, s.st.dirs, x);
    HandedOver(s.st.uploads, s.removed, ids);
  }

  lemma DiskClient(cfg: Config, s: Sys, a: ClientStep, x: UploadId)
    requires DiskSys(s, x) && PartsSys(cfg, s) && ClientEnabled(s, a)
    ensures DiskSys(DoClient(cfg, s, a), x)
  {
    hide DoPutPart, DoCreate, DoBegin, TakeOut, PartsSys, DiskSys;
    match a {
      case CreateUpload(id, bucket, key, threshold, always) => DiskCreate(cfg, s, id, bucket, key, threshold, always, x);
      case PutPart(id, bucket, key, n, data, lag, disk) => DiskPutPart(cfg, s, id, bucket, key, n, data, lag, disk, x);
      case AbortUpload(id, _, _) => DiskTakeOut(s, {id}, x);
      case PurgeBucket(bucket) => DiskTakeOut(s, InBucket(s.st, bucket), x);
      case Begin(id, bucket, key, req) => DiskBegin(s, id, bucket, key, req, x);
      case JoinReturns(_) => DiskSameParts(s, DoClient(cfg, s, a), x);
    }
  }

  lemma DiskBegin(s: Sys, id: UploadId, bucket: string, key: string, req: PartList, x: UploadId)
    requires DiskSys(s, x)
    ensures DiskSys(DoBegin(s, id, bucket, key, req), x)
  {
    hide DiskSys, DoBegin;
    DiskSameParts(s, DoBegin(s, id, bucket, key, req), x);
  }

  /** Deleting the directory of another or an untracked upload. */
  lemma DiskRemoveDir(s: Sys, id: UploadId, x: UploadId)
    requires DiskSys(s, x) && (id == x ==> id !in s.st.uploads)
    ensures DiskSys(s.(st := RemoveDir(s.st, id)), x)
  {
    hide ScansOk, DiskOk;
    var st' := RemoveDir(s.st, id);
    ScansFewer(s.scans, s.st.uploads, s.st.dirs, s.h.used, s.now, s.st.uploads, st'.dirs, x);
    if x in s.st.uploads {
      OthersOnDisk(x, s.st.uploads[x], s.h.content[x], s.st.files, st'.files, id);
    }
  }

  lemma DiskRelease(s: Sys, id: UploadId, dirGone: bool, x: UploadId)
    requires DiskSys(s, x) && id in s.removed
    ensures DiskSys(s.(st := Release(s.st, id, s.removed[id], dirGone), removed := s.removed - {id}), x)
  {
    hide ScansOk, DiskOk, RemoveDir, Wrap, BytesOf;
    DiskRemoveDir(s, id, x);
    RemoveDirIgnoresCounter(s.st, id, Wrap(s.st.inFlightBytes - BytesOf(s.removed[id])));
  }

  lemma RemoveDirIgnoresCounter(st: Store, id: UploadId, counter: nat)
    ensures RemoveDir(st.(inFlightBytes := counter), id) == RemoveDir(st, id).(inFlightBytes := counter)
    ensures RemoveDir(st, id).uploads == st.uploads
  {
  }

  lemma DiskScanStart(s: Sys, k: nat, minAge: nat, x: UploadId)
    requires DiskSys(s, x)
    ensures DiskSys(s.(scans := s.scans[k := Scan(ActiveDirs(s.st), s.now, minAge, {})]), x)
  {
  }

  lemma DiskScanExamine(s: Sys, k: nat, dir: UploadId, x: UploadId)
    requires DiskSys(s, x) && k in s.scans && Clean(s, Sweep(ScanExamine(k, dir)), x)
    requires Orphan(s.st.dirs, dir, s.scans[k].active, s.scans[k].minAge, s.now)
    ensures DiskSys(s.(scans := s.scans[k := s.scans[k].(condemned := s.scans[k].condemned + {dir})]), x)
  {
  }

  lemma DiskSweep(cfg: Config, s: Sys, a: SweepStep, x: UploadId)
    requires DiskSys(s, x) && SweepEnabled(s, a) && Clean(s, Sweep(a), x)
    ensures DiskSys(DoSweep(cfg, s, a), x)
  {
    hide TakeOut, DiskOk, Release, RemoveDir, ScansOk;
    match a {
      case SweepExpired(maxAge, timeout) => DiskTakeOut(s, ExpiredIds(cfg, s.st, maxAge, timeout, s.now), x);
      case PruneSlots(_) =>
      case ReleaseRemoved(id, dirGone) => DiskRelease(s, id, dirGone, x);
      case ScanStart(k, minAge) => DiskScanStart(s, k, minAge, x);
      case ScanExamine(k, dir) => DiskScanExamine(s, k, dir, x);
      case ScanDelete(k, dir) =>
        CondemnedIsUntracked(s, k, x);
        DiskRemoveDir(s, dir, x);
    }
  }

  lemma CondemnedIsUntracked(s: Sys, k: nat, x: UploadId)
    requires DiskSys(s, x) && k in s.scans
    ensures x in s.scans[k].condemned ==> x !in s.st.uploads
  {
  }

  lemma DiskSettle(s: Sys, c: nat, dirGone: bool, x: UploadId)
    requires DiskSys(s, x) && c in s.tasks && s.tasks[c].stage.Stored?
    ensures DiskSys(DoSettle(s, c, dirGone), x)
  {
    hide ScansOk, DiskOk, Wrap, BytesOf, RemoveDir;
    var id := s.tasks[c].id;
    var s' := DoSettle(s, c, dirGone);
    if s.tasks[c].stage.ok && id in s.st.uploads {
      DiskTakeOut(s, {id}, x);
      DiskRelease(TakeOut(s, {id}), id, dirGone, x);
      var s1 := TakeOut(s, {id});
      assert s1.removed[id] == s.st.uploads[id];
      assert s'.st == Release(s1.st, id, s1.removed[id], dirGone);
    } else {
      if s.tasks[c].stage.ok {
        assert s.st.uploads - {id} == s.st.uploads;
      }
      DiskSameParts(s, s', x);
    }
  }

  /** The disk side does not see the flags of an upload. */
  lemma DiskSameParts(s: Sys, s': Sys, x: UploadId)
    requires DiskSys(s, x) && SameGround(s, s')
    requires forall id :: id in s.st.uploads ==>
               s'.st.uploads[id].parts == s.st.uploads[id].parts && s'.st.uploads[id].relay == s.st.uploads[id].relay
    ensures DiskSys(s', x)
  {
  }

  lemma DiskTask(cfg: Config, s: Sys, c: nat, a: TaskStep, x: UploadId)
    requires DiskSys(s, x) && TaskEnabled(s, c, a)
    ensures DiskSys(DoTask(cfg, s, c, a), x)
  {
    hide DiskSys, DoSettle;
    if a.Settle? {
      DiskSettle(s, c, a.dirGone, x);
    } else {
      hide DoTask;
      var s' := DoTask(cfg, s, c, a);
      TaskFrame(cfg, s, c, a);
      forall id | id in s.st.uploads
        ensures s'.st.uploads[id].parts == s.st.uploads[id].parts && s'.st.uploads[id].relay == s.st.uploads[id].relay
      {
        TaskKeeps(cfg, s, c, a, id);
      }
      DiskSameParts(s, s', x);
    }
  }
}
