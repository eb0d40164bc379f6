/** The multipart upload store on values: what each lock-held section of the
    store does to the upload table, the completion registry, the byte counter
    and the relay files (src/multipart.rs). */
module MultipartModel {
  import opened Common

  newtype byte = x: int | 0 <= x < 256
  type Bytes = seq<byte>
  type UploadId = string

  /** The part list of a Complete request: (part number, ETag) pairs. */
  type PartList = seq<(nat, string)>

  datatype S3Error =
    | NoSuchUpload | InvalidArgument | InvalidRequest | InvalidPart | InvalidPartOrder
    | EntityTooLarge | SlowDown | InternalError

  datatype Result<+T> = Ok(value: T) | Err(error: S3Error)

  /** Limits of the store, and the digest functions, which stay uninterpreted. */
  datatype Config = Config(
    maxObjectSize: nat,
    maxUploads: nat,
    maxTotalBytes: nat,
    idleTtl: int,
    md5: Bytes -> Bytes,
    hex: Bytes -> string)

  /** A relay file: the directory of an upload and a part number. */
  datatype Path = Path(dir: UploadId, part: nat)

  datatype Payload = InMemory(data: Bytes) | RelayedFile(path: Path)

  datatype Part = Part(payload: Payload, md5: Bytes, size: nat)

  datatype Phase = Open | Completing

  datatype Relay = Buffered(threshold: Option<nat>) | Relayed

  datatype Upload = Upload(
    bucket: string,
    key: string,
    lastActivity: int,
    parts: map<nat, Part>,
    phase: Phase,
    relay: Relay,
    storeInProgress: bool)

  /** A registry slot. The fingerprint is the part list itself. */
  datatype Slot =
    | InFlight(fingerprint: PartList, channel: nat, startedAt: int)
    | Done(fingerprint: PartList, etag: string, bucket: string, key: string, at: int)

  /** Everything the store owns, plus the relay directory on disk: file
      contents, and the modification time of each upload's directory. */
  datatype Store = Store(
    uploads: map<UploadId, Upload>,
    slots: map<UploadId, Slot>,
    inFlightBytes: nat,
    files: map<Path, Bytes>,
    dirs: map<UploadId, int>)

  const COMPLETION_TOMBSTONE_TTL: int := 900

  // ------------------------------------------------------------- byte counts

  function SizeOf(p: Part): nat {
    p.size
  }

  /** The sum of all part sizes of an upload. */
  ghost function BytesOf(u: Upload): nat {
    Sum(u.parts, SizeOf)
  }

  /** The part bytes of a whole table of uploads. */
  ghost function TotalBytes(uploads: map<UploadId, Upload>): nat {
    Sum(uploads, BytesOf)
  }

  function OldSize(u: Upload, n: nat): nat {
    if n in u.parts then u.parts[n].size else 0
  }

  predicate Owned(s: Store, id: UploadId, bucket: string, key: string) {
    id in s.uploads && s.uploads[id].bucket == bucket && s.uploads[id].key == key
  }

  // -------------------------------------------------------- create and upload

  function Create(cfg: Config, s: Store, id: UploadId, bucket: string, key: string,
                  threshold: Option<nat>, always: bool, now: int): (Store, Result<UploadId>)
  {
    if |s.uploads| >= cfg.maxUploads then (s, Err(SlowDown))
    else
      var u := Upload(bucket, key, now, map[], Open,
                      if always then Relayed else Buffered(threshold), false);
      (s.(uploads := s.uploads[id := u]), Ok(id))
  }

  /** What the disk does during one UploadPart: a promotion may stop after
      having written only the parts in `written`, and the write of the new part
      may fail after having touched the directory. */
  datatype Disk = Disk(promotes: bool, dirMade: bool, written: set<nat>, writes: bool)

  predicate Promotes(u: Upload, cumulative: nat) {
    u.relay.Buffered? && u.relay.threshold.Some? && cumulative > u.relay.threshold.value
  }

  /** The parts of `which` leave memory for their relay files. */
  function MoveToRelay(id: UploadId, parts: map<nat, Part>, which: set<nat>): map<nat, Part> {
    map n | n in parts ::
      if n in which && parts[n].payload.InMemory?
      then parts[n].(payload := RelayedFile(Path(id, n)))
      else parts[n]
  }

  function WrittenFiles(id: UploadId, parts: map<nat, Part>, which: set<nat>): map<Path, Bytes> {
    map n | n in which && n in parts && parts[n].payload.InMemory? ::
      Path(id, n) := parts[n].payload.data
  }

  /** promote_upload_to_relay: `which` are the parts whose write succeeded; only
      a promotion that wrote every part switches the strategy. */
  function Promote(s: Store, id: UploadId, which: set<nat>, complete: bool, now: int): (r: Store)
    requires id in s.uploads
  {
    var u := s.uploads[id];
    var u' := u.(parts := MoveToRelay(id, u.parts, which),
                 relay := if complete then Relayed else u.relay);
    s.(uploads := s.uploads[id := u'],
       files := s.files + WrittenFiles(id, u.parts, which),
       dirs := s.dirs[id := now])
  }

  function QuotedHex(cfg: Config, digest: Bytes): string {
    "\"" + cfg.hex(digest) + "\""
  }

  ghost function CumulativeAfter(u: Upload, n: nat, size: nat): nat {
    SaturatingAdd(SaturatingSub(BytesOf(u), OldSize(u, n)), size)
  }

  /** The checks upload_part makes before it buffers anything. `counter` is the
      value the in-flight counter was seen at. */
  ghost function UploadRefusal(cfg: Config, s: Store, id: UploadId, bucket: string, key: string,
                               n: nat, size: nat, counter: nat): Option<S3Error>
  {
    if !(1 <= n <= 10000) then Some(InvalidArgument)
    else if !Owned(s, id, bucket, key) then Some(NoSuchUpload)
    else
      var u := s.uploads[id];
      if u.phase != Open then Some(InvalidRequest)
      else if CumulativeAfter(u, n, size) > cfg.maxObjectSize then Some(EntityTooLarge)
      else if size > OldSize(u, n)
              && SaturatingAdd(counter, size - OldSize(u, n)) > cfg.maxTotalBytes
      then Some(SlowDown)
      else None
  }

  /** Insert an accepted part and move the counter by the difference in size. */
  function AcceptPart(cfg: Config, s: Store, id: UploadId, n: nat, data: Bytes, now: int): (r: Store)
    requires id in s.uploads
  {
    var u := s.uploads[id];
    var payload := if u.relay.Relayed? then RelayedFile(Path(id, n)) else InMemory(data);
    var part := Part(payload, cfg.md5(data), |data|);
    Store(s.uploads[id := u.(parts := u.parts[n := part], lastActivity := now)],
          s.slots,
          Wrap(s.inFlightBytes + |data| - OldSize(u, n)),
          if u.relay.Relayed? then s.files[Path(id, n) := data] else s.files,
          if u.relay.Relayed? then s.dirs[id := now] else s.dirs)
  }

  /** upload_part. `counter` is the in-flight counter as loaded for the check:
      releases do not take the table lock, so it may since have gone down. */
  ghost function UploadPart(cfg: Config, s: Store, id: UploadId, bucket: string, key: string,
                            n: nat, data: Bytes, counter: nat, disk: Disk, now: int)
    : (Store, Result<string>)
  {
    var refusal := UploadRefusal(cfg, s, id, bucket, key, n, |data|, counter);
    if refusal.Some? then (s, Err(refusal.value))
    else
      var u := s.uploads[id];
      var promote := Promotes(u, CumulativeAfter(u, n, |data|));
      if promote && !disk.promotes then
        (if disk.dirMade then Promote(s, id, disk.written, false, now) else s, Err(InternalError))
      else
        var s1 := if promote then Promote(s, id, u.parts.Keys, true, now) else s;
        if s1.uploads[id].relay.Relayed? && !disk.writes then
          (if disk.dirMade then s1.(dirs := s1.dirs[id := now]) else s1, Err(InternalError))
        else
          (AcceptPart(cfg, s1, id, n, data, now), Ok(QuotedHex(cfg, cfg.md5(data))))
  }

  // ----------------------------------------------------------------- complete

  function TrimLeft(s: string): string {
    if s != "" && s[0] == '"' then TrimLeft(s[1..]) else s
  }

  function TrimRight(s: string): string {
    if s != "" && s[|s| - 1] == '"' then TrimRight(s[..|s| - 1]) else s
  }

  /** `trim_matches('"')`. */
  function TrimQuotes(s: string): string {
    TrimRight(TrimLeft(s))
  }

  function Decimal(n: nat): string {
    if n < 10 then ["0123456789"[n]] else Decimal(n / 10) + ["0123456789"[n % 10]]
  }

  /** load_bytes: a relayed part is read back and checked against its digest. */
  function LoadBytes(cfg: Config, files: map<Path, Bytes>, p: Part): Result<Bytes> {
    match p.payload
    case InMemory(data) => Ok(data)
    case RelayedFile(path) =>
      if path !in files then Err(InternalError)
      else if cfg.md5(files[path]) != p.md5 then Err(InternalError)
      else Ok(files[path])
  }

  /** What the validation loop has gathered so far. */
  datatype Gathered = Gathered(total: nat, digests: Bytes, chunks: seq<Bytes>)

  predicate Ascending(req: PartList) {
    forall i :: 0 <= i < |req| - 1 ==> req[i].0 < req[i + 1].0
  }

  /** One turn of the validation loop. */
  function GatherOne(cfg: Config, files: map<Path, Bytes>, parts: map<nat, Part>,
                     want: (nat, string), hydrate: bool, g: Gathered): Result<Gathered>
  {
    if want.0 !in parts then Err(InvalidPart)
    else
      var p := parts[want.0];
      if TrimQuotes(want.1) != cfg.hex(p.md5) then Err(InvalidPart)
      else if g.total + p.size > cfg.maxObjectSize then Err(InvalidArgument)
      else
        var loaded := LoadBytes(cfg, files, p);
        if hydrate && loaded.Err? then Err(loaded.error)
        else Ok(Gathered(g.total + p.size, g.digests + p.md5,
                         if hydrate then g.chunks + [loaded.value] else g.chunks))
  }

  function Gather(cfg: Config, files: map<Path, Bytes>, parts: map<nat, Part>,
                  req: PartList, hydrate: bool, g: Gathered): Result<Gathered>
  {
    if req == [] then Ok(g)
    else
      var next := GatherOne(cfg, files, parts, req[0], hydrate, g);
      if next.Err? then next
      else Gather(cfg, files, parts, req[1..], hydrate, next.value)
  }

  /** The S3 multipart ETag: digest of the part digests, then the part count. */
  function MultipartETag(cfg: Config, digests: Bytes, count: nat): string {
    "\"" + cfg.hex(cfg.md5(digests)) + "-" + Decimal(count) + "\""
  }

  function ValidateParts(cfg: Config, s: Store, id: UploadId, bucket: string, key: string,
                         req: PartList, hydrate: bool): Result<Gathered>
  {
    if !Owned(s, id, bucket, key) then Err(NoSuchUpload)
    else if req == [] then Err(InvalidPart)
    else if !Ascending(req) then Err(InvalidPartOrder)
    else Gather(cfg, s.files, s.uploads[id].parts, req, hydrate, Gathered(0, [], []))
  }

  function Concat(chunks: seq<Bytes>): Bytes {
    if chunks == [] then [] else chunks[0] + Concat(chunks[1..])
  }

  datatype Completed = Completed(data: Bytes, etag: string)

  function Reserve(s: Store, id: UploadId, now: int): Store
    requires id in s.uploads
  {
    s.(uploads := s.uploads[id := s.uploads[id].(phase := Completing, lastActivity := now)])
  }

  predicate AlreadyCompleting(s: Store, id: UploadId) {
    id in s.uploads && s.uploads[id].phase == Completing
  }

  /** complete: validate, assemble, and flip the upload to Completing. */
  function Complete(cfg: Config, s: Store, id: UploadId, bucket: string, key: string,
                    req: PartList, now: int): (Store, Result<Completed>)
  {
    if AlreadyCompleting(s, id) then (s, Err(InvalidRequest))
    else
      var v := ValidateParts(cfg, s, id, bucket, key, req, true);
      if v.Err? then (s, Err(v.error))
      else (Reserve(s, id, now),
            Ok(Completed(Concat(v.value.chunks), MultipartETag(cfg, v.value.digests, |req|))))
  }

  datatype PassthroughPayload = Chunks(chunks: seq<Bytes>) | RelayedParts(paths: seq<Path>)

  datatype Passthrough = Passthrough(payload: PassthroughPayload, etag: string, totalSize: nat)

  /** ordered_relay_part_paths: the files in request order, each re-checked. */
  function OrderedPaths(cfg: Config, files: map<Path, Bytes>, parts: map<nat, Part>, req: PartList)
    : Result<seq<Path>>
  {
    if req == [] then Ok([])
    else if req[0].0 !in parts then Err(InvalidPart)
    else
      var p := parts[req[0].0];
      var loaded := LoadBytes(cfg, files, p);
      if p.payload.InMemory? then Err(InternalError)
      else if loaded.Err? then Err(loaded.error)
      else
        var rest := OrderedPaths(cfg, files, parts, req[1..]);
        if rest.Err? then rest else Ok([p.payload.path] + rest.value)
  }

  function CompletePassthrough(cfg: Config, s: Store, id: UploadId, bucket: string, key: string,
                               req: PartList, now: int): (Store, Result<Passthrough>)
  {
    if AlreadyCompleting(s, id) then (s, Err(InvalidRequest))
    else if id !in s.uploads then (s, Err(NoSuchUpload))
    else
      var buffered := s.uploads[id].relay.Buffered?;
      var v := ValidateParts(cfg, s, id, bucket, key, req, buffered);
      if v.Err? then (s, Err(v.error))
      else
        var etag := MultipartETag(cfg, v.value.digests, |req|);
        if buffered then
          (Reserve(s, id, now), Ok(Passthrough(Chunks(v.value.chunks), etag, v.value.total)))
        else
          var paths := OrderedPaths(cfg, s.files, s.uploads[id].parts, req);
          if paths.Err? then (s, Err(paths.error))
          else (Reserve(s, id, now),
                Ok(Passthrough(RelayedParts(paths.value), etag, v.value.total)))
  }

  function Rollback(s: Store, id: UploadId): Store {
    if id in s.uploads then s.(uploads := s.uploads[id := s.uploads[id].(phase := Open)]) else s
  }

  /** store_guard and clear_store_in_progress. */
  function SetStoring(s: Store, id: UploadId, flag: bool): Store {
    if id in s.uploads
    then s.(uploads := s.uploads[id := s.uploads[id].(storeInProgress := flag)])
    else s
  }

  // ------------------------------------------------- removing and releasing

  /** Take `ids` out of the table. Their bytes stay counted until released. */
  function Remove(s: Store, ids: set<UploadId>): Store {
    s.(uploads := s.uploads - ids)
  }

  /** Delete an upload's relay directory and everything in it. */
  function RemoveDir(s: Store, id: UploadId): Store {
    s.(files := map p | p in s.files && p.dir != id :: s.files[p], dirs := s.dirs - {id})
  }

  /** release_bytes, then cleanup_relay_dir_for_upload. */
  ghost function Release(s: Store, id: UploadId, u: Upload, dirGone: bool): (r: Store)
    ensures r.uploads == s.uploads && r.slots == s.slots
  {
    var s1 := s.(inFlightBytes := Wrap(s.inFlightBytes - BytesOf(u)));
    if u.relay.Relayed? && dirGone then RemoveDir(s1, id) else s1
  }

  ghost function Finish(s: Store, id: UploadId, dirGone: bool): (r: Store)
    ensures r.uploads == s.uploads - {id} && r.slots == s.slots
  {
    if id in s.uploads then Release(Remove(s, {id}), id, s.uploads[id], dirGone) else s
  }

  /** abort's check; on success the upload may be removed. */
  function AbortRefusal(s: Store, id: UploadId, bucket: string, key: string): Option<S3Error> {
    if !Owned(s, id, bucket, key) then Some(NoSuchUpload)
    else if s.uploads[id].phase == Completing then Some(InvalidRequest)
    else None
  }

  function InBucket(s: Store, bucket: string): set<UploadId> {
    set id | id in s.uploads && s.uploads[id].bucket == bucket
  }

  predicate PurgeRefused(s: Store, bucket: string) {
    exists id :: id in s.uploads && s.uploads[id].bucket == bucket && s.uploads[id].phase == Completing
  }

  /** cleanup_expired reclaims this upload at time `now`. */
  predicate Expired(cfg: Config, u: Upload, maxAge: int, completingTimeout: int, now: int) {
    if u.phase == Completing then u.lastActivity <= now - completingTimeout && !u.storeInProgress
    else u.lastActivity <= now - Min(cfg.idleTtl, maxAge)
  }

  function ExpiredIds(cfg: Config, s: Store, maxAge: int, completingTimeout: int, now: int): set<UploadId> {
    set id | id in s.uploads && Expired(cfg, s.uploads[id], maxAge, completingTimeout, now)
  }

  // ------------------------------------------------------ completion registry

  datatype BeginOutcome = Owner | Join(channel: nat) | AlreadyDone(etag: string)

  /** begin_complete; `channel` names the channel a new owner would create. */
  function BeginComplete(s: Store, id: UploadId, bucket: string, key: string, req: PartList,
                         channel: nat, now: int): (Store, Result<BeginOutcome>)
  {
    if id !in s.slots then
      (s.(slots := s.slots[id := InFlight(req, channel, now)]), Ok(Owner))
    else
      match s.slots[id]
      case Done(f, etag, b, k, _) =>
        if f == req && b == bucket && k == key then (s, Ok(AlreadyDone(etag)))
        else (s, Err(InvalidPart))
      case InFlight(f, c, _) =>
        if f == req then (s, Ok(Join(c))) else (s, Err(InvalidRequest))
  }

  /** publish_completion. */
  function Publish(s: Store, id: UploadId, req: PartList, bucket: string, key: string,
                   etag: Option<string>, now: int): Store
  {
    if etag.Some? then s.(slots := s.slots[id := Done(req, etag.value, bucket, key, now)])
    else s.(slots := s.slots - {id})
  }

  function ClearSlot(s: Store, id: UploadId): Store {
    s.(slots := s.slots - {id})
  }

  /** A slot survives prune_completion_tombstones. */
  predicate SlotKept(slot: Slot, completingTimeout: int, now: int) {
    match slot
    case Done(_, _, _, _, at) => now - at < COMPLETION_TOMBSTONE_TTL
    case InFlight(_, _, started) => now - started < Max(2 * completingTimeout, COMPLETION_TOMBSTONE_TTL)
  }

  function Prune(s: Store, completingTimeout: int, now: int): Store {
    s.(slots := map id | id in s.slots && SlotKept(s.slots[id], completingTimeout, now) :: s.slots[id])
  }

  // ----------------------------------------------------------- orphan sweeping

  /** The snapshot sweep_orphan_relay_artifacts takes under the read lock. */
  function ActiveDirs(s: Store): set<UploadId> {
    set id | id in s.uploads && s.uploads[id].relay.Relayed?
  }

  /** cleanup_orphan_relay_entries_at deletes this directory entry. */
  predicate Orphan(dirs: map<UploadId, int>, dir: UploadId, active: set<UploadId>, minAge: int, now: int) {
    && dir in dirs
    && (minAge == 0 || now - dirs[dir] >= minAge)
    && dir !in active
  }
}
