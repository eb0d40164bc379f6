/** What a completion assembles depends only on the bytes the client uploaded:
    buffering, relaying and the passthrough variant are invisible in it. */
module MultipartAssembly {
  import opened Common
  import opened MultipartModel
  import opened MultipartSystem
  import opened MultipartProtocol
  import opened MultipartAccounting
  import opened MultipartRelay
  import opened MultipartGuards

  // ---------------------------------------------------------- reference answer

  /** The requested parts in request order, straight from the uploaded bytes. */
  ghost function Requested(cfg: Config, bytes: map<nat, Bytes>, req: PartList): Result<seq<Bytes>> {
    if req == [] then Ok([])
    else if req[0].0 !in bytes || TrimQuotes(req[0].1) != cfg.hex(cfg.md5(bytes[req[0].0])) then Err(InvalidPart)
    else
      var rest := Requested(cfg, bytes, req[1..]);
      if rest.Err? then rest else Ok([bytes[req[0].0]] + rest.value)
  }

  ghost function DigestsOf(cfg: Config, chunks: seq<Bytes>): Bytes {
    if chunks == [] then [] else cfg.md5(chunks[0]) + DigestsOf(cfg, chunks[1..])
  }

  // ------------------------------------------------------------------ numerals

  /** What a string of decimal digits stands for. */
  ghost function ValueOf(digits: string): int {
    if digits == "" then 0
    else 10 * ValueOf(digits[..|digits| - 1]) + (digits[|digits| - 1] as int - '0' as int)
  }

  ghost predicate AllDigits(s: string) {
    forall i :: 0 <= i < |s| ==> '0' <= s[i] <= '9'
  }

  /** `n` as it is written: decimal digits, without a leading zero. */
  ghost predicate IsNumeral(s: string, n: nat) {
    s != "" && AllDigits(s) && (|s| > 1 ==> s[0] != '0') && ValueOf(s) == n
  }

  lemma {:induction false} DigitsAreNatural(s: string)
    requires AllDigits(s)
    ensures ValueOf(s) >= 0
    ensures s != "" && s[0] != '0' ==> ValueOf(s) > 0
  {
    if s != "" {
      DigitsAreNatural(s[..|s| - 1]);
    }
  }

  /** A number is written in one way only. */
  lemma {:induction false} NumeralIsUnique(s: string, t: string, n: nat)
    requires IsNumeral(s, n) && IsNumeral(t, n)
    ensures s == t
    decreases |s|
  {
    var s0, t0 := s[..|s| - 1], t[..|t| - 1];
    DigitsAreNatural(s0);
    DigitsAreNatural(t0);
    assert ValueOf(s0) == n / 10 == ValueOf(t0);
    assert s[|s| - 1] == t[|t| - 1];
    if n >= 10 {
      assert s0 != "" && t0 != "";
      NumeralIsUnique(s0, t0, n / 10);
    } else {
      ShortNumeral(s, n);
      ShortNumeral(t, n);
    }
    assert s == s0 + [s[|s| - 1]] && t == t0 + [t[|t| - 1]];
  }

  lemma ShortNumeral(s: string, n: nat)
    requires IsNumeral(s, n) && n < 10
    ensures |s| == 1
  {
    if |s| > 1 {
      DigitsAreNatural(s[..|s| - 1]);
    }
  }

  lemma DigitIsNumeral(n: nat)
    requires n < 10
    ensures '0' <= "0123456789"[n] <= '9' && "0123456789"[n] as int - '0' as int == n
    ensures IsNumeral(["0123456789"[n]], n)
  {
    var d := ["0123456789"[n]];
    assert d[..0] == "" && ValueOf(d) == 10 * ValueOf("") + (d[0] as int - '0' as int);
  }

  lemma AnotherDigit(s: string, n: nat, c: char)
    requires IsNumeral(s, n) && n > 0 && '0' <= c <= '9'
    ensures IsNumeral(s + [c], 10 * n + (c as int - '0' as int))
  {
    var t := s + [c];
    assert t[..|t| - 1] == s && t[0] == s[0];
    if |s| == 1 {
      assert s[..0] == "" && ValueOf(s) == 10 * ValueOf("") + (s[0] as int - '0' as int);
    }
  }

  lemma {:induction false} DecimalIsNumeral(n: nat)
    ensures IsNumeral(Decimal(n), n)
  {
    hide IsNumeral;
    DigitIsNumeral(n % 10);
    if n >= 10 {
      DecimalIsNumeral(n / 10);
      AnotherDigit(Decimal(n / 10), n / 10, "0123456789"[n % 10]);
    }
  }

  ghost function Numeral(n: nat): (s: string)
    ensures IsNumeral(s, n)
  {
    DecimalIsNumeral(n);
    var s :| IsNumeral(s, n);
    s
  }

  // ---------------------------------------------------------------- the answer

  /** Every part number is larger than all before it. */
  ghost predicate Increasing(req: PartList) {
    forall i, j :: 0 <= i < j < |req| ==> req[i].0 < req[j].0
  }

  lemma {:induction false} AscendingIsIncreasing(req: PartList)
    ensures Ascending(req) <==> Increasing(req)
  {
    if req != [] {
      AscendingIsIncreasing(req[1..]);
      if Ascending(req) {
        assert Ascending(req[1..]);
        forall i, j | 0 <= i < j < |req|
          ensures req[i].0 < req[j].0
        {
          if i > 0 {
            assert req[1..][i - 1].0 < req[1..][j - 1].0;
          } else if j > 1 {
            assert req[1..][0].0 < req[1..][j - 1].0;
          }
        }
      }
    }
  }

  /** The answer S3 prescribes: the concatenated parts, and the digest of the
      part digests with the number of parts as ETag. */
  ghost function Reference(cfg: Config, bytes: map<nat, Bytes>, req: PartList): Result<Completed> {
    if req == [] then Err(InvalidPart)
    else if !Increasing(req) then Err(InvalidPartOrder)
    else
      var r := Requested(cfg, bytes, req);
      if r.Err? then Err(r.error)
      else Ok(Completed(Concat(r.value),
                        "\"" + cfg.hex(cfg.md5(DigestsOf(cfg, r.value))) + "-" + Numeral(|req|) + "\""))
  }

  /** The ETag UploadPart returned is accepted for that part by Complete. */
  lemma ReturnedETagMatches(cfg: Config, digest: Bytes)
    requires forall c :: c in cfg.hex(digest) ==> c != '"'
    ensures TrimQuotes(QuotedHex(cfg, digest)) == cfg.hex(digest)
  {
    var h, q := cfg.hex(digest), QuotedHex(cfg, digest);
    var tail := h + "\"";
    assert q[1..] == tail && TrimLeft(q) == TrimLeft(tail);
    if h == "" {
      assert tail[1..] == "" && TrimLeft(tail) == "";
    } else {
      assert tail[0] == h[0] && h[0] in h && TrimLeft(tail) == tail;
      assert tail[..|h|] == h && h[|h| - 1] in h && TrimRight(tail) == TrimRight(h) == h;
    }
  }

  /** The bytes a store reads for a passthrough payload. */
  ghost function PayloadBytes(files: map<Path, Bytes>, payload: PassthroughPayload): Bytes {
    match payload
    case Chunks(chunks) => Concat(chunks)
    case RelayedParts(paths) => FileBytes(files, paths)
  }

  ghost function FileBytes(files: map<Path, Bytes>, paths: seq<Path>): Bytes {
    if paths == [] then []
    else (if paths[0] in files then files[paths[0]] else []) + FileBytes(files, paths[1..])
  }

  // --------------------------------------------------- the size check never trips

  /** The parts from number `k` on. */
  ghost function From(parts: map<nat, Part>, k: nat): map<nat, Part> {
    map n | n in parts && n >= k :: parts[n]
  }

  lemma {:induction false} SumOfSome<K, V>(some: map<K, V>, all: map<K, V>, weight: V -> nat)
    requires some.Keys <= all.Keys && forall k :: k in some ==> some[k] == all[k]
    ensures Sum(some, weight) <= Sum(all, weight)
  {
    SumSplit(all, weight, some.Keys);
    assert Restrict(all, some.Keys) == some;
  }

  /** A part taken in ascending order leaves room for all later ones. */
  lemma RoomForLater(parts: map<nat, Part>, n: nat, next: nat)
    requires n in parts && n < next
    ensures parts[n].size + Sum(From(parts, next), SizeOf) <= Sum(From(parts, n), SizeOf)
  {
    SumRemove(From(parts, n), SizeOf, n);
    SumOfSome(From(parts, next), From(parts, n) - {n}, SizeOf);
  }

  /** Every part loads, and loads to the accepted bytes. */
  ghost predicate Loadable(cfg: Config, files: map<Path, Bytes>, parts: map<nat, Part>, bytes: map<nat, Bytes>) {
    && parts.Keys == bytes.Keys
    && forall n :: n in parts ==>
         LoadBytes(cfg, files, parts[n]) == Ok(bytes[n]) && parts[n].md5 == cfg.md5(bytes[n]) && parts[n].size == |bytes[n]|
  }

  lemma UploadLoads(cfg: Config, id: UploadId, u: Upload, bytes: map<nat, Bytes>, files: map<Path, Bytes>)
    requires UploadOk(cfg, id, u, bytes) && DiskOk(id, u, bytes, files)
    ensures Loadable(cfg, files, u.parts, bytes)
  {
  }

  /** What the validation loop should end with, from `g` on. */
  ghost function Gathering(cfg: Config, g: Gathered, r: Result<seq<Bytes>>, hydrate: bool): Result<Gathered> {
    if r.Err? then Err(r.error)
    else Ok(Gathered(g.total + |Concat(r.value)|, g.digests + DigestsOf(cfg, r.value),
                     if hydrate then g.chunks + r.value else g.chunks))
  }

  /** The validation loop finds exactly the requested bytes; since part numbers
      ascend, its running total never passes the upload's own sum. */
  lemma {:induction false} GatherIsRequested(cfg: Config, files: map<Path, Bytes>, parts: map<nat, Part>, bytes: map<nat, Bytes>,
                                             req: PartList, hydrate: bool, g: Gathered)
    requires Loadable(cfg, files, parts, bytes) && Ascending(req)
    requires req != [] ==> g.total + Sum(From(parts, req[0].0), SizeOf) <= cfg.maxObjectSize
    ensures Gather(cfg, files, parts, req, hydrate, g) == Gathering(cfg, g, Requested(cfg, bytes, req), hydrate)
  {
    hide Gathering, Sum, From, LoadBytes;
    if req == [] {
      NothingMore(cfg, g, hydrate);
    } else if req[0].0 in parts && TrimQuotes(req[0].1) == cfg.hex(parts[req[0].0].md5) {
      var n, rest := req[0].0, req[1..];
      RoomFor(parts, n);
      if |req| > 1 {
        RoomForLater(parts, n, req[1].0);
      }
      assert Ascending(rest);
      var d := bytes[n];
      var g' := Gathered(g.total + |d|, g.digests + cfg.md5(d), if hydrate then g.chunks + [d] else g.chunks);
      assert GatherOne(cfg, files, parts, req[0], hydrate, g) == Ok(g');
      GatherIsRequested(cfg, files, parts, bytes, rest, hydrate, g');
      OneMoreChunk(cfg, g, d, Requested(cfg, bytes, rest), hydrate);
    } else {
      NothingGathered(cfg, g, hydrate);
    }
  }

  lemma RoomFor(parts: map<nat, Part>, n: nat)
    requires n in parts
    ensures parts[n].size <= Sum(From(parts, n), SizeOf)
  {
    SumRemove(From(parts, n), SizeOf, n);
  }

  lemma NothingMore(cfg: Config, g: Gathered, hydrate: bool)
    ensures Gathering(cfg, g, Ok([]), hydrate) == Ok(g)
  {
    assert g.digests + [] == g.digests && g.chunks + [] == g.chunks;
  }

  lemma NothingGathered(cfg: Config, g: Gathered, hydrate: bool)
    ensures Gathering(cfg, g, Err(InvalidPart), hydrate) == Err(InvalidPart)
  {
  }

  /** Prepending one chunk. */
  lemma OneMoreChunk(cfg: Config, g: Gathered, d: Bytes, rest: Result<seq<Bytes>>, hydrate: bool)
    ensures Gathering(cfg, Gathered(g.total + |d|, g.digests + cfg.md5(d), if hydrate then g.chunks + [d] else g.chunks), rest, hydrate)
            == Gathering(cfg, g, if rest.Err? then rest else Ok([d] + rest.value), hydrate)
  {
    if rest.Ok? {
      assert ([d] + rest.value)[1..] == rest.value;
      assert (g.digests + cfg.md5(d)) + DigestsOf(cfg, rest.value) == g.digests + (cfg.md5(d) + DigestsOf(cfg, rest.value));
      assert (g.chunks + [d]) + rest.value == g.chunks + ([d] + rest.value);
    }
  }

  /** The relay files, read in request order, are the requested bytes. */
  lemma {:induction false} PathsAreRequested(cfg: Config, files: map<Path, Bytes>, parts: map<nat, Part>, bytes: map<nat, Bytes>, req: PartList)
    requires Loadable(cfg, files, parts, bytes) && Requested(cfg, bytes, req).Ok?
    requires forall n :: n in parts ==> parts[n].payload.RelayedFile?
    ensures var r := OrderedPaths(cfg, files, parts, req);
            r.Ok? && FileBytes(files, r.value) == Concat(Requested(cfg, bytes, req).value)
  {
    if req != [] {
      PathsAreRequested(cfg, files, parts, bytes, req[1..]);
      var p := parts[req[0].0];
      assert LoadBytes(cfg, files, p) == Ok(bytes[req[0].0]);
      var rest := OrderedPaths(cfg, files, parts, req[1..]).value;
      assert ([p.payload.path] + rest)[1..] == rest;
    }
  }

  lemma WholeUploadFits(cfg: Config, u: Upload, req: PartList)
    requires BytesOf(u) <= cfg.maxObjectSize && req != []
    ensures Sum(From(u.parts, req[0].0), SizeOf) <= cfg.maxObjectSize
  {
    SumOfSome(From(u.parts, req[0].0), u.parts, SizeOf);
  }

  lemma ValidationIsRequested(cfg: Config, s: Sys, id: UploadId, bucket: string, key: string, req: PartList, hydrate: bool)
    requires PartsSys(cfg, s) && FilesOk(s, id) && Owned(s.st, id, bucket, key)
    requires BytesOf(s.st.uploads[id]) <= cfg.maxObjectSize && req != [] && Ascending(req)
    ensures var r := Requested(cfg, s.h.content[id], req);
            ValidateParts(cfg, s.st, id, bucket, key, req, hydrate) ==
              if r.Err? then Err(r.error)
              else Ok(Gathered(|Concat(r.value)|, DigestsOf(cfg, r.value), if hydrate then r.value else []))
  {
    hide Gather, Requested, UploadOk, DiskOk, ScansOk;
    var u := s.st.uploads[id];
    UploadLoads(cfg, id, u, s.h.content[id], s.st.files);
    WholeUploadFits(cfg, u, req);
    GatherIsRequested(cfg, s.st.files, u.parts, s.h.content[id], req, hydrate, Gathered(0, [], []));
    var r := Requested(cfg, s.h.content[id], req);
    if r.Ok? {
      assert [] + DigestsOf(cfg, r.value) == DigestsOf(cfg, r.value);
      assert [] + r.value == r.value;
    }
  }

  // -------------------------------------------------------------------- theorem

  /** Both completions give the reference's refusal, or its ETag, its bytes and
      their length. */
  ghost predicate AnswersReference(cfg: Config, s: Sys, id: UploadId, bucket: string, key: string, req: PartList)
    requires id in s.h.content
  {
    var reference := Reference(cfg, s.h.content[id], req);
    var through := CompletePassthrough(cfg, s.st, id, bucket, key, req, s.now).1;
    && Complete(cfg, s.st, id, bucket, key, req, s.now).1 == reference
    && (reference.Err? ==> through == Err(reference.error))
    && (reference.Ok? ==>
          && through.Ok?
          && through.value.etag == reference.value.etag
          && PayloadBytes(s.st.files, through.value.payload) == reference.value.data
          && through.value.totalSize == |reference.value.data|)
  }

  /** Whether parts were buffered, relayed from the start or promoted on the way:
      `complete` answers the reference, and so does the passthrough variant, with
      the same ETag, the same bytes behind its payload, and their length as size.
      So no promoted upload has a part in memory, no integrity check fails and
      the assembled-size check never refuses. */
  lemma PromotionIsInvisible(cfg: Config, states: seq<Sys>, acts: seq<Action>, i: nat, id: UploadId, bucket: string, key: string, req: PartList)
    requires Sound(cfg) && IsRun(cfg, states, acts) && i < |states|
    requires forall j :: 0 <= j < i ==> Clean(states[j], acts[j], id)
    requires Owned(states[i].st, id, bucket, key) && states[i].st.uploads[id].phase == Open
    ensures id in states[i].h.content && AnswersReference(cfg, states[i], id, bucket, key, req)
  {
    GuardedAlways(cfg, states, acts, i, id);
    CountedAlways(cfg, states, acts, i);
    InvisibleIn(cfg, states[i], id, bucket, key, req);
  }

  lemma InvisibleIn(cfg: Config, s: Sys, id: UploadId, bucket: string, key: string, req: PartList)
    requires PartsSys(cfg, s) && FilesOk(s, id)
    requires Owned(s.st, id, bucket, key) && s.st.uploads[id].phase == Open && BytesOf(s.st.uploads[id]) <= cfg.maxObjectSize
    ensures id in s.h.content && AnswersReference(cfg, s, id, bucket, key, req)
  {
    hide Gather, Requested, OrderedPaths, Concat, DigestsOf, UploadOk, DiskOk, ScansOk, FileBytes, Decimal, Numeral, Increasing, Ascending;
    var u := s.st.uploads[id];
    AscendingIsIncreasing(req);
    DecimalIsNumeral(|req|);
    NumeralIsUnique(Decimal(|req|), Numeral(|req|), |req|);
    if req != [] && Ascending(req) {
      ValidationIsRequested(cfg, s, id, bucket, key, req, true);
      ValidationIsRequested(cfg, s, id, bucket, key, req, false);
      if u.relay.Relayed? && Requested(cfg, s.h.content[id], req).Ok? {
        UploadLoads(cfg, id, u, s.h.content[id], s.st.files);
        PromotedIsOnDisk(cfg, id, u, s.h.content[id]);
        PathsAreRequested(cfg, s.st.files, u.parts, s.h.content[id], req);
      }
    }
  }

  lemma PromotedIsOnDisk(cfg: Config, id: UploadId, u: Upload, bytes: map<nat, Bytes>)
    requires UploadOk(cfg, id, u, bytes) && u.relay.Relayed?
    ensures forall n :: n in u.parts ==> u.parts[n].payload.RelayedFile?
  {
  }
}
