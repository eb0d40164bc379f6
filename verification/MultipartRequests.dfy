/** What requests are answered with, said of the tables before and after them: a
    part that fits is accepted, a changed file is noticed, an upload leaves only
    for a reason, and one in use stays. */
module MultipartRequests {
  import opened Common
  import opened MultipartModel
  import opened MultipartSystem
  import opened MultipartProtocol
  import opened MultipartAccounting
  import opened MultipartRelay
  import opened MultipartGuards
  import opened MultipartAssembly

  // ----------------------------------------------------------- accepting parts

  /** The upload with `data` as part `n`, in place of what was there. */
  ghost function WithNewPart(cfg: Config, u: Upload, n: nat, data: Bytes): Upload {
    u.(parts := u.parts[n := Part(InMemory(data), cfg.md5(data), |data|)])
  }

  ghost function SizeAfter(cfg: Config, u: Upload, n: nat, data: Bytes): nat {
    BytesOf(WithNewPart(cfg, u, n, data))
  }

  lemma CumulativeIsSizeAfter(cfg: Config, u: Upload, n: nat, data: Bytes)
    ensures CumulativeAfter(u, n, |data|) == Min(SizeAfter(cfg, u, n, data), U64_MAX)
    ensures SizeAfter(cfg, u, n, data) + OldSize(u, n) == BytesOf(u) + |data|
  {
    PartReplaced(u.parts, n, Part(InMemory(data), cfg.md5(data), |data|));
  }

  /** Which part is refused, and why, by the size of the upload after it. */
  lemma PartIsRefusedExactlyWhen(cfg: Config, s: Store, id: UploadId, bucket: string, key: string, n: nat, data: Bytes, counter: nat)
    ensures var r := UploadRefusal(cfg, s, id, bucket, key, n, |data|, counter);
            && (r == Some(InvalidArgument) <==> n < 1 || n > 10000)
            && (r == Some(NoSuchUpload) <==> 1 <= n <= 10000 && !Owned(s, id, bucket, key))
            && (r == Some(InvalidRequest) <==> 1 <= n <= 10000 && Owned(s, id, bucket, key) && s.uploads[id].phase == Completing)
    ensures 1 <= n <= 10000 && Owned(s, id, bucket, key) && s.uploads[id].phase == Open ==>
              var r := UploadRefusal(cfg, s, id, bucket, key, n, |data|, counter);
              var before, after := BytesOf(s.uploads[id]), SizeAfter(cfg, s.uploads[id], n, data);
              var fits := Min(after, U64_MAX) <= cfg.maxObjectSize;
              var room := after <= before || Min(counter + after - before, U64_MAX) <= cfg.maxTotalBytes;
              && (r == Some(EntityTooLarge) <==> !fits)
              && (r == Some(SlowDown) <==> fits && !room)
              && (r.None? <==> fits && room)
  {
    hide CumulativeAfter, BytesOf, SizeAfter;
    if id in s.uploads {
      CumulativeIsSizeAfter(cfg, s.uploads[id], n, data);
    }
  }

  /** In every run of a sound configuration, a part of an Open upload is accepted
      exactly when the upload with it is within its limit, and all uploads
      together, those not yet released included, are within theirs. */
  lemma PartIsAcceptedExactlyWhenItFits(cfg: Config, states: seq<Sys>, acts: seq<Action>, i: nat, id: UploadId, bucket: string, key: string,
                                        n: nat, data: Bytes, disk: Disk)
    requires Sound(cfg) && IsRun(cfg, states, acts) && i < |states|
    requires Owned(states[i].st, id, bucket, key) && states[i].st.uploads[id].phase == Open
    requires 1 <= n <= 10000 && disk.promotes && disk.writes
    ensures var s := states[i];
            var u' := WithNewPart(cfg, s.st.uploads[id], n, data);
            UploadPart(cfg, s.st, id, bucket, key, n, data, s.st.inFlightBytes, disk, s.now).1.Ok?
            <==> BytesOf(u') <= cfg.maxObjectSize && TotalBytes(s.st.uploads[id := u']) + TotalBytes(s.removed) <= cfg.maxTotalBytes
  {
    hide Do, Enabled, Initial, CumulativeAfter, BytesOf, TotalBytes, AcceptPart, Promote, QuotedHex, UploadRefusal;
    var s := states[i];
    var u, u' := s.st.uploads[id], WithNewPart(cfg, s.st.uploads[id], n, data);
    BytesAreCounted(cfg, states, acts, i);
    CountedAlways(cfg, states, acts, i);
    UploadReplaced(s.st.uploads, id, u');
    AcceptedWithoutRefusal(cfg, s.st, id, bucket, key, n, data, s.st.inFlightBytes, disk, s.now);
    PartIsRefusedExactlyWhen(cfg, s.st, id, bucket, key, n, data, s.st.inFlightBytes);
    UploadReplaced(s.st.uploads[id := u'], id, u');
    assert BytesOf(u) <= cfg.maxObjectSize;
  }

  lemma AcceptedWithoutRefusal(cfg: Config, s: Store, id: UploadId, bucket: string, key: string, n: nat, data: Bytes,
                               counter: nat, disk: Disk, now: int)
    requires disk.promotes && disk.writes
    ensures UploadPart(cfg, s, id, bucket, key, n, data, counter, disk, now).1.Ok?
            <==> UploadRefusal(cfg, s, id, bucket, key, n, |data|, counter).None?
  {
    hide CumulativeAfter, BytesOf, AcceptPart, Promote, QuotedHex;
  }

  /** An accepted part moves its upload to disk exactly when the upload with it
      exceeds the threshold. */
  lemma PromotesExactlyWhenLarge(cfg: Config, s: Store, id: UploadId, bucket: string, key: string, n: nat, data: Bytes,
                                 counter: nat, disk: Disk, now: int)
    requires UploadPart(cfg, s, id, bucket, key, n, data, counter, disk, now).1.Ok?
    ensures id in s.uploads
    ensures var u, r := s.uploads[id], UploadPart(cfg, s, id, bucket, key, n, data, counter, disk, now).0;
            && id in r.uploads
            && (r.uploads[id].relay.Relayed? <==>
                  || u.relay.Relayed?
                  || (u.relay.threshold.Some? && Min(SizeAfter(cfg, u, n, data), U64_MAX) > u.relay.threshold.value))
  {
    hide CumulativeAfter, BytesOf, SizeAfter, QuotedHex, MoveToRelay, WrittenFiles;
    CumulativeIsSizeAfter(cfg, s.uploads[id], n, data);
  }

  /** An accepted part is answered with its digest in hexadecimal, in quotes. */
  lemma AcceptedPartIsAnswered(cfg: Config, s: Store, id: UploadId, bucket: string, key: string, n: nat, data: Bytes,
                               counter: nat, disk: Disk, now: int)
    ensures var r := UploadPart(cfg, s, id, bucket, key, n, data, counter, disk, now).1;
            r.Ok? ==> r.value == "\"" + cfg.hex(cfg.md5(data)) + "\""
  {
    hide CumulativeAfter, MoveToRelay, WrittenFiles, AcceptPart;
  }

  // ------------------------------------------------------------- completions

  ghost predicate Quotes(s: string) {
    forall i :: 0 <= i < |s| ==> s[i] == '"'
  }

  /** An ETag in a request is compared without its outer quotes, all of them and
      nothing else. */
  lemma TrimTakesOuterQuotes(s: string) returns (left: string, right: string)
    ensures s == left + TrimQuotes(s) + right && Quotes(left) && Quotes(right)
    ensures TrimQuotes(s) != "" ==> TrimQuotes(s)[0] != '"' && TrimQuotes(s)[|TrimQuotes(s)| - 1] != '"'
  {
    left := TrimLeftTakes(s);
    var rest := TrimLeft(s);
    right := TrimRightTakes(rest);
    assert s == left + (TrimRight(rest) + right);
    if TrimRight(rest) != "" {
      assert rest[0] == TrimRight(rest)[0];
    }
  }

  lemma {:induction false} TrimLeftTakes(s: string) returns (left: string)
    ensures s == left + TrimLeft(s) && Quotes(left) && (TrimLeft(s) != "" ==> TrimLeft(s)[0] != '"')
  {
    if s != "" && s[0] == '"' {
      var rest := TrimLeftTakes(s[1..]);
      left := [s[0]] + rest;
      assert s == [s[0]] + s[1..];
    } else {
      left := "";
    }
  }

  lemma {:induction false} TrimRightTakes(s: string) returns (right: string)
    ensures s == TrimRight(s) + right && Quotes(right)
    ensures TrimRight(s) != "" ==> TrimRight(s)[|TrimRight(s)| - 1] != '"'
  {
    if s != "" && s[|s| - 1] == '"' {
      var rest := TrimRightTakes(s[..|s| - 1]);
      right := rest + [s[|s| - 1]];
      assert s == s[..|s| - 1] + [s[|s| - 1]];
    } else {
      right := "";
    }
  }

  /** Every requested part that lies on disk is there, unchanged since it was
      written. */
  ghost predicate Intact(cfg: Config, s: Store, id: UploadId, req: PartList) {
    && id in s.uploads
    && forall k :: 0 <= k < |req| ==>
         && req[k].0 in s.uploads[id].parts
         && var p := s.uploads[id].parts[req[k].0];
            p.payload.RelayedFile? ==> p.payload.path in s.files && cfg.md5(s.files[p.payload.path]) == p.md5
  }

  lemma {:induction false} GatherFindsIntact(cfg: Config, s: Store, id: UploadId, req: PartList, g: Gathered)
    requires id in s.uploads && Gather(cfg, s.files, s.uploads[id].parts, req, true, g).Ok?
    ensures Intact(cfg, s, id, req)
    decreases |req|
  {
    if req != [] {
      var next := GatherOne(cfg, s.files, s.uploads[id].parts, req[0], true, g);
      GatherFindsIntact(cfg, s, id, req[1..], next.value);
      forall k | 0 <= k < |req|
        ensures req[k] == req[0] || req[k] == req[1..][k - 1]
      {
      }
    }
  }

  lemma {:induction false} PathsAreIntact(cfg: Config, s: Store, id: UploadId, req: PartList)
    requires id in s.uploads && OrderedPaths(cfg, s.files, s.uploads[id].parts, req).Ok?
    ensures Intact(cfg, s, id, req)
    decreases |req|
  {
    if req != [] {
      PathsAreIntact(cfg, s, id, req[1..]);
      forall k | 0 <= k < |req|
        ensures req[k] == req[0] || req[k] == req[1..][k - 1]
      {
      }
    }
  }

  /** Whatever has happened on disk, a completion succeeds only for an Open upload
      of its bucket and key, and only with the bytes that were written: a file
      that is missing, or has changed its digest, fails it. */
  lemma CompletionsAreIntact(cfg: Config, s: Store, id: UploadId, bucket: string, key: string, req: PartList, now: int)
    ensures Complete(cfg, s, id, bucket, key, req, now).1.Ok? || CompletePassthrough(cfg, s, id, bucket, key, req, now).1.Ok? ==>
              Owned(s, id, bucket, key) && s.uploads[id].phase == Open && Intact(cfg, s, id, req)
  {
    hide Gather, OrderedPaths, Intact, Ascending, MultipartETag, Concat;
    if id in s.uploads {
      var parts := s.uploads[id].parts;
      if Gather(cfg, s.files, parts, req, true, Gathered(0, [], [])).Ok? {
        GatherFindsIntact(cfg, s, id, req, Gathered(0, [], []));
      }
      if OrderedPaths(cfg, s.files, parts, req).Ok? {
        PathsAreIntact(cfg, s, id, req);
      }
    }
  }

  /** Refused completions: a second one while the first is at work, and one for an
      upload that is not there under that bucket and key. */
  lemma CompletionsAreRefused(cfg: Config, s: Store, id: UploadId, bucket: string, key: string, req: PartList, now: int)
    ensures id in s.uploads && s.uploads[id].phase == Completing ==>
              && Complete(cfg, s, id, bucket, key, req, now) == (s, Err(InvalidRequest))
              && CompletePassthrough(cfg, s, id, bucket, key, req, now) == (s, Err(InvalidRequest))
    ensures !(id in s.uploads && s.uploads[id].phase == Completing) && !Owned(s, id, bucket, key) ==>
              && Complete(cfg, s, id, bucket, key, req, now) == (s, Err(NoSuchUpload))
              && CompletePassthrough(cfg, s, id, bucket, key, req, now) == (s, Err(NoSuchUpload))
  {
    hide Gather, OrderedPaths;
  }

  // ---------------------------------------------------------------- removals

  /** An abort takes the upload exactly when it is there, under that bucket and
      key, and Open; no other upload is touched. */
  lemma AbortTakesExactly(cfg: Config, s: Sys, id: UploadId, bucket: string, key: string, x: UploadId)
    requires x in s.st.uploads
    ensures var s' := Do(cfg, s, Client(AbortUpload(id, bucket, key)));
            && (x !in s'.st.uploads <==> x == id && s.st.uploads[x].bucket == bucket && s.st.uploads[x].key == key && s.st.uploads[x].phase == Open)
            && (x in s'.st.uploads ==> s'.st.uploads[x] == s.st.uploads[x])
  {
  }

  /** A purge takes every upload of the bucket, unless one of them is Completing;
      it touches no upload of another bucket. */
  lemma PurgeTakesExactly(cfg: Config, s: Sys, bucket: string, x: UploadId)
    requires x in s.st.uploads
    ensures var s' := Do(cfg, s, Client(PurgeBucket(bucket)));
            && (x !in s'.st.uploads <==>
                  && s.st.uploads[x].bucket == bucket
                  && forall y :: y in s.st.uploads && s.st.uploads[y].bucket == bucket ==> s.st.uploads[y].phase == Open)
            && (x in s'.st.uploads ==> s'.st.uploads[x] == s.st.uploads[x])
  {
    hide PurgeRefused;
    RefusedUnlessAllOpen(s.st, bucket);
  }

  lemma RefusedUnlessAllOpen(s: Store, bucket: string)
    ensures PurgeRefused(s, bucket) <==> !(forall y :: y in s.uploads && s.uploads[y].bucket == bucket ==> s.uploads[y].phase == Open)
  {
  }

  /** An idle sweep takes an Open upload once nothing has happened to it for the
      idle time or for the maximum age, and a Completing one, unless it is being
      stored, once its timeout has passed. */
  lemma SweepTakesExactly(cfg: Config, s: Sys, maxAge: nat, timeout: nat, x: UploadId)
    requires x in s.st.uploads
    ensures var u, s' := s.st.uploads[x], Do(cfg, s, Sweep(SweepExpired(maxAge, timeout)));
            var idle := s.now - u.lastActivity;
            && (x !in s'.st.uploads <==>
                  if u.phase == Open then idle >= cfg.idleTtl || idle >= maxAge else idle >= timeout && !u.storeInProgress)
            && (x in s'.st.uploads ==> s'.st.uploads[x] == u)
  {
  }

  /** Once its bytes are released, a relayed upload leaves nothing on disk, if the
      deletion succeeds; the files of other uploads stay. */
  lemma ReleaseLeavesNothing(s: Store, id: UploadId, u: Upload)
    requires u.relay.Relayed?
    ensures var r := Release(s, id, u, true);
            && id !in r.dirs && (forall p :: p in r.files <==> p in s.files && p.dir != id)
            && (forall p :: p in r.files ==> r.files[p] == s.files[p])
            && (forall d :: d in r.dirs <==> d in s.dirs && d != id)
  {
    hide BytesOf;
  }

  // --------------------------------------------------------- uploads in use

  /** `id` was last touched at `t` or later. */
  ghost predicate TouchedSince(s: Sys, id: UploadId, t: int) {
    id in s.st.uploads && s.st.uploads[id].lastActivity >= t && s.now >= t
  }

  /** The step does not take `id` away: no abort of it, no purge of its bucket, no
      completion of it comes to its end, and sweeps find it too young. */
  ghost predicate Spares(cfg: Config, s: Sys, a: Action, id: UploadId, t: int) {
    match a
    case Client(AbortUpload(x, _, _)) => x != id
    case Client(PurgeBucket(bucket)) => id in s.st.uploads ==> s.st.uploads[id].bucket != bucket
    case Sweep(SweepExpired(maxAge, timeout)) => s.now - t < cfg.idleTtl && s.now - t < maxAge && s.now - t < timeout
    case TaskMoves(c, Settle(_)) => c in s.tasks ==> s.tasks[c].id != id
    case _ => true
  }

  lemma TouchedPutPart(cfg: Config, s: Store, id: UploadId, bucket: string, key: string, n: nat, data: Bytes,
                       counter: nat, disk: Disk, now: int)
    requires id in s.uploads
    ensures var r := UploadPart(cfg, s, id, bucket, key, n, data, counter, disk, now);
            && id in r.0.uploads && r.0.uploads[id].lastActivity == if r.1.Ok? then now else s.uploads[id].lastActivity
  {
    hide CumulativeAfter, QuotedHex, MoveToRelay, WrittenFiles;
  }

  lemma TouchedTask(cfg: Config, s: Sys, c: nat, a: TaskStep, id: UploadId, t: int)
    requires TaskEnabled(s, c, a) && TouchedSince(s, id, t) && Spares(cfg, s, TaskMoves(c, a), id, t)
    ensures TouchedSince(DoTask(cfg, s, c, a), id, t)
  {
    hide DoValidate, DoSettle, DoStoreReturns, DoPublish, DoCrash, DoSend, SetStoring;
    match a {
      case Validate(passthrough) => ValidateEffect(cfg, s, c, passthrough);
      case Settle(dirGone) =>
        SettleElsewhere(s, c, dirGone, id);
        SettleKeepsClock(s, c, dirGone);
      case TakeGuard => FlagKeepsActivity(s.st, s.tasks[c].id, true, id);
      case DropGuard => FlagKeepsActivity(s.st, s.tasks[c].id, false, id);
      case _ => OthersKeepUploads(s, c, a);
    }
  }

  lemma SettleKeepsClock(s: Sys, c: nat, dirGone: bool)
    requires c in s.tasks && s.tasks[c].stage.Stored?
    ensures DoSettle(s, c, dirGone).now == s.now
  {
    hide Finish;
  }

  lemma FlagKeepsActivity(st: Store, own: UploadId, flag: bool, id: UploadId)
    requires id in st.uploads
    ensures var r := SetStoring(st, own, flag); id in r.uploads && r.uploads[id].lastActivity == st.uploads[id].lastActivity
  {
  }

  lemma OthersKeepUploads(s: Sys, c: nat, a: TaskStep)
    requires TaskEnabled(s, c, a) && (a.StoreReturns? || a.PublishSlot? || a.Crash? || a.ClearOwnSlot? || a.Send?)
    ensures a.StoreReturns? ==> var s' := DoStoreReturns(s, c, a.ok); s'.st == s.st && s'.now == s.now
    ensures a.PublishSlot? ==> var s' := DoPublish(s, c); s'.st.uploads == s.st.uploads && s'.now == s.now
    ensures a.Crash? ==> var s' := DoCrash(s, c); s'.st == s.st && s'.now == s.now
    ensures a.Send? ==> var s' := DoSend(s, c); s'.st == s.st && s'.now == s.now
  {
  }

  lemma TouchedClient(cfg: Config, s: Sys, a: ClientStep, id: UploadId, t: int)
    requires ClientEnabled(s, a) && s.st.uploads.Keys <= s.h.used
    requires TouchedSince(s, id, t) && Spares(cfg, s, Client(a), id, t)
    ensures TouchedSince(DoClient(cfg, s, a), id, t)
  {
    hide UploadPart, DoBegin, Answer;
    if a.PutPart? {
      var counter := s.st.inFlightBytes + a.lag;
      if a.id !in s.st.uploads {
        NoUploadNoPart(cfg, s.st, a.id, a.bucket, a.key, a.n, a.data, counter, a.disk, s.now);
      } else {
        PutPartOnly(cfg, s.st, a.id, a.bucket, a.key, a.n, a.data, counter, a.disk, s.now);
        TouchedPutPart(cfg, s.st, a.id, a.bucket, a.key, a.n, a.data, counter, a.disk, s.now);
      }
    }
  }

  lemma TouchedStep(cfg: Config, s: Sys, a: Action, id: UploadId, t: int)
    requires ProtocolInv(s) && Enabled(s, a) && TouchedSince(s, id, t) && Spares(cfg, s, a, id, t)
    ensures TouchedSince(Do(cfg, s, a), id, t)
  {
    hide DoClient, DoTask, ProtocolInv;
    match a {
      case Client(step) =>
        TrackedAreUsed(s);
        TouchedClient(cfg, s, step, id, t);
      case TaskMoves(c, step) => TouchedTask(cfg, s, c, step, id, t);
      case _ =>
    }
  }

  lemma TrackedAreUsed(s: Sys)
    requires ProtocolInv(s)
    ensures s.st.uploads.Keys <= s.h.used
  {
  }

  lemma {:induction false} TouchedThroughout(cfg: Config, states: seq<Sys>, acts: seq<Action>, i: nat, j: nat, id: UploadId, t: int)
    requires IsRun(cfg, states, acts) && i <= j < |states| && TouchedSince(states[i], id, t)
    requires forall k :: i <= k < j ==> Spares(cfg, states[k], acts[k], id, t)
    ensures TouchedSince(states[j], id, t)
    decreases j
  {
    hide Do, Enabled, Initial, ProtocolInv, TouchedSince, Spares;
    if i < j {
      TouchedThroughout(cfg, states, acts, i, j - 1, id, t);
      ProtocolAlways(cfg, states, acts, j - 1);
      TouchedStep(cfg, states[j - 1], acts[j - 1], id, t);
    }
  }

  /** An upload that has just taken a part stays, whatever else happens, as long as
      nobody aborts, purges or completes it and no sweep comes when the part is
      older than the sweep's bounds. */
  lemma ActiveUploadsStay(cfg: Config, states: seq<Sys>, acts: seq<Action>, i: nat, j: nat, id: UploadId)
    requires IsRun(cfg, states, acts) && i < j < |states|
    requires acts[i].Client? && acts[i].client.PutPart? && acts[i].client.id == id
    requires PartTaken(cfg, states[i], acts[i].client)
    requires forall k :: i < k < j ==> Spares(cfg, states[k], acts[k], id, states[i].now)
    ensures id in states[j].st.uploads && states[j].st.uploads[id].lastActivity >= states[i].now
  {
    hide Do, Enabled, Initial;
    PartTouches(cfg, states[i], acts[i].client);
    assert states[i + 1] == Do(cfg, states[i], acts[i]);
    TouchedThroughout(cfg, states, acts, i + 1, j, id, states[i].now);
  }

  ghost predicate PartTaken(cfg: Config, s: Sys, a: ClientStep)
    requires a.PutPart?
  {
    UploadPart(cfg, s.st, a.id, a.bucket, a.key, a.n, a.data, s.st.inFlightBytes + a.lag, a.disk, s.now).1.Ok?
  }

  lemma PartTouches(cfg: Config, s: Sys, a: ClientStep)
    requires a.PutPart? && PartTaken(cfg, s, a)
    ensures TouchedSince(Do(cfg, s, Client(a)), a.id, s.now)
  {
    hide UploadPart;
    var counter := s.st.inFlightBytes + a.lag;
    if a.id !in s.st.uploads {
      NoUploadNoPart(cfg, s.st, a.id, a.bucket, a.key, a.n, a.data, counter, a.disk, s.now);
    } else {
      TouchedPutPart(cfg, s.st, a.id, a.bucket, a.key, a.n, a.data, counter, a.disk, s.now);
    }
  }

  // ------------------------------------------------------------ the upload limit

  /** A create is refused exactly at the limit; otherwise the new upload is Open,
      under the given bucket and key, without parts and touched just now. */
  lemma CreateIsRefusedExactlyAtTheLimit(cfg: Config, s: Store, id: UploadId, bucket: string, key: string,
                                         threshold: Option<nat>, always: bool, now: int)
    ensures var r := Create(cfg, s, id, bucket, key, threshold, always, now);
            && (r == (s, Err(SlowDown)) <==> |s.uploads| >= cfg.maxUploads)
            && (r.1.Ok? ==>
                  && Owned(r.0, id, bucket, key) && r.0.uploads == s.uploads[id := r.0.uploads[id]]
                  && var u := r.0.uploads[id];
                     && u.phase == Open && u.parts == map[] && u.lastActivity == now && !u.storeInProgress
                     && (u.relay.Relayed? <==> always) && (!always ==> u.relay.threshold == threshold))
  {
  }

  lemma ClientAddsOne(cfg: Config, s: Sys, a: ClientStep)
    requires ClientEnabled(s, a) && |s.st.uploads| <= cfg.maxUploads
    ensures |DoClient(cfg, s, a).st.uploads| <= cfg.maxUploads
  {
    hide UploadPart, DoBegin, Answer, DoCreate, PurgeRefused, InBucket, AbortRefusal;
    var uploads, uploads' := s.st.uploads, DoClient(cfg, s, a).st.uploads;
    if a.PutPart? {
      var counter := s.st.inFlightBytes + a.lag;
      PutPartEffect(cfg, s.st, a.id, a.bucket, a.key, a.n, a.data, counter, a.disk, s.now);
      assert uploads'.Keys == uploads.Keys;
      SameCount(uploads, uploads');
    } else if a.CreateUpload? {
      CreateAddsOne(cfg, s, a.id, a.bucket, a.key, a.threshold, a.always);
    } else {
      assert uploads'.Keys <= uploads.Keys;
      FewerCount(uploads, uploads');
    }
  }

  lemma CreateAddsOne(cfg: Config, s: Sys, id: UploadId, bucket: string, key: string, threshold: Option<nat>, always: bool)
    requires |s.st.uploads| <= cfg.maxUploads
    ensures |DoCreate(cfg, s, id, bucket, key, threshold, always).st.uploads| <= cfg.maxUploads
  {
  }

  lemma SameCount(a: map<UploadId, Upload>, b: map<UploadId, Upload>)
    requires a.Keys == b.Keys
    ensures |a| == |b|
  {
    assert |a| == |a.Keys| && |b| == |b.Keys|;
  }

  lemma FewerCount(a: map<UploadId, Upload>, b: map<UploadId, Upload>)
    requires b.Keys <= a.Keys
    ensures |b| <= |a|
  {
    assert |a| == |a.Keys| && |b| == |b.Keys|;
    assert a.Keys == b.Keys + (a.Keys - b.Keys);
  }

  lemma SweepAddsNone(cfg: Config, s: Sys, a: SweepStep)
    requires SweepEnabled(s, a)
    ensures DoSweep(cfg, s, a).st.uploads.Keys <= s.st.uploads.Keys
  {
    hide ExpiredIds;
  }

  lemma LimitStep(cfg: Config, s: Sys, a: Action)
    requires Enabled(s, a) && |s.st.uploads| <= cfg.maxUploads
    ensures |Do(cfg, s, a).st.uploads| <= cfg.maxUploads
  {
    hide DoClient, DoTask, DoSweep;
    var uploads, uploads' := s.st.uploads, Do(cfg, s, a).st.uploads;
    match a {
      case Tick(_) =>
      case Client(step) => ClientAddsOne(cfg, s, step);
      case Sweep(step) =>
        SweepAddsNone(cfg, s, step);
        FewerCount(uploads, uploads');
      case TaskMoves(c, step) =>
        if step.Settle? {
          SettleFrame(cfg, s, c, step);
        } else {
          TaskFrame(cfg, s, c, step);
        }
        FewerCount(uploads, uploads');
    }
  }

  /** No run ever tracks more uploads than the limit. */
  lemma {:induction false} UploadsAreLimited(cfg: Config, states: seq<Sys>, acts: seq<Action>, i: nat)
    requires IsRun(cfg, states, acts) && i < |states|
    ensures |states[i].st.uploads| <= cfg.maxUploads
    decreases i
  {
    hide Do, Enabled;
    if i > 0 {
      UploadsAreLimited(cfg, states, acts, i - 1);
      LimitStep(cfg, states[i - 1], acts[i - 1]);
    }
  }
}
