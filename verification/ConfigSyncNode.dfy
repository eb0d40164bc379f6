/** One node's side of the config sync as the object it is: the local database,
    the remembered ETag and the queued-upload flag, updated in place by the
    upload, download and retry code of src/config_db_sync.rs. */
module ConfigSyncNode {
  import opened Common
  import opened ConfigSync

  /** What the network and the peers do during one upload attempt: the object
      as the server sees it at the PUT, the HEAD and the GET, and which of the
      exchanges fail. */
  datatype Attempt = Attempt(
    readable: bool,
    atPut: Option<Db>, putDelivered: bool, putAnswered: bool, answerHasEtag: bool,
    atHead: Option<Db>, headOk: bool,
    atGet: Option<Db>, getOk: bool,
    mergeOk: bool)

  datatype UploadResult = Uploaded | Conflict | Other

  /** A PUT that took effect: what it replaced and what it stored. */
  datatype Effect = Effect(before: Option<Db>, after: Db)

  /** An effect loses nothing that was there and carries `revs`. */
  ghost predicate Carried(e: Effect, revs: Revocations) {
    && AtLeast(e.after.revs, revs)
    && (e.before.Some? ==> AtLeast(e.after.revs, e.before.value.revs))
  }

  /** Nothing fails, and the peers leave the object at `remote`. */
  ghost predicate Quiet(net: nat -> Attempt, remote: Option<Db>) {
    forall k: nat ::
      var t := net(k);
      && t.readable && t.putDelivered && t.putAnswered && t.headOk && t.getOk && t.mergeOk
      && t.atPut == remote && t.atHead == remote && t.atGet == remote
  }

  class ConfigDbSync {
    const etagOf: Db -> Etag
    var db: Db
    var lastEtag: Option<Etag>
    var needsUpload: bool

    constructor (etagOf: Db -> Etag, db: Db)
      ensures this.etagOf == etagOf && this.db == db && lastEtag.None? && !needsUpload
    {
      this.etagOf, this.db, lastEtag, needsUpload := etagOf, db, None, false;
    }

    /** ETags tell contents apart. */
    ghost predicate Distinguishes() {
      forall d, e :: etagOf(d) == etagOf(e) ==> d == e
    }

    /** The remembered ETag names a version whose revocations are all here. */
    ghost predicate Vouches()
      reads this
    {
      lastEtag.Some? ==> forall d :: etagOf(d) == lastEtag.value ==> AtLeast(db.revs, d.revs)
    }

    /** The server's compare half: If-Match on the remembered ETag, or
        If-None-Match: * when there is none. */
    predicate Matches(remote: Option<Db>)
      reads this
    {
      MatchesEtag(lastEtag, remote)
    }

    predicate MatchesEtag(expected: Option<Etag>, remote: Option<Db>) {
      match expected
      case Some(etag) => remote.Some? && etagOf(remote.value) == etag
      case None => remote.None?
    }

    /** upload: a PUT conditional on the remembered ETag. */
    method Upload(t: Attempt) returns (r: UploadResult, effects: seq<Effect>)
      requires Distinguishes() && Vouches()
      modifies this
      ensures Vouches() && db == old(db) && needsUpload == old(needsUpload)
      ensures effects == if t.readable && t.putDelivered && old(Matches(t.atPut)) then [Effect(t.atPut, db)] else []
      ensures r == Uploaded <==> effects != [] && t.putAnswered
      ensures r == Conflict <==> t.readable && t.putDelivered && !old(Matches(t.atPut))
      ensures lastEtag == if r == Conflict then None
                          else if r == Uploaded && t.answerHasEtag then Some(etagOf(db))
                          else old(lastEtag)
      ensures forall e :: e in effects ==> Carried(e, db.revs)
    {
      effects := [];
      if !t.readable {
        return Other, [];
      }
      var data := db;
      if !t.putDelivered {
        return Other, [];
      }
      if !Matches(t.atPut) {
        lastEtag := None;
        return Conflict, [];
      }
      effects := [Effect(t.atPut, data)];
      if !t.putAnswered {
        return Other, effects;
      }
      if t.answerHasEtag {
        lastEtag := Some(etagOf(data));
      }
      r := Uploaded;
    }

    /** download_if_newer: the object, if it differs from the remembered one and
        does not change between the HEAD and the GET. */
    method DownloadIfNewer(t: Attempt) returns (r: Option<Db>)
      ensures r.Some? ==> r == t.atHead && t.headOk && t.getOk && lastEtag != Some(etagOf(r.value))
      ensures r.None? && Distinguishes() && t.headOk && t.getOk && t.atGet == t.atHead && t.atHead.Some? ==>
        lastEtag == Some(etagOf(t.atHead.value))
      ensures Distinguishes() && r.Some? ==> t.atGet == t.atHead
    {
      if !t.headOk || t.atHead.None? {
        return None;
      }
      var remoteEtag := etagOf(t.atHead.value);
      if lastEtag == Some(remoteEtag) || !t.getOk || t.atGet.None? {
        return None;
      }
      if etagOf(t.atGet.value) != remoteEtag {
        return None;
      }
      r := t.atHead;
    }

    /** reopen_and_rebuild_iam and commit_downloaded_etag: the ETag is committed
        only after the merge. */
    method Apply(downloaded: Db, mergeOk: bool)
      requires Distinguishes() && Vouches()
      modifies this
      ensures Vouches() && needsUpload == old(needsUpload)
      ensures mergeOk ==> db == Merge(old(db), downloaded) && lastEtag == Some(etagOf(downloaded))
      ensures mergeOk ==> db.iam == downloaded.iam && AtLeast(db.revs, old(db.revs)) && AtLeast(db.revs, downloaded.revs)
      ensures !mergeOk ==> db == old(db) && lastEtag == old(lastEtag)
    {
      if mergeOk {
        db := Merge(db, downloaded);
        lastEtag := Some(etagOf(downloaded));
      }
    }

    /** upload_with_reconcile. Every PUT that took effect, acknowledged or not,
        kept what it replaced and carried what the node knew at the call. */
    method UploadWithReconcile(net: nat -> Attempt) returns (ok: bool, effects: seq<Effect>, attempts: nat)
      requires Distinguishes() && Vouches()
      modifies this
      ensures Vouches() && AtLeast(db.revs, old(db.revs))
      ensures 1 <= attempts <= MAX_UPLOAD_ATTEMPTS && (!ok ==> attempts == MAX_UPLOAD_ATTEMPTS)
      ensures ok ==> effects != [] && effects[|effects| - 1].after == db && needsUpload == old(needsUpload)
      ensures !ok ==> needsUpload
      ensures forall e :: e in effects ==> Carried(e, old(db.revs))
      // One reconciliation is enough once the peers are quiet.
      ensures forall remote :: Quiet(net, remote) ==> ok && attempts <= 2
      // It leaves the IAM tables alone, or takes over those of the object in its way.
      ensures forall remote :: Quiet(net, remote) ==>
                db.iam == if MatchesEtag(old(lastEtag), remote) || remote.None? then old(db.iam) else remote.value.iam
    {
      effects := [];
      ghost var before := db.revs;
      attempts := 0;
      while attempts < MAX_UPLOAD_ATTEMPTS
        invariant attempts <= MAX_UPLOAD_ATTEMPTS
        invariant Vouches() && needsUpload == old(needsUpload) && AtLeast(db.revs, before)
        invariant forall e :: e in effects ==> Carried(e, before)
        invariant forall remote :: Quiet(net, remote) ==> attempts == 0 || (attempts == 1 && Matches(remote))
        invariant attempts == 0 ==> db == old(db) && lastEtag == old(lastEtag)
        invariant attempts == 1 ==> forall remote :: Quiet(net, remote) ==>
                    !MatchesEtag(old(lastEtag), remote) && db.iam == if remote.None? then old(db.iam) else remote.value.iam
      {
        var t := net(attempts);
        attempts := attempts + 1;
        var r, now := Upload(t);
        assert forall e :: e in now ==> Carried(e, before);
        effects := effects + now;
        match r {
          case Uploaded =>
            return true, effects, attempts;
          case Conflict =>
            var dl := DownloadIfNewer(t);
            if dl.Some? {
              Apply(dl.value, t.mergeOk);
            }
          case Other =>
        }
      }
      needsUpload := true;
      ok := false;
    }

    /** take_needs_upload: whoever gets `true` owns the queued upload. */
    method TakeNeedsUpload() returns (taken: bool)
      modifies this`needsUpload
      ensures taken == old(needsUpload) && !needsUpload
    {
      taken := needsUpload;
      needsUpload := false;
    }
  }
}
