/** The push handlers of internal/httpapi (payload_push.go and the sequential part of
    storage.go), one request at a time, over the object store, the metadata, the disk cache
    and the upload sessions. */
module PushRoutes {
  import opened Base
  import opened Durable
  import BlobStore
  import Sessions
  import SessionStore

  /** The store call of a push that fails, if any; a failed write may still take effect. FailStat
      also stands for closing the uploaded temp file, which comes just before. */
  datatype CallFault =
    | NoCallFault | FailHead | FailOpenStaged | FailPut(effect: bool)
    | FailLegacyOpen | FailLegacyReopen | FailLegacyPut(effect: bool)
    | FailStat | FailMetaGet | FailMetaPut(effect: bool)

  /** What fails in a request: while staging, in a store call, while publishing, and in a call
      on the upload sessions. */
  datatype Faults = Faults(stage: BlobStore.StageFault, call: CallFault, publish: BlobStore.PublishFault,
                           session: Sessions.SessionFault)

  type Objects = map<Hash, Object>

  type Records = map<Hash, Record>

  /** What a push leaves behind, outside the upload sessions. */
  datatype World = World(objects: Objects, meta: Records, blobs: BlobStore.Files)

  // ----- the outcome of a push, call by call

  ghost function ReconcileOutcome(env: Env, objects: Objects, h: Hash, expected: Checksum, fault: CallFault)
    : (Objects, Option<Option<ETag>>)
    requires h in objects
  {
    var o := objects[h];
    if fault.FailLegacyOpen? || |o.data| != o.size || env.crc(o.data) != expected || fault.FailLegacyReopen? then
      (objects, None)
    else
      var put := objects[h := Object(Checked(expected), |o.data|, o.data)];
      match fault
      case FailLegacyPut(effect) => (if effect then put else objects, None)
      case _ => (put, Some(env.etag(o.data)))
  }

  /** The object store after Head and Put or compare, and (created, etag) unless it failed. */
  ghost function ObjectOutcome(env: Env, objects: Objects, h: Hash, body: Bytes, fault: CallFault)
    : (Objects, Option<(bool, Option<ETag>)>)
  {
    if fault.FailHead? then (objects, None)
    else if h !in objects then
      if fault.FailOpenStaged? then (objects, None)
      else
        var put := objects[h := Object(Checked(env.crc(body)), |body|, body)];
        match fault
        case FailPut(effect) => (if effect then put else objects, None)
        case _ => (put, Some((true, env.etag(body))))
    else
      var o := objects[h];
      if o.form.Legacy? then
        var (objects', r) := ReconcileOutcome(env, objects, h, env.crc(body), fault);
        (objects', if r.None? then None else Some((false, OrElse(r.value, env.etag(o.data)))))
      else if o.form.crc != env.crc(body) || o.size != |body| then (objects, None)
      else (objects, Some((false, env.etag(o.data))))
  }

  /** The metadata after commitPayloadMetadata, and whether it succeeded. */
  ghost function CommitOutcome(meta: Records, h: Hash, info: Info, cached: bool, fault: CallFault): (Records, bool) {
    if fault.FailStat? || fault.FailMetaGet? then (meta, false)
    else if h in meta && meta[h].checksum.Some?
       && (meta[h].checksum.value != info.checksum || meta[h].size != info.size) then
      (meta, false)
    else
      var rec := if h in meta
                 then meta[h].(checksum := Some(info.checksum), size := info.size,
                               etag := OrElse(info.etag, meta[h].etag), cached := cached)
                 else Record(h, info.etag, Some(info.checksum), info.size, cached);
      match fault
      case FailMetaPut(effect) => (if effect then meta[rec.hash := rec] else meta, false)
      case _ => (meta[rec.hash := rec], true)
  }

  ghost predicate Stageable(env: Env, h: Hash, checksum: Checksum, body: Bytes, faults: Faults) {
    BlobStore.ValidHash(h) && BlobStore.ValidChecksum(checksum) && faults.stage.NoStageFault?
       && env.crc(body) == checksum
  }

  ghost function InfoFor(checksum: Checksum, body: Bytes, o: (bool, Option<ETag>)): Info {
    Info(checksum, |body|, o.1, o.0, body)
  }

  /** putPayloadDurably turns (objects, blobs) into (objects', blobs') and returns r. */
  ghost predicate DurableOutcome(env: Env, maxBytes: int, objects: Objects, blobs: BlobStore.Files,
                                 objects': Objects, blobs': BlobStore.Files, h: Hash, checksum: Checksum,
                                 body: Bytes, now: int, faults: Faults, r: Option<Info>) {
    if !Stageable(env, h, checksum, body, faults) then
      r.None? && objects' == objects && blobs' == blobs
    else
      var (stored, o) := ObjectOutcome(env, objects, h, body, faults.call);
      && objects' == stored
      && if o.None? then r.None? && blobs' == blobs
         else
           && r == Some(InfoFor(checksum, body, o.value))
           && BlobStore.PublishEffect(blobs, blobs', BlobStore.RelativePath(h), BlobStore.File(body, now), maxBytes,
                                      faults.publish)
  }

  /** A whole push, putPayloadDurably and commitPayloadMetadata, turns w into w'. */
  ghost predicate PushOutcome(env: Env, maxBytes: int, w: World, w': World, h: Hash, checksum: Checksum,
                              body: Bytes, now: int, faults: Faults, r: Option<Info>) {
    exists info: Option<Info> ::
      && DurableOutcome(env, maxBytes, w.objects, w.blobs, w'.objects, w'.blobs, h, checksum, body, now, faults, info)
      && if info.None? then r.None? && w'.meta == w.meta
         else
           var (meta, ok) := CommitOutcome(w.meta, h, info.value,
                                           BlobStore.ValidHash(h) && BlobStore.RelativePath(h) in w'.blobs,
                                           faults.call);
           w'.meta == meta && r == if ok then info else None
  }

  /** A push is determined by its payload, not by the route that brought it or by the order
      in which the cache directory is walked. */
  lemma PushIsDetermined(env: Env, maxBytes: int, w: World, w1: World, w2: World, h: Hash, checksum: Checksum,
                         body: Bytes, now: int, faults: Faults, r1: Option<Info>, r2: Option<Info>)
    requires PushOutcome(env, maxBytes, w, w1, h, checksum, body, now, faults, r1)
    requires PushOutcome(env, maxBytes, w, w2, h, checksum, body, now, faults, r2)
    ensures w1 == w2 && r1 == r2
  {
    if Stageable(env, h, checksum, body, faults) && ObjectOutcome(env, w.objects, h, body, faults.call).1.Some? {
      var path, file := BlobStore.RelativePath(h), BlobStore.File(body, now);
      if !faults.publish.LinkFails? && !faults.publish.SyncFails? && !faults.publish.WalkFails? && path !in w.blobs {
        BlobStore.EvictionIsDetermined(w.blobs[path := file], w1.blobs, w2.blobs, maxBytes,
                                       BlobStore.FailingRemoval(faults.publish));
      }
    }
  }

  /** What success means: the object has the payload's CRC and keeps its old bytes if it was
      there, the record describes the payload, and a cache file that is new holds the
      payload. */
  lemma PushSucceeds(env: Env, maxBytes: int, w: World, w': World, h: Hash, checksum: Checksum,
                     body: Bytes, now: int, faults: Faults, info: Info)
    requires PushOutcome(env, maxBytes, w, w', h, checksum, body, now, faults, Some(info))
    requires forall k :: k in w.objects && w.objects[k].form.Checked? ==>
                           w.objects[k].form.crc == env.crc(w.objects[k].data)
                              && w.objects[k].size == |w.objects[k].data|
    requires forall k :: k in w.meta ==> w.meta[k].hash == k
    ensures info.checksum == checksum == env.crc(body) && info.size == |body|
    ensures info.created <==> h !in w.objects
    ensures h in w'.objects && w'.objects[h].form == Checked(checksum) && env.crc(w'.objects[h].data) == checksum
    ensures w'.objects[h].data == if h in w.objects then w.objects[h].data else body
    ensures h in w'.meta && w'.meta[h].checksum == Some(checksum) && w'.meta[h].size == |body|
    ensures info.etag == env.etag(w'.objects[h].data)
    ensures w'.meta[h].etag == OrElse(info.etag, if h in w.meta then w.meta[h].etag else None)
    ensures w'.meta[h].cached <==> BlobStore.ValidHash(h) && BlobStore.RelativePath(h) in w'.blobs
    ensures forall p :: p in w'.blobs ==>
              if p in w.blobs then w'.blobs[p] == w.blobs[p] else w'.blobs[p] == BlobStore.File(body, now)
  {
  }

  const NO_FAULTS := Faults(BlobStore.NoStageFault, NoCallFault, BlobStore.NoPublishFault, Sessions.NoSessionFault)

  /** When no call fails, a push succeeds exactly when its identity is valid, its checksum is
      the payload's, an object that is there has that checksum (and the payload's size, or,
      being legacy, the size its own info states), and a record that is there does not
      contradict it. A refused push changes no metadata. */
  lemma PushSucceedsIff(env: Env, maxBytes: int, w: World, w': World, h: Hash, checksum: Checksum,
                        body: Bytes, now: int, r: Option<Info>)
    requires PushOutcome(env, maxBytes, w, w', h, checksum, body, now, NO_FAULTS, r)
    requires forall k :: k in w.objects && w.objects[k].form.Checked? ==>
                           w.objects[k].form.crc == env.crc(w.objects[k].data)
    requires forall k :: k in w.meta ==> w.meta[k].hash == k
    ensures r.Some? <==>
              && BlobStore.ValidHash(h) && BlobStore.ValidChecksum(checksum) && env.crc(body) == checksum
              && (h in w.objects ==>
                    && env.crc(w.objects[h].data) == checksum
                    && w.objects[h].size == if w.objects[h].form.Legacy? then |w.objects[h].data| else |body|)
              && (h in w.meta && w.meta[h].checksum.Some? ==>
                    w.meta[h].checksum == Some(checksum) && w.meta[h].size == |body|)
    ensures r.None? ==> w'.meta == w.meta
  {
  }

  lemma StoreKeeps(env: Env, objects: Objects, h: Hash, body: Bytes, fault: CallFault)
    ensures var (objects', o) := ObjectOutcome(env, objects, h, body, fault);
            && objects' - {h} == objects - {h}
            && (h in objects ==> h in objects' && objects'[h].data == objects[h].data)
  {
  }

  lemma CommitKeeps(meta: Records, h: Hash, info: Info, cached: bool, fault: CallFault)
    requires h in meta ==> meta[h].hash == h
    ensures CommitOutcome(meta, h, info, cached, fault).0 - {h} == meta - {h}
  {
  }

  /** Whatever fails in it, a push changes no object's bytes, and nothing of another hash but
      evicted cache files. */
  lemma PushKeeps(env: Env, maxBytes: int, w: World, w': World, h: Hash, checksum: Checksum,
                  body: Bytes, now: int, faults: Faults, r: Option<Info>)
    requires PushOutcome(env, maxBytes, w, w', h, checksum, body, now, faults, r)
    requires h in w.meta ==> w.meta[h].hash == h
    ensures h in w.objects ==> h in w'.objects && w'.objects[h].data == w.objects[h].data
    ensures w'.objects - {h} == w.objects - {h} && w'.meta - {h} == w.meta - {h}
    ensures forall p :: p in w'.blobs && p in w.blobs ==> w'.blobs[p] == w.blobs[p]
    ensures forall p :: p in w'.blobs && p !in w.blobs ==>
              BlobStore.ValidHash(h) && p == BlobStore.RelativePath(h) && env.crc(body) == checksum
  {
    StoreKeeps(env, w.objects, h, body, faults.call);
    var info: Option<Info> :| DurableOutcome(env, maxBytes, w.objects, w.blobs, w'.objects, w'.blobs, h, checksum, body,
                                             now, faults, info)
                              && (info.Some? || w'.meta == w.meta);
    if info.Some? {
      CommitKeeps(w.meta, h, info.value, BlobStore.ValidHash(h) && BlobStore.RelativePath(h) in w'.blobs, faults.call);
    }
  }

  // ----- upload sessions

  function NewUpload(id: Sessions.Id, h: Hash, checksum: Checksum, length: int, now: int,
                     expiration: int): Sessions.Session {
    Sessions.NewSession(id, h, checksum, Sessions.Regular, length, [], now, expiration)
  }

  /** up with one more session and its file. */
  ghost function Begun(up: Sessions.Store, session: Sessions.Session, file: Bytes): Sessions.Store {
    Sessions.Store(up.db[session.id := session], up.files[Sessions.Upload(session.id) := file])
  }

  /** up after MarkCompleted(id). */
  ghost function Completed(up: Sessions.Store, id: Sessions.Id): Sessions.Store
    requires id in up.db
  {
    SessionStore.Minus(up, Sessions.CompletionTargets(up.db, id))
  }

  /** The push of a session's file, as its client sees it: when MarkCompleted fails the push has
      happened, but the reply is an error. */
  ghost predicate FinalizedPush(env: Env, maxBytes: int, w: World, w': World, h: Hash, checksum: Checksum,
                                file: Bytes, now: int, faults: Faults, r: Option<Info>) {
    if faults.session.CompleteFails? then
      r.None? && exists pushed :: PushOutcome(env, maxBytes, w, w', h, checksum, file, now, faults, pushed)
    else PushOutcome(env, maxBytes, w, w', h, checksum, file, now, faults, r)
  }

  /** finalizeUpload of session id with that file: only success completes the session. */
  ghost predicate FinalizeOutcome(env: Env, maxBytes: int, w: World, up: Sessions.Store, w': World,
                                  up': Sessions.Store, id: Sessions.Id, h: Hash, checksum: Checksum, file: Bytes,
                                  now: int, faults: Faults, r: Option<Info>)
    requires id in up.db
  {
    if faults.session.OpenFails? then r.None? && w' == w && up' == up
    else
      && FinalizedPush(env, maxBytes, w, w', h, checksum, file, now, faults, r)
      && up' == if r.Some? then Completed(up, id) else up
  }

  // ----- the handlers

  datatype PatchReply = Accepted(offset: int) | Stored(info: Info) | Refused

  class Handler {
    const env: Env
    var objects: Objects
    var meta: Records
    const store: BlobStore.Store
    const uploads: SessionStore.SessionStore
    const directMaxBytes: nat

    constructor (env: Env, store: BlobStore.Store, uploads: SessionStore.SessionStore, directMaxBytes: nat)
      requires store.crc == env.crc && uploads.Valid()
      ensures Valid() && this.env == env && this.store == store && this.uploads == uploads
      ensures this.directMaxBytes == directMaxBytes && objects == map[] && meta == map[]
    {
      this.env, this.store, this.uploads, this.directMaxBytes := env, store, uploads, directMaxBytes;
      objects, meta := map[], map[];
    }

    ghost predicate Valid()
      reads this, uploads
    {
      store.crc == env.crc && uploads.Valid()
    }

    ghost function Stores(): World
      reads this, store
    {
      World(objects, meta, store.blobs)
    }

    /** reconcileLegacyObject with an expected checksum. */
    method Reconcile(h: Hash, expected: Checksum, fault: CallFault) returns (etag: Option<Option<ETag>>)
      requires h in objects
      modifies this`objects
      ensures (objects, etag) == ReconcileOutcome(env, old(objects), h, expected, fault)
    {
      if fault.FailLegacyOpen? { return None; }
      var remote := objects[h];
      var size, checksum := |remote.data|, env.crc(remote.data);
      if size != remote.size { return None; }
      if checksum != expected { return None; }
      if fault.FailLegacyReopen? { return None; }
      var put := Object(Checked(checksum), size, objects[h].data);
      if fault.FailLegacyPut? {
        if fault.effect { objects := objects[h := put]; }
        return None;
      }
      objects := objects[h := put];
      return Some(env.etag(put.data));
    }

    /** The Head, and the Put or comparison, of a staged payload. */
    method StoreObject(h: Hash, body: Bytes, fault: CallFault) returns (r: Option<(bool, Option<ETag>)>)
      modifies this`objects
      ensures (objects, r) == ObjectOutcome(env, old(objects), h, body, fault)
    {
      if fault.FailHead? { return None; }
      if h !in objects {
        if fault.FailOpenStaged? { return None; }
        var put := Object(Checked(env.crc(body)), |body|, body);
        if fault.FailPut? {
          if fault.effect { objects := objects[h := put]; }
          return None;
        }
        objects := objects[h := put];
        return Some((true, env.etag(body)));
      }
      var remote := objects[h];
      if remote.form.Legacy? {
        var migrated := Reconcile(h, env.crc(body), fault);
        if migrated.None? { return None; }
        return Some((false, OrElse(migrated.value, env.etag(remote.data))));
      }
      if remote.form.crc != env.crc(body) || remote.size != |body| { return None; }
      return Some((false, env.etag(remote.data)));
    }

    /** Stages, commits to the object store, publishes; on every path the staging file is
        gone afterwards. */
    method PutPayloadDurably(h: Hash, checksum: Checksum, body: Bytes, tmpId: BlobStore.TmpId, now: int, faults: Faults)
      returns (r: Option<Info>)
      requires Valid() && tmpId !in store.tmp
      modifies this`objects, store
      ensures Valid() && store.tmp == old(store.tmp)
      ensures DurableOutcome(env, store.maxCacheBytes, old(objects), old(store.blobs), objects, store.blobs,
                             h, checksum, body, now, faults, r)
    {
      var staged := store.Stage(h, checksum, body, tmpId, now, faults.stage);
      if staged.Err? { return None; }
      var o := StoreObject(h, store.tmp[tmpId].data, faults.call);
      if o.None? {
        store.Discard(staged.value);
        assert store.tmp == old(store.tmp);
        return None;
      }
      // A failed publish is only logged.
      var published := store.Publish(staged.value, faults.publish);
      r := Some(Info(staged.value.checksum, staged.value.size, o.value.1, o.value.0, body));
      store.Discard(staged.value);
      assert store.tmp == old(store.tmp);
    }

    method CommitPayloadMetadata(h: Hash, info: Info, fault: CallFault) returns (ok: bool)
      requires BlobStore.ValidHash(h)
      modifies this`meta
      ensures (meta, ok) == CommitOutcome(old(meta), h, info, BlobStore.RelativePath(h) in store.blobs, fault)
    {
      if fault.FailStat? { return false; }
      var exists_ := store.Exists(h);
      var cached := exists_.value.Some?;
      if fault.FailMetaGet? { return false; }
      var rec := Record(h, info.etag, Some(info.checksum), info.size, cached);
      if h in meta {
        rec := meta[h];
        if rec.checksum.Some? && (rec.checksum.value != info.checksum || rec.size != info.size) { return false; }
        rec := rec.(checksum := Some(info.checksum), size := info.size, etag := OrElse(info.etag, rec.etag),
                    cached := cached);
      }
      if fault.FailMetaPut? {
        if fault.effect { meta := meta[rec.hash := rec]; }
        return false;
      }
      meta := meta[rec.hash := rec];
      return true;
    }

    /** putPayloadDurably, then commitPayloadMetadata. */
    method Push(h: Hash, checksum: Checksum, body: Bytes, tmpId: BlobStore.TmpId, now: int, faults: Faults)
      returns (r: Option<Info>)
      requires Valid() && tmpId !in store.tmp
      modifies this`objects, this`meta, store
      ensures Valid() && store.tmp == old(store.tmp)
      ensures PushOutcome(env, store.maxCacheBytes, old(Stores()), Stores(), h, checksum, body, now, faults, r)
    {
      r := PutPayloadDurably(h, checksum, body, tmpId, now, faults);
      ghost var info := r;
      if r.Some? {
        var ok := CommitPayloadMetadata(h, r.value, faults.call);
        if !ok { r := None; }
      }
      assert DurableOutcome(env, store.maxCacheBytes, old(objects), old(store.blobs), objects, store.blobs,
                            h, checksum, body, now, faults, info);
    }

    /** A direct push; contentLength is -1 when the client does not say. The announced length
        is held against the limit, but the body only against the limit plus one, so a body
        of unknown length may exceed the limit by a byte. A longer one changes nothing. */
    method DirectPush(h: Hash, checksum: Checksum, body: Bytes, contentLength: int, tmpId: BlobStore.TmpId, now: int,
                      faults: Faults)
      returns (r: Option<Info>)
      requires Valid() && tmpId !in store.tmp && (contentLength == -1 || contentLength == |body|)
      modifies this`objects, this`meta, store
      ensures Valid() && store.tmp == old(store.tmp)
      ensures if |body| <= directMaxBytes + if contentLength == -1 then 1 else 0
              then PushOutcome(env, store.maxCacheBytes, old(Stores()), Stores(), h, checksum, body, now, faults, r)
              else r.None? && Stores() == old(Stores())
    {
      if contentLength > directMaxBytes { return None; }
      if |body| > directMaxBytes + 1 { return None; }
      r := Push(h, checksum, body, tmpId, now, faults);
    }

    /** Pushes the session's file; only after a successful push is the session completed. */
    method FinalizeUpload(id: Sessions.Id, tmpId: BlobStore.TmpId, now: int, faults: Faults) returns (r: Option<Info>)
      requires Valid() && tmpId !in store.tmp
      modifies this`objects, this`meta, store, uploads
      ensures Valid() && store.tmp == old(store.tmp)
      ensures if id in old(uploads.db) && Sessions.Inactive(old(uploads.db)[id], now).None? then
                var session, file := old(uploads.db)[id], old(uploads.files)[Sessions.Upload(id)];
                FinalizeOutcome(env, store.maxCacheBytes, old(Stores()), old(uploads.Contents()), Stores(),
                                uploads.Contents(), id, session.hash, session.checksum, file, now, faults, r)
              else r.None? && Stores() == old(Stores()) && uploads.Contents() == old(uploads.Contents())
    {
      if faults.session.OpenFails? { return None; }
      var temp := uploads.OpenTemp(id, now);
      if temp.Err? { return None; }
      var (file, current) := temp.value;
      r := Push(current.hash, current.checksum, file, tmpId, now, faults);
      if r.None? { return; }
      var completed := uploads.MarkCompleted(id, now, faults.session.CompleteFails?);
      if completed.Err? { return None; }
    }

    /** A tus creation of a regular upload, with a first body or without; bodyOk says that the
        body can be read and has its Upload-Checksum, if one is given. */
    method TusCreateUpload(id: Sessions.Id, h: Hash, checksum: Checksum, length: nat, body: Bytes, bodyOk: bool,
                           tmpId: BlobStore.TmpId, now: int, outcome: Sessions.Outcome, faults: Faults)
      returns (r: PatchReply)
      requires Valid() && tmpId !in store.tmp && uploads.expiration >= 0
      requires id !in uploads.db && Sessions.Upload(id) !in uploads.files
      modifies this`objects, this`meta, store, uploads
      ensures Valid() && store.tmp == old(store.tmp)
      ensures var created := Begun(old(uploads.Contents()),
                                   NewUpload(id, h, checksum, length, now, uploads.expiration), []);
              if faults.session.CreateFails? then
                r == Refused && Stores() == old(Stores()) && uploads.Contents() == old(uploads.Contents())
              else if body == [] then
                r == Accepted(0) && Stores() == old(Stores()) && uploads.Contents() == created
              else
                PatchOutcome(env, store.maxCacheBytes, uploads.expiration, old(Stores()), created, Stores(),
                             uploads.Contents(), id, h, checksum, 0, body, bodyOk, now, outcome, faults, r)
    {
      var created := uploads.Create(id, h, checksum, Sessions.Regular, length, [], now, faults.session.CreateFails?);
      if created.Err? { return Refused; }
      var session := created.value;
      if |body| == 0 { return Accepted(0); }
      if !bodyOk { return Refused; }
      var appended := uploads.Append(id, 0, body, now, now, outcome);
      if appended.Err? { return Refused; }
      session := appended.value;
      if session.offset != session.length { return Accepted(session.offset); }
      var info := FinalizeUpload(id, tmpId, now, faults);
      return if info.Some? then Stored(info.value) else Refused;
    }

    /** One PATCH: append the body at offset, and finalize when the length is reached. */
    method TusPatch(id: Sessions.Id, h: Hash, checksum: Checksum, offset: int, body: Bytes, bodyOk: bool,
                    tmpId: BlobStore.TmpId, now: int, outcome: Sessions.Outcome, faults: Faults) returns (r: PatchReply)
      requires Valid() && tmpId !in store.tmp
      modifies this`objects, this`meta, store, uploads
      ensures Valid() && store.tmp == old(store.tmp)
      ensures PatchOutcome(env, store.maxCacheBytes, uploads.expiration, old(Stores()), old(uploads.Contents()),
                           Stores(),
                           uploads.Contents(), id, h, checksum, offset, body, bodyOk, now, outcome, faults, r)
      ensures var up := old(uploads.Contents());
              !bodyOk || offset < 0 || id !in up.db
              || up.db[id].hash != h || up.db[id].checksum != checksum || up.db[id].offset != offset
              || up.db[id].completedAt.Some? || up.db[id].terminatedAt.Some? || now > up.db[id].expiresAt ==>
                r == Refused && Stores() == old(Stores()) && uploads.Contents() == up
      ensures var up := old(uploads.Contents());
              r.Accepted? ==>
                && id in up.db && up.db[id].hash == h && up.db[id].checksum == checksum
                && offset == up.db[id].offset && r.offset == offset + |body| && r.offset != up.db[id].length
                && uploads.files == up.files[Sessions.Upload(id) := up.files[Sessions.Upload(id)] + body]
    {
      if offset < 0 { return Refused; }
      var got := uploads.Get(id, now);
      if got.Err? { return Refused; }
      if got.value.hash != h || got.value.checksum != checksum { return Refused; }
      if !bodyOk { return Refused; }
      var appended := uploads.Append(id, offset, body, now, now, outcome);
      if appended.Err? { return Refused; }
      var session := appended.value;
      if session.offset != session.length { return Accepted(session.offset); }
      var info := FinalizeUpload(id, tmpId, now, faults);
      return if info.Some? then Stored(info.value) else Refused;
    }

    /** The loop over the references of a final. */
    method LookUp(refs: seq<Sessions.Id>, now: int) returns (partials: Option<seq<Sessions.Session>>)
      ensures partials.Some? <==> AllActive(uploads.db, refs, now)
      ensures partials.Some? ==> partials.value == Listed(uploads.db, refs)
    {
      var found := [];
      for i := 0 to |refs|
        invariant AllActive(uploads.db, refs[..i], now) && found == Listed(uploads.db, refs[..i])
      {
        var partial := uploads.Get(refs[i], now);
        assert refs[i] in refs;
        if partial.Err? { return None; }
        assert refs[..i + 1] == refs[..i] + [refs[i]];
        found := found + [partial.value];
      }
      assert refs[..|refs|] == refs;
      return Some(found);
    }

    /** The creation of a final from a list of upload references: the partials are looked up,
        built into one session, and pushed as one payload. */
    method TusCreateFinal(id: Sessions.Id, refs: seq<Sessions.Id>, h: Hash, checksum: Checksum,
                          tmpId: BlobStore.TmpId, now: int, faults: Faults) returns (r: Option<Info>)
      requires Valid() && tmpId !in store.tmp && uploads.expiration >= 0
      requires id !in uploads.db && Sessions.Upload(id) !in uploads.files
      modifies this`objects, this`meta, store, uploads
      ensures Valid() && store.tmp == old(store.tmp)
      ensures FinalOutcome(env, store.maxCacheBytes, uploads.expiration, old(Stores()), old(uploads.Contents()),
                           Stores(),
                           uploads.Contents(), id, refs, h, checksum, now, faults, r)
    {
      ghost var up := uploads.Contents();
      var found := LookUp(refs, now);
      if found.None? { return None; }
      var partials := found.value;
      ListedMembers(up.db, refs);
      var final := uploads.BuildFinalFromPartials(id, h, checksum, partials, now, now, faults.session);
      if final.Err? { return None; }
      assert final.value == BuiltFinal(id, h, checksum, partials, now, uploads.expiration);
      CompletedFinal(up, refs, final.value, Concatenated(up, refs));
      r := FinalizeUpload(id, tmpId, now, faults);
    }
  }

  ghost predicate AllActive(db: map<Sessions.Id, Sessions.Session>, refs: seq<Sessions.Id>, now: int) {
    forall ref :: ref in refs ==> ref in db && Sessions.Inactive(db[ref], now).None?
  }

  /** The records of the referenced sessions, in order. */
  function Listed(db: map<Sessions.Id, Sessions.Session>, refs: seq<Sessions.Id>): seq<Sessions.Session>
    requires forall ref :: ref in refs ==> ref in db
  {
    if refs == [] then [] else Listed(db, refs[..|refs| - 1]) + [db[refs[|refs| - 1]]]
  }

  /** Completing a final built from the referenced partials removes it and them. */
  lemma CompletedFinal(up: Sessions.Store, refs: seq<Sessions.Id>, final: Sessions.Session, file: Bytes)
    requires SessionStore.Consistent(up) && final.kind.Final? && final.tempPath == Sessions.Upload(final.id)
    requires final.id !in up.db && Sessions.Upload(final.id) !in up.files
    requires (forall ref :: ref in refs ==> ref in up.db) && final.refs == Sessions.Ids(Listed(up.db, refs))
    ensures var begun := Begun(up, final, file);
            Completed(begun, final.id) == SessionStore.Minus(up, set ref | ref in refs)
  {
    var partials := Listed(up.db, refs);
    ListedMembers(up.db, refs);
    SessionStore.CompletingFinalRemovesPartials(up, final, file, partials);
    assert (set p | p in partials :: p.id) == set ref | ref in refs by {
      forall ref | ref in refs
        ensures ref in set p | p in partials :: p.id
      {
        assert up.db[ref] in partials && up.db[ref].id == ref;
      }
    }
  }

  /** Every reference is an active, complete partial of this payload whose file is there. */
  ghost predicate FinalAllowed(up: Sessions.Store, refs: seq<Sessions.Id>, h: Hash, checksum: Checksum, now: int) {
    && AllActive(up.db, refs, now)
    && SessionStore.NoProblem(h, checksum, Listed(up.db, refs), now)
    && SessionStore.AllOpen(up.files, Listed(up.db, refs))
  }

  /** The final's file: the partials' files, in the order of the references. */
  ghost function Concatenated(up: Sessions.Store, refs: seq<Sessions.Id>): Bytes
    requires (forall ref :: ref in refs ==> ref in up.db) && SessionStore.AllOpen(up.files, Listed(up.db, refs))
  {
    Concat(SessionStore.FilesOf(up.files, Listed(up.db, refs)))
  }

  /** What the creation of a final does. A refused final, a failing creation and a broken copy
      change nothing; a failing refresh leaves the final with its file and Offset 0; after
      that, a successful push leaves neither the final nor the partials, and a failed one
      keeps them all. */
  ghost predicate FinalOutcome(env: Env, maxBytes: int, expiration: int, w: World, up: Sessions.Store, w': World,
                               up': Sessions.Store, id: Sessions.Id, refs: seq<Sessions.Id>, h: Hash,
                               checksum: Checksum, now: int, faults: Faults, r: Option<Info>) {
    var fault := faults.session;
    if !FinalAllowed(up, refs, h, checksum, now) || fault.CreateFails? || (fault.CopyBreaks? && fault.at <= |refs|) then
      r.None? && w' == w && up' == up
    else
      var final, file := BuiltFinal(id, h, checksum, Listed(up.db, refs), now, expiration), Concatenated(up, refs);
      if fault.RefreshFails? then r.None? && w' == w && up' == Begun(up, final.(offset := 0), file)
      else
        FinalizeOutcome(env, maxBytes, w, Begun(up, final, file), w', up', id, h, checksum, file, now, faults, r)
  }

  function BuiltFinal(id: Sessions.Id, h: Hash, checksum: Checksum, partials: seq<Sessions.Session>, now: int,
                      expiration: int)
    : Sessions.Session
  {
    var length := Sessions.TotalLength(partials);
    Sessions.NewSession(id, h, checksum, Sessions.Final, length, Sessions.Ids(partials), now, expiration)
    .(offset := length)
  }

  lemma {:induction false} ListedMembers(db: map<Sessions.Id, Sessions.Session>, refs: seq<Sessions.Id>)
    requires forall ref :: ref in refs ==> ref in db
    ensures |Listed(db, refs)| == |refs| && forall i :: 0 <= i < |refs| ==> Listed(db, refs)[i] == db[refs[i]]
    ensures forall ref :: ref in refs ==> db[ref] in Listed(db, refs)
    ensures forall p :: p in Listed(db, refs) ==> exists ref :: ref in refs && db[ref] == p
  {
    if refs != [] {
      ListedMembers(db, refs[..|refs| - 1]);
      assert refs == refs[..|refs| - 1] + [refs[|refs| - 1]];
    }
  }

  function Replied(r: PatchReply): Option<Info> { if r.Stored? then Some(r.info) else None }

  /** What one PATCH does to the world and the sessions. */
  ghost predicate PatchOutcome(env: Env, maxBytes: int, expiration: int, w: World, up: Sessions.Store, w': World,
                               up': Sessions.Store, id: Sessions.Id, h: Hash, checksum: Checksum, offset: int,
                               body: Bytes, bodyOk: bool, now: int, outcome: Sessions.Outcome, faults: Faults,
                               r: PatchReply) {
    var (appended, a) := Sessions.AppendTx(up, id, offset, body, now, now, expiration, outcome);
    if offset < 0 || id !in up.db || up.db[id].hash != h || up.db[id].checksum != checksum
       || Sessions.Inactive(up.db[id], now).Some? || !bodyOk then
      r.Refused? && w' == w && up' == up
    else if a.Err? then
      r.Refused? && w' == w && up' == appended
    else if a.value.offset != a.value.length then
      r == Accepted(a.value.offset) && w' == w && up' == appended
    else if Sessions.Inactive(a.value, now).Some? || a.value.tempPath !in appended.files then
      r.Refused? && w' == w && up' == appended
    else
      && !r.Accepted?
      && FinalizeOutcome(env, maxBytes, w, appended, w', up', id, h, checksum, appended.files[a.value.tempPath], now,
                         faults, Replied(r))
  }

  // ----- chunking does not matter

  /** The session of an upload of length bytes after offset bytes, last touched at now. */
  function UploadAt(id: Sessions.Id, h: Hash, checksum: Checksum, length: int, offset: int, now: int,
                    expiration: int): Sessions.Session {
    NewUpload(id, h, checksum, length, now, expiration).(offset := offset)
  }

  /** State after the first k chunks, the last of them at time now, starting from (w0, up0):
      before the last chunk only the session has grown; after it the whole payload has been
      pushed and the session is gone, or the session keeps every byte. */
  ghost predicate Sent(env: Env, maxBytes: int, expiration: int, w0: World, up0: Sessions.Store, w: World,
                       up: Sessions.Store, id: Sessions.Id, h: Hash, checksum: Checksum, chunks: seq<Bytes>, k: nat,
                       now: int, faults: Faults, r: PatchReply)
    requires k <= |chunks|
  {
    var length, sent := |Concat(chunks)|, Concat(chunks[..k]);
    var growing := Begun(up0, UploadAt(id, h, checksum, length, |sent|, now, expiration), sent);
    if k < |chunks| then
      r.Accepted? && w == w0 && up == growing
    else
      && !r.Accepted?
      && Finished(env, maxBytes, w0, w, h, checksum, Concat(chunks), now, faults, Replied(r))
      && up == if r.Stored? then up0 else growing
  }

  /** What the last chunk does to the world: nothing when the file cannot be opened, and the
      push of the whole payload otherwise. */
  ghost predicate Finished(env: Env, maxBytes: int, w: World, w': World, h: Hash, checksum: Checksum, payload: Bytes,
                           now: int, faults: Faults, r: Option<Info>) {
    if faults.session.OpenFails? then r.None? && w' == w
    else FinalizedPush(env, maxBytes, w, w', h, checksum, payload, now, faults, r)
  }

  ghost predicate NonEmptyChunks(chunks: seq<Bytes>) { forall c :: c in chunks ==> c != [] }

  lemma {:induction false} ConcatSplit(chunks: seq<Bytes>, k: nat)
    requires k < |chunks|
    ensures Concat(chunks[..k + 1]) == Concat(chunks[..k]) + chunks[k]
  {
    assert chunks[..k + 1] == chunks[..k] + [chunks[k]];
    ConcatAppend(chunks[..k], chunks[k]);
  }

  /** A proper prefix of non-empty chunks is shorter than the payload. */
  lemma {:induction false} PrefixShorter(chunks: seq<Bytes>, k: nat)
    requires NonEmptyChunks(chunks) && k <= |chunks|
    ensures |Concat(chunks[..k])| <= |Concat(chunks)|
    ensures |Concat(chunks[..k])| == |Concat(chunks)| <==> k == |chunks|
    decreases |chunks| - k
  {
    if k == |chunks| {
      assert chunks[..k] == chunks;
    } else {
      ConcatSplit(chunks, k);
      PrefixShorter(chunks, k + 1);
      assert chunks[k] in chunks;
    }
  }

  /** Completing an upload that was begun from up0 gives up0 back. */
  lemma CompletedUpload(up0: Sessions.Store, session: Sessions.Session, file: Bytes)
    requires session.id !in up0.db && Sessions.Upload(session.id) !in up0.files
    requires !session.kind.Final? && session.tempPath == Sessions.Upload(session.id)
    ensures var up := Begun(up0, session, file);
            Completed(up, session.id) == up0
  {
    var up := Begun(up0, session, file);
    assert Sessions.CompletionTargets(up.db, session.id) == {session.id};
    assert Sessions.PathsOf(up.db, {session.id}) == {Sessions.Upload(session.id)};
    assert up.db - {session.id} == up0.db;
    assert up.files - {Sessions.Upload(session.id)} == up0.files;
  }

  /** Appending chunk k to the begun upload. */
  lemma ChunkAppended(up0: Sessions.Store, id: Sessions.Id, h: Hash, checksum: Checksum, chunks: seq<Bytes>, k: nat,
                      before: int, now: int, expiration: int)
    requires k < |chunks| && before <= now <= before + expiration
    ensures var length, sent := |Concat(chunks)|, Concat(chunks[..k]);
            var next := UploadAt(id, h, checksum, length, |sent| + |chunks[k]|, now, expiration);
            Sessions.AppendTx(Begun(up0, UploadAt(id, h, checksum, length, |sent|, before, expiration), sent),
                              id, |sent|, chunks[k], now, now, expiration, Sessions.Copied)
            == (Begun(up0, next, Concat(chunks[..k + 1])), Ok(next))
  {
    ConcatSplit(chunks, k);
    var length, sent := |Concat(chunks)|, Concat(chunks[..k]);
    var session := UploadAt(id, h, checksum, length, |sent|, before, expiration);
    var next := UploadAt(id, h, checksum, length, |sent| + |chunks[k]|, now, expiration);
    var up := Begun(up0, session, sent);
    assert Sessions.AppendProblem(up, id, |sent|, now).None?;
    assert up.db[id := next] == up0.db[id := next];
    assert up.files[Sessions.Upload(id) := sent + chunks[k]] == up0.files[Sessions.Upload(id) := sent + chunks[k]];
  }

  /** One more chunk, sent at the offset the server reported and before the session expires. */
  lemma PatchAdvances(env: Env, maxBytes: int, expiration: int, w0: World, up0: Sessions.Store, w: World,
                      up: Sessions.Store,
                      w': World, up': Sessions.Store, id: Sessions.Id, h: Hash, checksum: Checksum, chunks: seq<Bytes>,
                      k: nat, before: int, now: int, faults: Faults, r: PatchReply, r': PatchReply)
    requires NonEmptyChunks(chunks) && k < |chunks| && before <= now <= before + expiration
    requires id !in up0.db && Sessions.Upload(id) !in up0.files
    requires Sent(env, maxBytes, expiration, w0, up0, w, up, id, h, checksum, chunks, k, before, faults, r)
    requires PatchOutcome(env, maxBytes, expiration, w, up, w', up', id, h, checksum, |Concat(chunks[..k])|, chunks[k],
                          true, now, Sessions.Copied, faults, r')
    ensures Sent(env, maxBytes, expiration, w0, up0, w', up', id, h, checksum, chunks, k + 1, now, faults, r')
  {
    ChunkAppended(up0, id, h, checksum, chunks, k, before, now, expiration);
    ConcatSplit(chunks, k);
    PrefixShorter(chunks, k + 1);
    var next := UploadAt(id, h, checksum, |Concat(chunks)|, |Concat(chunks[..k + 1])|, now, expiration);
    if k + 1 == |chunks| {
      assert chunks[..k + 1] == chunks;
      CompletedUpload(up0, next, Concat(chunks));
    }
  }

  method PayloadLength(chunks: seq<Bytes>) returns (length: nat)
    ensures length == |Concat(chunks)|
  {
    length := 0;
    for i := 0 to |chunks|
      invariant length == |Concat(chunks[..i])|
    {
      ConcatSplit(chunks, i);
      length := length + |chunks[i]|;
    }
    assert chunks[..|chunks|] == chunks;
  }

  /** The creation request, with the first chunk in its body or without a body. */
  method BeginUpload(handler: Handler, id: Sessions.Id, h: Hash, checksum: Checksum, chunks: seq<Bytes>,
                     withCreation: bool, created: int, tmpId: BlobStore.TmpId, faults: Faults)
    returns (r: PatchReply, k: nat)
    requires handler.Valid() && tmpId !in handler.store.tmp && handler.uploads.expiration >= 0
    requires id !in handler.uploads.db && Sessions.Upload(id) !in handler.uploads.files
    requires chunks != [] && NonEmptyChunks(chunks) && !faults.session.CreateFails?
    modifies handler`objects, handler`meta, handler.store, handler.uploads
    ensures handler.Valid() && handler.store.tmp == old(handler.store.tmp)
    ensures k == if withCreation then 1 else 0
    ensures Sent(handler.env, handler.store.maxCacheBytes, handler.uploads.expiration, old(handler.Stores()),
                 old(handler.uploads.Contents()), handler.Stores(), handler.uploads.Contents(), id, h, checksum, chunks,
                 k, created, faults, r)
  {
    var length := PayloadLength(chunks);
    ghost var w0, up0 := handler.Stores(), handler.uploads.Contents();
    var expiration := handler.uploads.expiration;
    assert chunks[..0] == [] && chunks[0] in chunks;
    ghost var begun := Begun(up0, NewUpload(id, h, checksum, length, created, expiration), []);
    assert begun == Begun(up0, UploadAt(id, h, checksum, length, 0, created, expiration), Concat(chunks[..0]));
    if withCreation {
      r := handler.TusCreateUpload(id, h, checksum, length, chunks[0], true, tmpId, created, Sessions.Copied, faults);
      PatchAdvances(handler.env, handler.store.maxCacheBytes, expiration, w0, up0, w0, begun, handler.Stores(),
                    handler.uploads.Contents(), id, h, checksum, chunks, 0, created, created, faults, Accepted(0), r);
      k := 1;
    } else {
      r := handler.TusCreateUpload(id, h, checksum, length, [], true, tmpId, created, Sessions.Copied, faults);
      k := 0;
    }
  }

  /** A client's schedule: the chunks in order, the first with the creation request or not, each
      sent before the session expires. */
  predicate Schedule(chunks: seq<Bytes>, withCreation: bool, created: int, times: seq<int>, expiration: int) {
    && chunks != [] && |times| == |chunks|
    && (if withCreation then times[0] == created else created <= times[0] <= created + expiration)
    && forall k | 0 <= k < |times| - 1 :: times[k] <= times[k + 1] <= times[k] + expiration
  }

  /** What a chunked upload does from (w, up): a failing creation changes nothing; otherwise the
      whole payload is pushed, and the session and its file are gone after a success and kept
      with every byte after a failure. */
  ghost predicate UploadOutcome(env: Env, maxBytes: int, expiration: int, w: World, up: Sessions.Store, w': World,
                                up': Sessions.Store, id: Sessions.Id, h: Hash, checksum: Checksum, payload: Bytes,
                                now: int, faults: Faults, r: Option<Info>) {
    if faults.session.CreateFails? then r.None? && w' == w && up' == up
    else
      && Finished(env, maxBytes, w, w', h, checksum, payload, now, faults, r)
      && up' == if r.Some? then up
                else Begun(up, UploadAt(id, h, checksum, |payload|, |payload|, now, expiration), payload)
  }

  /** Any in-order split of a non-empty payload into non-empty chunks pushes the payload exactly
      as one direct push would; RoutesAgree compares the two. */
  method UploadInChunks(handler: Handler, id: Sessions.Id, h: Hash, checksum: Checksum, chunks: seq<Bytes>,
                        withCreation: bool, created: int, times: seq<int>, tmpId: BlobStore.TmpId, faults: Faults)
    returns (r: PatchReply)
    requires handler.Valid() && tmpId !in handler.store.tmp && handler.uploads.expiration >= 0
    requires id !in handler.uploads.db && Sessions.Upload(id) !in handler.uploads.files
    requires NonEmptyChunks(chunks) && Schedule(chunks, withCreation, created, times, handler.uploads.expiration)
    modifies handler`objects, handler`meta, handler.store, handler.uploads
    ensures handler.Valid() && handler.store.tmp == old(handler.store.tmp)
    ensures !r.Accepted?
    ensures UploadOutcome(handler.env, handler.store.maxCacheBytes, handler.uploads.expiration, old(handler.Stores()),
                          old(handler.uploads.Contents()), handler.Stores(), handler.uploads.Contents(), id, h,
                          checksum, Concat(chunks), times[|times| - 1], faults, Replied(r))
  {
    if faults.session.CreateFails? {
      var length := PayloadLength(chunks);
      r := handler.TusCreateUpload(id, h, checksum, length, if withCreation then chunks[0] else [], true, tmpId,
                                   created, Sessions.Copied, faults);
      return;
    }
    ghost var w0, up0 := handler.Stores(), handler.uploads.Contents();
    ghost var now := created;
    var expiration := handler.uploads.expiration;
    var k;
    r, k := BeginUpload(handler, id, h, checksum, chunks, withCreation, created, tmpId, faults);
    var offset := if withCreation then |chunks[0]| else 0;
    ConcatSplit(chunks, 0);
    assert chunks[..0] == [];
    while k < |chunks|
      invariant k <= |chunks| && offset == |Concat(chunks[..k])|
      invariant now == if k == 0 then created else times[k - 1]
      invariant handler.Valid() && handler.store.tmp == old(handler.store.tmp)
      invariant Sent(handler.env, handler.store.maxCacheBytes, expiration, w0, up0, handler.Stores(),
                     handler.uploads.Contents(), id, h, checksum, chunks, k, now, faults, r)
    {
      ghost var w, up, r0 := handler.Stores(), handler.uploads.Contents(), r;
      r := handler.TusPatch(id, h, checksum, offset, chunks[k], true, tmpId, times[k], Sessions.Copied, faults);
      PatchAdvances(handler.env, handler.store.maxCacheBytes, expiration, w0, up0, w, up, handler.Stores(),
                    handler.uploads.Contents(), id, h, checksum, chunks, k, now, times[k], faults, r0, r);
      ConcatSplit(chunks, k);
      now, offset, k := times[k], offset + |chunks[k]|, k + 1;
    }
    assert chunks[..k] == chunks;
  }

  /** The routes agree: from equal stores a chunked upload and a direct push of the payload end
      in equal stores, unless the upload fails before its push; they also agree on the reply,
      unless completing the session fails. */
  lemma RoutesAgree(env: Env, maxBytes: int, expiration: int, w: World, up: Sessions.Store, direct: World,
                    chunked: World, up': Sessions.Store, id: Sessions.Id, h: Hash, checksum: Checksum, payload: Bytes,
                    now: int, faults: Faults, rd: Option<Info>, rc: Option<Info>)
    requires PushOutcome(env, maxBytes, w, direct, h, checksum, payload, now, faults, rd)
    requires UploadOutcome(env, maxBytes, expiration, w, up, chunked, up', id, h, checksum, payload, now, faults, rc)
    requires !faults.session.CreateFails? && !faults.session.OpenFails?
    ensures chunked == direct
    ensures !faults.session.CompleteFails? ==> rc == rd
    ensures rc.Some? ==> rd == rc && up' == up
  {
    if faults.session.CompleteFails? {
      var pushed :| PushOutcome(env, maxBytes, w, chunked, h, checksum, payload, now, faults, pushed);
      PushIsDetermined(env, maxBytes, w, direct, chunked, h, checksum, payload, now, faults, rd, pushed);
    } else {
      PushIsDetermined(env, maxBytes, w, direct, chunked, h, checksum, payload, now, faults, rd, rc);
    }
  }

  /** Two servers in equal states, one given the payload by a direct push and one in chunks, are
      in equal states afterwards. */
  method BothRoutes(direct: Handler, chunked: Handler, id: Sessions.Id, h: Hash, checksum: Checksum, chunks: seq<Bytes>,
                    withCreation: bool, created: int, times: seq<int>, tmpId: BlobStore.TmpId, faults: Faults)
    returns (rd: Option<Info>, rc: PatchReply)
    requires direct.Valid() && chunked.Valid() && direct != chunked
    requires direct.store != chunked.store && direct.uploads != chunked.uploads
    requires direct.env == chunked.env && direct.store.maxCacheBytes == chunked.store.maxCacheBytes
    requires direct.Stores() == chunked.Stores() && direct.directMaxBytes >= |Concat(chunks)|
    requires tmpId !in direct.store.tmp && tmpId !in chunked.store.tmp && chunked.uploads.expiration >= 0
    requires id !in chunked.uploads.db && Sessions.Upload(id) !in chunked.uploads.files
    requires NonEmptyChunks(chunks) && Schedule(chunks, withCreation, created, times, chunked.uploads.expiration)
    requires !faults.session.CreateFails? && !faults.session.OpenFails?
    modifies direct`objects, direct`meta, direct.store
    modifies chunked`objects, chunked`meta, chunked.store, chunked.uploads
    ensures chunked.Stores() == direct.Stores()
    ensures !faults.session.CompleteFails? ==> Replied(rc) == rd
    ensures rc.Stored? ==> chunked.uploads.Contents() == old(chunked.uploads.Contents())
  {
    ghost var w, up := direct.Stores(), chunked.uploads.Contents();
    ghost var payload, now := Concat(chunks), times[|times| - 1];
    var body := JoinChunks(chunks);
    rd := direct.DirectPush(h, checksum, body, |body|, tmpId, times[|times| - 1], faults);
    rc := UploadInChunks(chunked, id, h, checksum, chunks, withCreation, created, times, tmpId, faults);
    RoutesAgree(direct.env, direct.store.maxCacheBytes, chunked.uploads.expiration, w, up, direct.Stores(),
                chunked.Stores(), chunked.uploads.Contents(), id, h, checksum, payload, now, faults, rd, Replied(rc));
  }

  method JoinChunks(chunks: seq<Bytes>) returns (payload: Bytes)
    ensures payload == Concat(chunks)
  {
    payload := [];
    for i := 0 to |chunks|
      invariant payload == Concat(chunks[..i])
    {
      ConcatSplit(chunks, i);
      payload := payload + chunks[i];
    }
    assert chunks[..|chunks|] == chunks;
  }

  /** The extra byte of DirectPush: a body one byte over the limit whose length is not announced
      is stored. */
  method OneByteOverTheLimit(handler: Handler, h: Hash, body: Bytes, tmpId: BlobStore.TmpId, now: int)
    returns (r: Option<Info>)
    requires handler.Valid() && tmpId !in handler.store.tmp && handler.objects == map[] && handler.meta == map[]
    requires BlobStore.ValidHash(h) && BlobStore.ValidChecksum(handler.env.crc(body))
    requires |body| == handler.directMaxBytes + 1
    modifies handler`objects, handler`meta, handler.store
    ensures r.Some? && h in handler.objects && handler.objects[h].data == body
  {
    ghost var w := handler.Stores();
    var checksum := handler.env.crc(body);
    r := handler.DirectPush(h, checksum, body, -1, tmpId, now, NO_FAULTS);
    PushSucceedsIff(handler.env, handler.store.maxCacheBytes, w, handler.Stores(), h, checksum, body, now, r);
    PushSucceeds(handler.env, handler.store.maxCacheBytes, w, handler.Stores(), h, checksum, body, now, NO_FAULTS,
                 r.value);
  }
}
