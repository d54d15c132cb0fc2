/** A push handled by itself is a run of one request of the interleaved protocol, so the
    results about every interleaving hold of the handlers of module PushRoutes too. */
module PushRefinement {
  import opened Base
  import opened Durable
  import opened PushRoutes
  import BlobStore

  /** Request r for h gets from (st, pc) to (st', pc') in n steps of its own. */
  ghost predicate Reaches(env: Env, r: Rid, h: Hash, st: Stores, pc: Pc, st': Stores, pc': Pc, n: nat)
    decreases n
  {
    if n == 0 then st == st' && pc == pc'
    else exists st1, pc1 :: Act(env, r, h, st, pc, st1, pc1) && Reaches(env, r, h, st1, pc1, st', pc', n - 1)
  }

  /** The cache files, seen by hash. */
  ghost predicate Abstracts(disk: map<Hash, Bytes>, blobs: BlobStore.Files) {
    && (forall h :: h in disk ==> BlobStore.ValidHash(h))
    && (forall h :: BlobStore.ValidHash(h) ==> (h in disk <==> BlobStore.RelativePath(h) in blobs))
    && (forall h :: h in disk ==> disk[h] == blobs[BlobStore.RelativePath(h)].data)
  }

  /** Where reconcileLegacyObject's answer takes a push. */
  function AfterMigration(body: Bytes, etag: Option<ETag>, o: Option<Option<ETag>>): Pc {
    Pushing(if o.None? then PushUnlock(None) else PushPublish(body, false, OrElse(o.value, etag)))
  }

  /** Where Head and Put or compare take a push. */
  function AfterStore(body: Bytes, o: Option<(bool, Option<ETag>)>): Pc {
    Pushing(if o.None? then PushUnlock(None) else PushPublish(body, o.value.0, o.value.1))
  }

  function Answered(result: Option<Info>): Pc {
    if result.Some? then PushDone(result.value) else Failed
  }

  lemma Prepend(env: Env, r: Rid, h: Hash, st: Stores, pc: Pc, st1: Stores, pc1: Pc, st': Stores, pc': Pc, n: nat)
    requires Act(env, r, h, st, pc, st1, pc1) && Reaches(env, r, h, st1, pc1, st', pc', n)
    ensures Reaches(env, r, h, st, pc, st', pc', n + 1)
  {
  }

  lemma PrependPush(env: Env, r: Rid, h: Hash, st: Stores, p: PushPc, st1: Stores, pc1: Pc, st': Stores, pc': Pc,
                    n: nat)
    requires PushStep(env, r, h, st, p, st1, pc1) && Reaches(env, r, h, st1, pc1, st', pc', n)
    ensures Reaches(env, r, h, st, Pushing(p), st', pc', n + 1)
  {
    Prepend(env, r, h, st, Pushing(p), st1, pc1, st', pc', n);
  }

  lemma PrependCommit(env: Env, r: Rid, h: Hash, st: Stores, p: CommitPc, st1: Stores, pc1: Pc, st': Stores, pc': Pc,
                      n: nat)
    requires CommitStep(h, st, p, st1, pc1) && Reaches(env, r, h, st1, pc1, st', pc', n)
    ensures Reaches(env, r, h, st, Committing(p), st', pc', n + 1)
  {
    Prepend(env, r, h, st, Committing(p), st1, pc1, st', pc', n);
  }

  lemma PrependReconcile(env: Env, r: Rid, h: Hash, st: Stores, p: ReconcilePc, st1: Stores, pc1: Pc, st': Stores,
                         pc': Pc, n: nat)
    requires ReconcileStep(env, h, st, p, st1, pc1) && Reaches(env, r, h, st1, pc1, st', pc', n)
    ensures Reaches(env, r, h, st, Reconciling(p), st', pc', n + 1)
  {
    Prepend(env, r, h, st, Reconciling(p), st1, pc1, st', pc', n);
  }

  lemma PrependFailure(env: Env, r: Rid, h: Hash, st: Stores, pc: Pc, st': Stores, pc': Pc, n: nat)
    requires CallFails(st, pc, st, Abort(pc)) && Reaches(env, r, h, st, Abort(pc), st', pc', n)
    ensures Reaches(env, r, h, st, pc, st', pc', n + 1)
  {
    Prepend(env, r, h, st, pc, st, Abort(pc), st', pc', n);
  }

  /** commitPayloadMetadata, as the steps after the lock is released. */
  lemma CommitRuns(env: Env, r: Rid, h: Hash, st: Stores, info: Info, fault: CallFault) returns (n: nat)
    ensures var (meta, ok) := CommitOutcome(st.meta, h, info, h in st.disk, fault);
            Reaches(env, r, h, st, Committing(CommitExists(info)), st.(meta := meta),
                    if ok then PushDone(info) else Failed, n)
  {
    var (meta, ok) := CommitOutcome(st.meta, h, info, h in st.disk, fault);
    var st' := st.(meta := meta);
    var pc' := if ok then PushDone(info) else Failed;
    assert Reaches(env, r, h, st', pc', st', pc', 0);
    var cached := h in st.disk;
    if fault.FailStat? {
      assert st' == st;
      PrependFailure(env, r, h, st, Committing(CommitExists(info)), st, Failed, 0);
      n := 1;
      return;
    }
    if fault.FailMetaGet?
       || (h in st.meta && st.meta[h].checksum.Some?
           && (st.meta[h].checksum.value != info.checksum || st.meta[h].size != info.size)) {
      assert st' == st;
      PrependFailure(env, r, h, st, Committing(CommitGet(info, cached)), st, Failed, 0);
      n := 2;
    } else {
      var rec := if h in st.meta
                 then st.meta[h].(checksum := Some(info.checksum), size := info.size,
                                  etag := OrElse(info.etag, st.meta[h].etag), cached := cached)
                 else Record(h, info.etag, Some(info.checksum), info.size, cached);
      if fault.FailMetaPut? && !fault.effect {
        assert st' == st;
        PrependFailure(env, r, h, st, Committing(CommitPut(info, rec)), st', pc', 0);
      } else {
        PrependCommit(env, r, h, st, CommitPut(info, rec), st', pc', st', pc', 0);
      }
      PrependCommit(env, r, h, st, CommitGet(info, cached), st, Committing(CommitPut(info, rec)), st', pc', 1);
      n := 3;
    }
    PrependCommit(env, r, h, st, CommitExists(info), st, Committing(CommitGet(info, cached)), st', pc', n - 1);
  }

  /** The re-Put of a checked legacy object. */
  lemma MigrateRuns(env: Env, r: Rid, h: Hash, st: Stores, body: Bytes, etag: Option<ETag>, fault: CallFault,
                    st': Stores, pc': Pc, m: nat) returns (n: nat)
    requires h in st.objects && |st.objects[h].data| == st.objects[h].size
             && env.crc(st.objects[h].data) == env.crc(body)
    requires !fault.FailLegacyOpen? && !fault.FailLegacyReopen?
    requires var (objects, o) := ReconcileOutcome(env, st.objects, h, env.crc(body), fault);
             Reaches(env, r, h, st.(objects := objects),
                     AfterMigration(body, etag, o), st', pc', m)
    ensures Reaches(env, r, h, st, Reconciling(ReconcileReopen(env.crc(body), |st.objects[h].data|,
                                                               AfterPush(body, etag))), st', pc', n)
  {
    var (objects, outcome) := ReconcileOutcome(env, st.objects, h, env.crc(body), fault);
    var size, data := |st.objects[h].data|, st.objects[h].data;
    var put := ReconcilePut(env.crc(body), size, data, AfterPush(body, etag));
    if fault.FailLegacyPut? && !fault.effect {
      assert st.(objects := objects) == st;
      PrependFailure(env, r, h, st, Reconciling(put), st', pc', m);
    } else {
      var next := AfterMigration(body, etag, outcome);
      PrependReconcile(env, r, h, st, put, st.(objects := objects), next, st', pc', m);
    }
    PrependReconcile(env, r, h, st, ReconcileReopen(env.crc(body), size, AfterPush(body, etag)), st,
                     Reconciling(put), st', pc', m + 1);
    n := m + 2;
  }

  /** reconcileLegacyObject within a push: to Publish with the migrated ETag, or to the
      deferred Unlock. */
  lemma ReconcileRuns(env: Env, r: Rid, h: Hash, st: Stores, body: Bytes, etag: Option<ETag>, fault: CallFault,
                      st': Stores, pc': Pc, m: nat) returns (n: nat)
    requires h in st.objects
    requires var (objects, o) := ReconcileOutcome(env, st.objects, h, env.crc(body), fault);
             Reaches(env, r, h, st.(objects := objects),
                     AfterMigration(body, etag, o), st', pc', m)
    ensures Reaches(env, r, h, st, Reconciling(ReconcileOpen(Some(env.crc(body)), AfterPush(body, etag))), st', pc', n)
  {
    var after := AfterPush(body, etag);
    var expected := env.crc(body);
    var o := st.objects[h];
    var first, second := ReconcileOpen(Some(expected), after), ReconcileReopen(expected, |o.data|, after);
    if fault.FailLegacyOpen? || |o.data| != o.size || env.crc(o.data) != expected {
      assert st.(objects := st.objects) == st;
      PrependFailure(env, r, h, st, Reconciling(first), st', pc', m);
      n := m + 1;
    } else {
      n := CheckedRuns(env, r, h, st, body, etag, fault, st', pc', m);
      PrependReconcile(env, r, h, st, first, st, Reconciling(second), st', pc', n);
      n := n + 1;
    }
  }

  /** The migration of an object that passed the check. */
  lemma CheckedRuns(env: Env, r: Rid, h: Hash, st: Stores, body: Bytes, etag: Option<ETag>, fault: CallFault,
                    st': Stores, pc': Pc, m: nat) returns (n: nat)
    requires h in st.objects && |st.objects[h].data| == st.objects[h].size
             && env.crc(st.objects[h].data) == env.crc(body)
    requires !fault.FailLegacyOpen?
    requires var (objects, o) := ReconcileOutcome(env, st.objects, h, env.crc(body), fault);
             Reaches(env, r, h, st.(objects := objects), AfterMigration(body, etag, o), st', pc', m)
    ensures Reaches(env, r, h, st, Reconciling(ReconcileReopen(env.crc(body), |st.objects[h].data|,
                                                               AfterPush(body, etag))),
                    st', pc', n)
  {
    if fault.FailLegacyReopen? {
      assert st.(objects := st.objects) == st;
      PrependFailure(env, r, h, st,
                     Reconciling(ReconcileReopen(env.crc(body), |st.objects[h].data|,
                                                 AfterPush(body, etag))), st', pc', m);
      n := m + 1;
    } else {
      n := MigrateRuns(env, r, h, st, body, etag, fault, st', pc', m);
    }
  }

  /** The Put of an absent object. */
  lemma AbsentRuns(env: Env, r: Rid, h: Hash, st: Stores, body: Bytes, fault: CallFault, st': Stores, pc': Pc, m: nat)
    requires h !in st.objects && !fault.FailHead?
    requires var (objects, o) := ObjectOutcome(env, st.objects, h, body, fault);
             Reaches(env, r, h, st.(objects := objects), AfterStore(body, o), st', pc', m)
    ensures Reaches(env, r, h, st, Pushing(PushHead(body)), st', pc', m + 2)
  {
    var objects := ObjectOutcome(env, st.objects, h, body, fault).0;
    if fault.FailOpenStaged? || (fault.FailPut? && !fault.effect) {
      assert st.(objects := objects) == st;
      PrependFailure(env, r, h, st, Pushing(PushPut(body)), st', pc', m);
    } else {
      PutRuns(env, r, h, st, body, fault, st', pc', m);
    }
    PrependPush(env, r, h, st, PushHead(body), st, Pushing(PushPut(body)), st', pc', m + 1);
  }

  /** A Put that takes effect, with or without an error. */
  lemma PutRuns(env: Env, r: Rid, h: Hash, st: Stores, body: Bytes, fault: CallFault, st': Stores, pc': Pc, m: nat)
    requires h !in st.objects && !fault.FailHead? && !fault.FailOpenStaged? && (fault.FailPut? ==> fault.effect)
    requires var (objects, o) := ObjectOutcome(env, st.objects, h, body, fault);
             Reaches(env, r, h, st.(objects := objects), AfterStore(body, o), st', pc', m)
    ensures Reaches(env, r, h, st, Pushing(PushPut(body)), st', pc', m + 1)
  {
    var (objects, o) := ObjectOutcome(env, st.objects, h, body, fault);
    var next, put := AfterStore(body, o), WithObject(st, h, env.crc(body), |body|, body);
    assert st.(objects := objects) == put;
    PrependPush(env, r, h, st, PushPut(body), put, next, st', pc', m);
  }

  /** The comparison with an object that has a CRC. */
  lemma ComparedRuns(env: Env, r: Rid, h: Hash, st: Stores, body: Bytes, fault: CallFault, st': Stores, pc': Pc, m: nat)
    requires h in st.objects && st.objects[h].form.Checked? && !fault.FailHead?
    requires Reaches(env, r, h, st, AfterStore(body, ObjectOutcome(env, st.objects, h, body, fault).1), st', pc', m)
    ensures Reaches(env, r, h, st, Pushing(PushHead(body)), st', pc', m + 1)
  {
    var next := AfterStore(body, ObjectOutcome(env, st.objects, h, body, fault).1);
    PrependPush(env, r, h, st, PushHead(body), st, next, st', pc', m);
  }

  /** Head and Put or compare, under the shard lock. */
  lemma StoreRuns(env: Env, r: Rid, h: Hash, st: Stores, body: Bytes, fault: CallFault, st': Stores, pc': Pc, m: nat)
    returns (n: nat)
    requires var (objects, o) := ObjectOutcome(env, st.objects, h, body, fault);
             Reaches(env, r, h, st.(objects := objects),
                     AfterStore(body, o), st', pc', m)
    ensures Reaches(env, r, h, st, Pushing(PushHead(body)), st', pc', n)
  {
    var (objects, o) := ObjectOutcome(env, st.objects, h, body, fault);
    if fault.FailHead? {
      assert st.(objects := objects) == st;
      PrependFailure(env, r, h, st, Pushing(PushHead(body)), st', pc', m);
      n := m + 1;
    } else if h !in st.objects {
      AbsentRuns(env, r, h, st, body, fault, st', pc', m);
      n := m + 2;
    } else if st.objects[h].form.Legacy? {
      n := ReconcileRuns(env, r, h, st, body, env.etag(st.objects[h].data), fault, st', pc', m);
      LegacyHead(env, r, h, st, body, st', pc', n);
      n := n + 1;
    } else {
      assert st.(objects := objects) == st;
      ComparedRuns(env, r, h, st, body, fault, st', pc', m);
      n := m + 1;
    }
  }

  function LegacyOpen(env: Env, st: Stores, h: Hash, body: Bytes): ReconcilePc
    requires h in st.objects
  {
    ReconcileOpen(Some(env.crc(body)), AfterPush(body, env.etag(st.objects[h].data)))
  }

  lemma LegacyHead(env: Env, r: Rid, h: Hash, st: Stores, body: Bytes, st': Stores, pc': Pc, n: nat)
    requires h in st.objects && st.objects[h].form.Legacy?
    requires Reaches(env, r, h, st, Reconciling(LegacyOpen(env, st, h, body)), st', pc', n)
    ensures Reaches(env, r, h, st, Pushing(PushHead(body)), st', pc', n + 1)
  {
    PrependPush(env, r, h, st, PushHead(body), st, Reconciling(LegacyOpen(env, st, h, body)),
                st', pc', n);
  }

  /** Publishing to the cache directory is the protocol's publish step on the cache by hash. */
  lemma PublishRuns(env: Env, r: Rid, h: Hash, st: Stores, blobs: BlobStore.Files, blobs': BlobStore.Files,
                    maxBytes: int,
                    payload: Bytes, now: int, created: bool, etag: Option<ETag>, fault: BlobStore.PublishFault)
    returns (disk: map<Hash, Bytes>)
    requires BlobStore.ValidHash(h) && Abstracts(st.disk, blobs)
    requires BlobStore.PublishEffect(blobs, blobs', BlobStore.RelativePath(h), BlobStore.File(payload, now),
                                     maxBytes, fault)
    ensures Abstracts(disk, blobs')
    ensures PushStep(env, r, h, st, PushPublish(payload, created, etag), st.(disk := disk),
                     Pushing(PushUnlock(Some(Info(env.crc(payload), |payload|, etag, created, payload)))))
  {
    var path := BlobStore.RelativePath(h);
    if blobs' == blobs {
      disk := st.disk;
    } else {
      var linked := st.disk[h := payload];
      disk := map k | k in linked && BlobStore.RelativePath(k) in blobs' :: linked[k];
      forall k | BlobStore.ValidHash(k)
        ensures k in disk <==> BlobStore.RelativePath(k) in blobs'
        ensures k in disk ==> disk[k] == blobs'[BlobStore.RelativePath(k)].data
      {
        if k != h && BlobStore.RelativePath(k) == path { BlobStore.RelativePathInjective(k, h); }
      }
      assert SubMap(disk, linked);
    }
  }

  /** The end of a push: publish, unlock, commit. */
  lemma PublishedRuns(env: Env, maxBytes: int, h: Hash, body: Bytes, now: int, faults: Faults, blobs: BlobStore.Files,
                      blobs': BlobStore.Files, r: Rid, stored: Stores, info: Info) returns (st': Stores, n: nat)
    requires BlobStore.ValidHash(h) && Abstracts(stored.disk, blobs)
    requires BlobStore.PublishEffect(blobs, blobs', BlobStore.RelativePath(h), BlobStore.File(body, now), maxBytes,
                                     faults.publish)
    requires info == InfoFor(env.crc(body), body, (info.created, info.etag))
    ensures var (meta, ok) := CommitOutcome(stored.meta, h, info, BlobStore.RelativePath(h) in blobs', faults.call);
            && Reaches(env, r, h, stored, Pushing(PushPublish(body, info.created, info.etag)), st',
                       if ok then PushDone(info) else Failed, n)
            && st'.meta == meta
    ensures st'.objects == stored.objects && Abstracts(st'.disk, blobs')
    ensures st'.mem == stored.mem && st'.locks == stored.locks - {Shard(h)}
  {
    var disk := PublishRuns(env, r, h, stored, blobs, blobs', maxBytes, body, now, info.created, info.etag,
                            faults.publish);
    var published := stored.(disk := disk);
    var released := published.(locks := published.locks - {Shard(h)});
    n := CommitRuns(env, r, h, released, info, faults.call);
    var (meta, ok) := CommitOutcome(stored.meta, h, info, h in disk, faults.call);
    st' := released.(meta := meta);
    var pc' := if ok then PushDone(info) else Failed;
    PrependPush(env, r, h, published, PushUnlock(Some(info)), released, Committing(CommitExists(info)), st', pc', n);
    PrependPush(env, r, h, stored, PushPublish(body, info.created, info.etag), published,
                Pushing(PushUnlock(Some(info))), st', pc', n + 1);
    n := n + 2;
  }

  /** The start of a push: stage, lock. */
  lemma LockRuns(env: Env, r: Rid, h: Hash, st: Stores, checksum: Checksum, body: Bytes, locked: Stores, st': Stores,
                 pc': Pc, n: nat)
    requires env.crc(body) == checksum && Shard(h) !in st.locks && locked == st.(locks := st.locks[Shard(h) := r])
    requires Reaches(env, r, h, locked, Pushing(PushHead(body)), st', pc', n)
    ensures Reaches(env, r, h, st, Pushing(PushStage(body, checksum)), st', pc', n + 2)
  {
    PrependPush(env, r, h, st, PushLock(body), locked, Pushing(PushHead(body)), st', pc', n);
    PrependPush(env, r, h, st, PushStage(body, checksum), st, Pushing(PushLock(body)), st', pc', n + 1);
  }

  /** A push the object store refuses: unlock, fail. */
  lemma RefusedRuns(env: Env, r: Rid, h: Hash, locked: Stores, body: Bytes, fault: CallFault)
    returns (st': Stores, n: nat)
    requires ObjectOutcome(env, locked.objects, h, body, fault).1.None?
    ensures Reaches(env, r, h, locked, Pushing(PushHead(body)), st', Failed, n)
    ensures st' == locked.(objects := ObjectOutcome(env, locked.objects, h, body, fault).0,
                           locks := locked.locks - {Shard(h)})
  {
    var stored := locked.(objects := ObjectOutcome(env, locked.objects, h, body, fault).0);
    st' := stored.(locks := locked.locks - {Shard(h)});
    assert Reaches(env, r, h, st', Failed, st', Failed, 0);
    PrependPush(env, r, h, stored, PushUnlock(None), st', Failed, st', Failed, 0);
    n := StoreRuns(env, r, h, locked, body, fault, st', Failed, 1);
  }

  /** A push the object store accepts. */
  lemma AcceptedRuns(env: Env, maxBytes: int, w: World, w': World, h: Hash, checksum: Checksum, body: Bytes, now: int,
                     faults: Faults, result: Option<Info>, r: Rid, locked: Stores) returns (st': Stores, n: nat)
    requires PushOutcome(env, maxBytes, w, w', h, checksum, body, now, faults, result)
    requires Stageable(env, h, checksum, body, faults) && ObjectOutcome(env, w.objects, h, body, faults.call).1.Some?
    requires locked.objects == w.objects && locked.meta == w.meta && Abstracts(locked.disk, w.blobs)
    ensures Reaches(env, r, h, locked, Pushing(PushHead(body)), st', Answered(result), n)
    ensures st'.objects == w'.objects && st'.meta == w'.meta && Abstracts(st'.disk, w'.blobs)
    ensures st'.mem == locked.mem && st'.locks == locked.locks - {Shard(h)}
  {
    var (objects, o) := ObjectOutcome(env, w.objects, h, body, faults.call);
    var info := InfoFor(checksum, body, o.value);
    st', n := PublishedRuns(env, maxBytes, h, body, now, faults, w.blobs, w'.blobs, r, locked.(objects := objects),
                            info);
    n := StoreRuns(env, r, h, locked, body, faults.call, st', Answered(result), n);
  }

  /** The push of a staged payload, from the lock on. */
  lemma LockedRuns(env: Env, maxBytes: int, w: World, w': World, h: Hash, checksum: Checksum, body: Bytes, now: int,
                   faults: Faults, result: Option<Info>, r: Rid, locked: Stores) returns (st': Stores, n: nat)
    requires PushOutcome(env, maxBytes, w, w', h, checksum, body, now, faults, result)
    requires Stageable(env, h, checksum, body, faults)
    requires locked.objects == w.objects && locked.meta == w.meta && Abstracts(locked.disk, w.blobs)
    ensures Reaches(env, r, h, locked, Pushing(PushHead(body)), st', Answered(result), n)
    ensures st'.objects == w'.objects && st'.meta == w'.meta && Abstracts(st'.disk, w'.blobs)
    ensures st'.mem == locked.mem && st'.locks == locked.locks - {Shard(h)}
  {
    if ObjectOutcome(env, w.objects, h, body, faults.call).1.None? {
      st', n := RefusedRuns(env, r, h, locked, body, faults.call);
    } else {
      st', n := AcceptedRuns(env, maxBytes, w, w', h, checksum, body, now, faults, result, r, locked);
    }
  }

  /** A whole push handled alone, whatever fails in it, is a run of one protocol request from
      its start to PushDone or Failed, with the same objects, metadata and cache, and with the
      shard lock free again. */
  lemma PushRuns(env: Env, maxBytes: int, w: World, w': World, h: Hash, checksum: Checksum, body: Bytes, now: int,
                 faults: Faults, result: Option<Info>, r: Rid, st: Stores) returns (st': Stores, n: nat)
    requires PushOutcome(env, maxBytes, w, w', h, checksum, body, now, faults, result)
    requires st.objects == w.objects && st.meta == w.meta && Abstracts(st.disk, w.blobs) && Shard(h) !in st.locks
    ensures Reaches(env, r, h, st, Pushing(PushStage(body, checksum)), st', Answered(result), n)
    ensures st'.objects == w'.objects && st'.meta == w'.meta && Abstracts(st'.disk, w'.blobs)
    ensures st'.mem == st.mem && st'.locks == st.locks
  {
    if !Stageable(env, h, checksum, body, faults) {
      st' := st;
      assert Reaches(env, r, h, st, Failed, st, Failed, 0);
      PrependFailure(env, r, h, st, Pushing(PushStage(body, checksum)), st, Failed, 0);
      n := 1;
    } else {
      var locked := st.(locks := st.locks[Shard(h) := r]);
      assert locked.locks - {Shard(h)} == st.locks;
      st', n := LockedRuns(env, maxBytes, w, w', h, checksum, body, now, faults, result, r, locked);
      LockRuns(env, r, h, st, checksum, body, locked, st', Answered(result), n);
      n := n + 2;
    }
  }
}
