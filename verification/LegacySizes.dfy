/** A legacy push may record another size than its object has: a run of the protocol. */
module LegacySizes {
  import opened Base
  import opened Durable
  import opened DurableInvariant
  import opened DurableRuns
  import BlobStore

  const TRAP_PAYLOAD: Bytes := [0, 0]

  /** A CRC that collides, a legacy object of one byte, and a push of two bytes. */
  ghost function TrapEnv(): Env {
    Env((b: Bytes) => SAMPLE_CHECKSUM, (b: Bytes) => Some(1), iset{SAMPLE_HASH}, iset{[0], TRAP_PAYLOAD})
  }

  ghost function TrapStores(form: Form, meta: map<Hash, Record>, disk: map<Hash, Bytes>, locks: map<nat, Rid>): Stores {
    Stores(map[SAMPLE_HASH := Object(form, 1, [0])], meta, disk, map[], locks)
  }

  ghost function TrapSystem(st: Stores, pc: Pc): System {
    System(st, map[0 := Proc(SAMPLE_HASH, pc)])
  }

  /** The server accepts the hash and the checksum. */
  lemma TrapIdentityIsValid()
    ensures BlobStore.ValidHash(SAMPLE_HASH) && BlobStore.ValidChecksum(SAMPLE_CHECKSUM) && Shard(SAMPLE_HASH) == 0
  {
    assert forall i | 0 <= i < 40 :: SAMPLE_HASH[i] == '0';
  }

  lemma ExtendRun(env: Env, run: seq<System>, s: System)
    requires IsRun(env, run) && Next(env, run[|run| - 1], s)
    ensures IsRun(env, run + [s])
  {
    var run' := run + [s];
    forall i | 0 <= i < |run'| - 1
      ensures StepAt(env, run', i)
    {
      if i < |run| - 1 { assert StepAt(env, run, i); }
    }
  }

  lemma TrapStep(run: seq<System>, st: Stores, pc: Pc, st': Stores, pc': Pc) returns (run': seq<System>)
    requires IsRun(TrapEnv(), run) && run[|run| - 1] == TrapSystem(st, pc)
    requires Proceeds(TrapEnv(), 0, SAMPLE_HASH, st, pc, st', pc')
    ensures IsRun(TrapEnv(), run') && run'[|run'| - 1] == TrapSystem(st', pc')
  {
    var s, s' := TrapSystem(st, pc), TrapSystem(st', pc');
    assert Act(TrapEnv(), 0, SAMPLE_HASH, st, pc, st', pc');
    assert s'.procs == s.procs[0 := s.procs[0].(pc := pc')];
    assert Move(TrapEnv(), s, s', 0, pc');
    ExtendRun(TrapEnv(), run, s');
    run' := run + [s'];
  }

  /** The push up to its shard lock. */
  lemma TrapLocked() returns (run: seq<System>)
    ensures IsRun(TrapEnv(), run)
    ensures run[|run| - 1] == TrapSystem(TrapStores(Legacy, map[], map[], map[0 := 0]), Pushing(PushHead(TRAP_PAYLOAD)))
  {
    var free := TrapStores(Legacy, map[], map[], map[]);
    assert Shard(SAMPLE_HASH) == 0;
    var s0 := System(free, map[]);
    run := [s0];
    assert IsRun(TrapEnv(), run);
    var s1 := TrapSystem(free, Pushing(PushStage(TRAP_PAYLOAD, SAMPLE_CHECKSUM)));
    assert Spawn(TrapEnv(), s0, s1, 0, Proc(SAMPLE_HASH, Pushing(PushStage(TRAP_PAYLOAD, SAMPLE_CHECKSUM))));
    ExtendRun(TrapEnv(), run, s1);
    run := run + [s1];
    run := TrapStep(run, free, Pushing(PushStage(TRAP_PAYLOAD, SAMPLE_CHECKSUM)), free,
                    Pushing(PushLock(TRAP_PAYLOAD)));
    run := TrapStep(run, free, Pushing(PushLock(TRAP_PAYLOAD)),
                    TrapStores(Legacy, map[], map[], map[0 := 0]), Pushing(PushHead(TRAP_PAYLOAD)));
  }

  lemma TrapLegacyFound() returns (run: seq<System>)
    ensures IsRun(TrapEnv(), run)
    ensures run[|run| - 1] == TrapSystem(TrapStores(Legacy, map[], map[], map[0 := 0]),
                                         Reconciling(ReconcileOpen(Some(SAMPLE_CHECKSUM),
                                                                   AfterPush(TRAP_PAYLOAD, Some(1)))))
  {
    var held := TrapStores(Legacy, map[], map[], map[0 := 0]);
    run := TrapLocked();
    run := TrapStep(run, held, Pushing(PushHead(TRAP_PAYLOAD)),
                    held, Reconciling(ReconcileOpen(Some(SAMPLE_CHECKSUM), AfterPush(TRAP_PAYLOAD, Some(1)))));
  }

  /** The push up to its Publish, with the legacy object migrated under the lock. */
  lemma TrapMigrated() returns (run: seq<System>)
    ensures IsRun(TrapEnv(), run)
    ensures run[|run| - 1] == TrapSystem(TrapStores(Checked(SAMPLE_CHECKSUM), map[], map[], map[0 := 0]),
                                         Pushing(PushPublish(TRAP_PAYLOAD, false, Some(1))))
  {
    var after := AfterPush(TRAP_PAYLOAD, Some(1));
    var held := TrapStores(Legacy, map[], map[], map[0 := 0]);
    run := TrapLegacyFound();
    run := TrapStep(run, held, Reconciling(ReconcileOpen(Some(SAMPLE_CHECKSUM), after)), held,
                    Reconciling(ReconcileReopen(SAMPLE_CHECKSUM, 1, after)));
    run := TrapStep(run, held, Reconciling(ReconcileReopen(SAMPLE_CHECKSUM, 1, after)), held,
                    Reconciling(ReconcilePut(SAMPLE_CHECKSUM, 1, [0], after)));
    run := TrapStep(run, held, Reconciling(ReconcilePut(SAMPLE_CHECKSUM, 1, [0], after)),
                    TrapStores(Checked(SAMPLE_CHECKSUM), map[], map[], map[0 := 0]),
                    Pushing(PushPublish(TRAP_PAYLOAD, false, Some(1))));
  }

  const TRAP_INFO := Info(SAMPLE_CHECKSUM, 2, Some(1), false, TRAP_PAYLOAD)

  /** The push up to the release of its lock, with its payload in the disk cache. */
  lemma TrapPublished() returns (run: seq<System>)
    ensures IsRun(TrapEnv(), run)
    ensures run[|run| - 1] == TrapSystem(TrapStores(Checked(SAMPLE_CHECKSUM), map[],
                                                    map[SAMPLE_HASH := TRAP_PAYLOAD], map[]),
                                         Committing(CommitExists(TRAP_INFO)))
  {
    var disk: map<Hash, Bytes> := map[SAMPLE_HASH := TRAP_PAYLOAD];
    assert Shard(SAMPLE_HASH) == 0;
    var migrated := TrapStores(Checked(SAMPLE_CHECKSUM), map[], map[], map[0 := 0]);
    var cached := TrapStores(Checked(SAMPLE_CHECKSUM), map[], disk, map[0 := 0]);
    run := TrapMigrated();
    run := TrapStep(run, migrated, Pushing(PushPublish(TRAP_PAYLOAD, false, Some(1))), cached,
                    Pushing(PushUnlock(Some(TRAP_INFO))));
    run := TrapStep(run, cached, Pushing(PushUnlock(Some(TRAP_INFO))),
                    TrapStores(Checked(SAMPLE_CHECKSUM), map[], disk, map[]), Committing(CommitExists(TRAP_INFO)));
  }

  /** The size clauses above cannot be extended to legacy hashes: the legacy branch of a push
      compares only the CRC, so a colliding payload of another size is accepted, cached and
      recorded, and the next remote pull of the hash fails its size check. */
  lemma LegacySizesCanDiffer() returns (run: seq<System>)
    ensures IsRun(TrapEnv(), run)
    ensures var s := run[|run| - 1];
            && Pushed(s, 0, SAMPLE_HASH, TRAP_INFO)
            && SAMPLE_HASH in s.st.meta && SAMPLE_HASH in s.st.objects && SAMPLE_HASH in s.st.disk
            && s.st.meta[SAMPLE_HASH].size == 2 != |s.st.objects[SAMPLE_HASH].data|
            && s.st.disk[SAMPLE_HASH] != s.st.objects[SAMPLE_HASH].data
            && !Validates(s.st.meta[SAMPLE_HASH], RemoteOf(TrapEnv(), SAMPLE_HASH, s.st.objects[SAMPLE_HASH]))
  {
    var disk: map<Hash, Bytes> := map[SAMPLE_HASH := TRAP_PAYLOAD];
    var rec := Record(SAMPLE_HASH, Some(1), Some(SAMPLE_CHECKSUM), 2, true);
    var released := TrapStores(Checked(SAMPLE_CHECKSUM), map[], disk, map[]);
    var recorded := TrapStores(Checked(SAMPLE_CHECKSUM), map[SAMPLE_HASH := rec], disk, map[]);
    run := TrapPublished();
    run := TrapStep(run, released, Committing(CommitExists(TRAP_INFO)), released,
                    Committing(CommitGet(TRAP_INFO, true)));
    run := TrapStep(run, released, Committing(CommitGet(TRAP_INFO, true)), released,
                    Committing(CommitPut(TRAP_INFO, rec)));
    run := TrapStep(run, released, Committing(CommitPut(TRAP_INFO, rec)), recorded, PushDone(TRAP_INFO));
  }

  // ----- and then its pulls fail

  const TRAP_RECORD := Record(SAMPLE_HASH, Some(1), Some(SAMPLE_CHECKSUM), 2, false)

  /** The same push when the disk cache does not take the payload. */
  lemma TrapUncached() returns (run: seq<System>)
    ensures IsRun(TrapEnv(), run)
    ensures run[|run| - 1] == TrapSystem(TrapStores(Checked(SAMPLE_CHECKSUM), map[], map[], map[]),
                                         Committing(CommitExists(TRAP_INFO)))
  {
    assert Shard(SAMPLE_HASH) == 0;
    var held := TrapStores(Checked(SAMPLE_CHECKSUM), map[], map[], map[0 := 0]);
    run := TrapMigrated();
    run := TrapStep(run, held, Pushing(PushPublish(TRAP_PAYLOAD, false, Some(1))), held,
                    Pushing(PushUnlock(Some(TRAP_INFO))));
    run := TrapStep(run, held, Pushing(PushUnlock(Some(TRAP_INFO))),
                    TrapStores(Checked(SAMPLE_CHECKSUM), map[], map[], map[]), Committing(CommitExists(TRAP_INFO)));
  }

  ghost function RecordedStores(): Stores { TrapStores(Checked(SAMPLE_CHECKSUM), map[SAMPLE_HASH := TRAP_RECORD],
                                                       map[], map[]) }

  /** The push is done, and a pull of the hash is at pc. */
  ghost function PullSystem(pc: Pc): System {
    System(RecordedStores(), map[0 := Proc(SAMPLE_HASH, PushDone(TRAP_INFO)), 1 := Proc(SAMPLE_HASH, pc)])
  }

  lemma TrapPullBegun() returns (run: seq<System>)
    ensures IsRun(TrapEnv(), run) && run[|run| - 1] == PullSystem(Pulling(PullMem(None)))
  {
    var released := TrapStores(Checked(SAMPLE_CHECKSUM), map[], map[], map[]);
    run := TrapUncached();
    run := TrapStep(run, released, Committing(CommitExists(TRAP_INFO)), released,
                    Committing(CommitGet(TRAP_INFO, false)));
    run := TrapStep(run, released, Committing(CommitGet(TRAP_INFO, false)), released,
                    Committing(CommitPut(TRAP_INFO, TRAP_RECORD)));
    run := TrapStep(run, released, Committing(CommitPut(TRAP_INFO, TRAP_RECORD)), RecordedStores(),
                    PushDone(TRAP_INFO));
    var s, s' := run[|run| - 1], PullSystem(Pulling(PullMem(None)));
    assert s'.procs == s.procs[1 := Proc(SAMPLE_HASH, Pulling(PullMem(None)))];
    assert Spawn(TrapEnv(), s, s', 1, Proc(SAMPLE_HASH, Pulling(PullMem(None))));
    ExtendRun(TrapEnv(), run, s');
    run := run + [s'];
  }

  lemma TrapPullStep(run: seq<System>, pc: Pc, pc': Pc) returns (run': seq<System>)
    requires IsRun(TrapEnv(), run) && run[|run| - 1] == PullSystem(pc)
    requires Proceeds(TrapEnv(), 1, SAMPLE_HASH, RecordedStores(), pc, RecordedStores(), pc')
    ensures IsRun(TrapEnv(), run') && run' == run + [PullSystem(pc')]
  {
    var s, s' := PullSystem(pc), PullSystem(pc');
    assert Act(TrapEnv(), 1, SAMPLE_HASH, RecordedStores(), pc, RecordedStores(), pc');
    assert s'.procs == s.procs[1 := s.procs[1].(pc := pc')];
    assert Move(TrapEnv(), s, s', 1, pc');
    ExtendRun(TrapEnv(), run, s');
    run' := run + [s'];
  }

  lemma TrapPullLookedUp() returns (run: seq<System>)
    ensures IsRun(TrapEnv(), run) && run[|run| - 1] == PullSystem(Opening(OpenStat(TRAP_RECORD, None)))
  {
    run := TrapPullBegun();
    run := TrapPullStep(run, Pulling(PullMem(None)), Recording(RecordGet(ForOpen(None))));
    run := TrapPullStep(run, Recording(RecordGet(ForOpen(None))), Recording(RecordGet(ForDiskOrRemote(None))));
    run := TrapPullStep(run, Recording(RecordGet(ForDiskOrRemote(None))), Opening(OpenStat(TRAP_RECORD, None)));
  }

  /** A run in which the push succeeds and the next pull fails its remote check, though no call
      of it fails. */
  lemma LegacyPullFails() returns (run: seq<System>)
    ensures IsRun(TrapEnv(), run) && |run| >= 2
    ensures var s, last := run[|run| - 2], run[|run| - 1];
            && Pushed(s, 0, SAMPLE_HASH, TRAP_INFO)
            && s == PullSystem(Opening(OpenHead(TRAP_RECORD, None))) && last == PullSystem(Failed)
            && Proceeds(TrapEnv(), 1, SAMPLE_HASH, s.st, s.procs[1].pc, last.st, Failed)
            && !Validates(TRAP_RECORD, RemoteOf(TrapEnv(), SAMPLE_HASH, s.st.objects[SAMPLE_HASH]))
  {
    run := TrapPullLookedUp();
    run := TrapPullStep(run, Opening(OpenStat(TRAP_RECORD, None)), Opening(OpenHead(TRAP_RECORD, None)));
    run := TrapPullStep(run, Opening(OpenHead(TRAP_RECORD, None)), Failed);
  }
}
