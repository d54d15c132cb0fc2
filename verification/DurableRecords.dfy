/** What the unlocked get-then-put races can and cannot take from a metadata record: a known
    checksum is never lost, an ETag only to a markCached that read the record before. */
module DurableRecords {
  import opened Base
  import opened Durable
  import opened DurableInvariant
  import opened DurableRuns
  import Ranges

  /** The checksum of h is known. */
  ghost predicate Known(meta: map<Hash, Record>, h: Hash) { h in meta && meta[h].checksum.Some? }

  /** After payloadRecord has returned, the record is there with its checksum, and so are the
      records about to be written. */
  ghost predicate Informed(meta: map<Hash, Record>, h: Hash, pc: Pc) {
    match pc
    case Stating(_) => Known(meta, h)
    case Ranging(p) => !p.RangeStat? ==> Known(meta, h) && (p.RangeETag? ==> p.rec.checksum.Some?)
    case Opening(p) => Known(meta, h) && (p.OpenETag? ==> p.rec.checksum.Some?)
    case Pulling(p) =>
      p.CacheAdd? || p.MarkGet? || p.MarkPut? ==> Known(meta, h) && (p.MarkPut? ==> p.rec.checksum.Some?)
    case _ => true
  }

  /** Whatever is about to be written, but by markCached, carries the ETag that the object store
      gives. */
  ghost predicate Stamped(env: Env, objects: map<Hash, Object>, h: Hash, pc: Pc) {
    h in objects && env.etag(objects[h].data).Some? ==>
      match pc
      case Pushing(PushPublish(_, _, etag)) => etag.Some?
      case Pushing(PushUnlock(result)) => result.Some? ==> result.value.etag.Some?
      case Committing(p) => p.info.etag.Some? && (p.CommitPut? ==> p.rec.etag.Some?)
      case Reconciling(p) => p.after.AfterPush? ==> p.after.etag.Some?
      case Recording(RecordPut(rec, _)) => rec.etag.Some?
      case Ranging(RangeETag(rec, _, _, _)) => rec.etag.Some?
      case Opening(OpenETag(rec, _, _)) => rec.etag.Some?
      case _ => true
  }

  ghost predicate KeepsKnown(meta: map<Hash, Record>, meta': map<Hash, Record>) {
    forall h :: Known(meta, h) ==> Known(meta', h)
  }

  /** What one step of a request keeps. */
  ghost predicate StepKeeps(env: Env, h: Hash, st: Stores, st': Stores, pc': Pc) {
    KeepsKnown(st.meta, st'.meta) && Informed(st'.meta, h, pc') && Stamped(env, st'.objects, h, pc')
  }

  ghost predicate Ready(env: Env, r: Rid, h: Hash, st: Stores, pc: Pc) {
    && StoresOk(env, st) && ProcOk(env, st, r, Proc(h, pc))
    && Informed(st.meta, h, pc) && Stamped(env, st.objects, h, pc)
  }

  lemma ResumeInformed(env: Env, objects: map<Hash, Object>, meta: map<Hash, Record>, h: Hash, caller: Caller,
                       rec: Record)
    requires Known(meta, h)
    ensures Informed(meta, h, Resume(caller, rec)) && Stamped(env, objects, h, Resume(caller, rec))
  {
  }

  lemma PushKeeps(env: Env, r: Rid, h: Hash, st: Stores, p: PushPc, st': Stores, pc': Pc)
    requires Ready(env, r, h, st, Pushing(p)) && PushStep(env, r, h, st, p, st', pc')
    ensures StepKeeps(env, h, st, st', pc')
  {
  }

  lemma CommitKeeps(env: Env, r: Rid, h: Hash, st: Stores, p: CommitPc, st': Stores, pc': Pc)
    requires Ready(env, r, h, st, Committing(p)) && CommitStep(h, st, p, st', pc')
    ensures StepKeeps(env, h, st, st', pc')
  {
  }

  lemma ReconcileKeeps(env: Env, r: Rid, h: Hash, st: Stores, p: ReconcilePc, st': Stores, pc': Pc)
    requires Ready(env, r, h, st, Reconciling(p)) && ReconcileStep(env, h, st, p, st', pc')
    ensures StepKeeps(env, h, st, st', pc')
  {
  }

  lemma RecordKeeps(env: Env, r: Rid, h: Hash, st: Stores, p: RecordPc, st': Stores, pc': Pc)
    requires Ready(env, r, h, st, Recording(p)) && RecordStep(env, h, st, p, st', pc')
    ensures StepKeeps(env, h, st, st', pc')
  {
    match p
    case RecordGet(caller) =>
      if Known(st.meta, h) { ResumeInformed(env, st.objects, st.meta, h, caller, st.meta[h]); }
    case RecordPut(rec, caller) => ResumeInformed(env, st'.objects, WithRecord(st, rec).meta, h, caller, rec);
    case _ =>
  }

  lemma RangeKeeps(env: Env, r: Rid, h: Hash, st: Stores, p: RangePc, st': Stores, pc': Pc)
    requires Ready(env, r, h, st, Ranging(p)) && RangeStep(env, h, st, p, st', pc')
    ensures StepKeeps(env, h, st, st', pc')
  {
  }

  lemma OpenKeeps(env: Env, r: Rid, h: Hash, st: Stores, p: OpenPc, st': Stores, pc': Pc)
    requires Ready(env, r, h, st, Opening(p)) && OpenStep(env, h, st, p, st', pc')
    ensures StepKeeps(env, h, st, st', pc')
  {
  }

  lemma PullKeeps(env: Env, r: Rid, h: Hash, st: Stores, p: PullPc, st': Stores, pc': Pc)
    requires Ready(env, r, h, st, Pulling(p)) && PullStep(h, st, p, st', pc')
    ensures StepKeeps(env, h, st, st', pc')
  {
  }

  lemma ActKeeps(env: Env, r: Rid, h: Hash, st: Stores, pc: Pc, st': Stores, pc': Pc)
    requires Ready(env, r, h, st, pc) && Act(env, r, h, st, pc, st', pc')
    ensures StepKeeps(env, h, st, st', pc')
  {
    if !CallFails(st, pc, st', pc') {
      match pc
      case Pushing(p) => PushKeeps(env, r, h, st, p, st', pc');
      case Committing(p) => CommitKeeps(env, r, h, st, p, st', pc');
      case Reconciling(p) => ReconcileKeeps(env, r, h, st, p, st', pc');
      case Recording(p) => RecordKeeps(env, r, h, st, p, st', pc');
      case Ranging(p) => RangeKeeps(env, r, h, st, p, st', pc');
      case Opening(p) => OpenKeeps(env, r, h, st, p, st', pc');
      case Pulling(p) => PullKeeps(env, r, h, st, p, st', pc');
      case _ =>
    }
  }

  ghost predicate AllInformed(env: Env, s: System) {
    forall r :: r in s.procs ==>
      Informed(s.st.meta, s.procs[r].hash, s.procs[r].pc) && Stamped(env, s.st.objects, s.procs[r].hash, s.procs[r].pc)
  }

  /** No step of another request takes this knowledge away. */
  lemma InformedStays(env: Env, st: Stores, st': Stores, p: Proc)
    requires KeepsKnown(st.meta, st'.meta) && Evolves(env, st.objects, st'.objects)
    requires Informed(st.meta, p.hash, p.pc) && Stamped(env, st.objects, p.hash, p.pc)
    requires Local(env, st.objects, p.hash, p.pc)
    ensures Informed(st'.meta, p.hash, p.pc) && Stamped(env, st'.objects, p.hash, p.pc)
  {
  }

  lemma SpawnInformed(env: Env, s: System, s': System, r: Rid, p: Proc)
    requires AllInformed(env, s) && Spawn(env, s, s', r, p)
    ensures AllInformed(env, s') && s'.st == s.st
  {
  }

  lemma CrashInformed(env: Env, s: System, s': System)
    requires AllInformed(env, s) && Crash(s, s')
    ensures AllInformed(env, s') && s'.st.meta == s.st.meta
  {
  }

  lemma NextInformed(env: Env, s: System, s': System)
    requires Inv(env, s) && AllInformed(env, s) && Next(env, s, s')
    ensures AllInformed(env, s') && KeepsKnown(s.st.meta, s'.st.meta)
  {
    if r, p :| Spawn(env, s, s', r, p) {
      SpawnInformed(env, s, s', r, p);
    } else if r, pc' :| Move(env, s, s', r, pc') {
      MoveInformed(env, s, s', r, pc');
    } else {
      CrashInformed(env, s, s');
    }
  }

  lemma MoveInformed(env: Env, s: System, s': System, r: Rid, pc': Pc)
    requires Inv(env, s) && AllInformed(env, s) && Move(env, s, s', r, pc')
    ensures AllInformed(env, s') && KeepsKnown(s.st.meta, s'.st.meta)
  {
    var p := s.procs[r];
    assert ProcOk(env, s.st, r, p);
    ActKeeps(env, r, p.hash, s.st, p.pc, s'.st, pc');
    ActOk(env, r, p.hash, s.st, p.pc, s'.st, pc');
    forall q | q in s'.procs && q != r
      ensures Informed(s'.st.meta, s'.procs[q].hash, s'.procs[q].pc)
      ensures Stamped(env, s'.st.objects, s'.procs[q].hash, s'.procs[q].pc)
    {
      assert ProcOk(env, s.st, q, s.procs[q]);
      InformedStays(env, s.st, s'.st, s.procs[q]);
    }
  }

  lemma {:induction false} RunInformed(env: Env, run: seq<System>, i: nat)
    requires IsRun(env, run) && i < |run|
    ensures AllInformed(env, run[i])
  {
    if i > 0 {
      RunInformed(env, run, i - 1);
      RunInv(env, run, i - 1);
      assert StepAt(env, run, i - 1);
      NextInformed(env, run[i - 1], run[i]);
    }
  }

  lemma RunStepKeeps(env: Env, run: seq<System>, i: nat)
    requires IsRun(env, run) && i + 1 < |run|
    ensures KeepsKnown(run[i].st.meta, run[i + 1].st.meta)
  {
    RunInformed(env, run, i);
    RunInv(env, run, i);
    assert StepAt(env, run, i);
    NextInformed(env, run[i], run[i + 1]);
  }

  lemma {:induction false} KnownStays(env: Env, run: seq<System>, i: nat, j: nat, h: Hash)
    requires IsRun(env, run) && i <= j < |run| && Known(run[i].st.meta, h)
    ensures Known(run[j].st.meta, h)
    decreases j - i
  {
    if i < j {
      KnownStays(env, run, i, j - 1, h);
      RunStepKeeps(env, run, j - 1);
    }
  }

  /** No backfilled checksum is ever lost: a record whose checksum is known keeps that checksum
      for the rest of the run, whatever older records other requests still have to write. */
  lemma ChecksumNeverLost(env: Env, run: seq<System>, i: nat, j: nat, h: Hash)
    requires IsRun(env, run) && i <= j < |run| && h in run[i].st.meta && run[i].st.meta[h].checksum.Some?
    ensures h in run[j].st.meta && run[j].st.meta[h].checksum == run[i].st.meta[h].checksum
  {
    KnownStays(env, run, i, j, h);
    MetadataAgrees(env, run, i, h);
    MetadataAgrees(env, run, j, h);
    ObjectsNeverChange(env, run, i, j, h);
  }

  // ----- ETags

  /** r writes the record it read before the ETag was recorded. */
  ghost predicate TakesBack(s: System, s': System, r: Rid, h: Hash) {
    && r in s.procs && s.procs[r].hash == h && s.procs[r].pc.Pulling? && s.procs[r].pc.pull.MarkPut?
    && s.procs[r].pc.pull.rec.etag.None?
    && s'.st == WithRecord(s.st, s.procs[r].pc.pull.rec)
  }

  ghost predicate TakenBack(s: System, s': System, h: Hash) { exists r :: TakesBack(s, s', r, h) }

  lemma ActETag(env: Env, r: Rid, h: Hash, st: Stores, pc: Pc, st': Stores, pc': Pc, g: Hash)
    requires Ready(env, r, h, st, pc) && Act(env, r, h, st, pc, st', pc')
    requires g in st.meta && st.meta[g].etag.Some? && env.etag(st.objects[g].data).Some? && g in st.objects
    ensures g in st'.meta
    ensures st'.meta[g].etag.None? ==>
              g == h && pc.Pulling? && pc.pull.MarkPut? && pc.pull.rec.etag.None? && st' == WithRecord(st, pc.pull.rec)
  {
    if !CallFails(st, pc, st', pc') && st' != st {
      assert pc.Committing? || pc.Recording? || pc.Ranging? || pc.Opening? || pc.Pulling? || st'.meta == st.meta;
    }
  }

  /** In a step of a run the ETag of an object that has one disappears from its record if and
      only if the step is the write of a markCached that read the record before the ETag was
      recorded. */
  lemma ETagLostIff(env: Env, run: seq<System>, i: nat, h: Hash)
    requires IsRun(env, run) && i + 1 < |run| && h in run[i].st.meta && run[i].st.meta[h].etag.Some?
    ensures h in run[i].st.objects && run[i].st.meta[h].etag == env.etag(run[i].st.objects[h].data)
    ensures h in run[i + 1].st.meta
    ensures run[i + 1].st.meta[h].etag.None? <==> TakenBack(run[i], run[i + 1], h)
  {
    RunInv(env, run, i);
    RunInformed(env, run, i);
    MetadataAgrees(env, run, i, h);
    assert StepAt(env, run, i);
    var s, s' := run[i], run[i + 1];
    if r :| TakesBack(s, s', r, h) {
      assert ProcOk(env, s.st, r, s.procs[r]);
    }
    if r, p :| Spawn(env, s, s', r, p) {
    } else if r, pc' :| Move(env, s, s', r, pc') {
      MoveETag(env, s, s', r, pc', h);
    } else {
      assert Crash(s, s');
    }
  }

  lemma MoveETag(env: Env, s: System, s': System, r: Rid, pc': Pc, h: Hash)
    requires Inv(env, s) && AllInformed(env, s) && Move(env, s, s', r, pc')
    requires h in s.st.meta && s.st.meta[h].etag.Some? && h in s.st.objects && env.etag(s.st.objects[h].data).Some?
    ensures h in s'.st.meta && (s'.st.meta[h].etag.None? ==> TakesBack(s, s', r, h))
  {
    assert ProcOk(env, s.st, r, s.procs[r]);
    ActETag(env, r, s.procs[r].hash, s.st, s.procs[r].pc, s'.st, pc', h);
  }

  // ----- an ETag that is taken back

  const BODY: Bytes := [0]

  const OLD_RECORD := Record(SAMPLE_HASH, None, Some(SAMPLE_CHECKSUM), 1, true)

  const NEW_RECORD := Record(SAMPLE_HASH, Some(1), Some(SAMPLE_CHECKSUM), 1, true)

  const PUSHED_INFO := Info(SAMPLE_CHECKSUM, 1, Some(1), false, BODY)

  ghost function RaceEnv(): Env {
    Env((b: Bytes) => SAMPLE_CHECKSUM, (b: Bytes) => Some(1), iset{}, iset{BODY})
  }

  /** A stored and cached payload with this record. */
  ghost function RaceStores(rec: Record, locks: map<nat, Rid>): Stores {
    Stores(map[SAMPLE_HASH := Object(Checked(SAMPLE_CHECKSUM), 1, BODY)], map[SAMPLE_HASH := rec],
           map[SAMPLE_HASH := BODY], map[], locks)
  }

  ghost function OnePull(pc: Pc): System {
    System(RaceStores(OLD_RECORD, map[]), map[0 := Proc(SAMPLE_HASH, pc)])
  }

  /** The pull is about to write the record it has read, and a push is at pc. */
  ghost function PullAndPush(st: Stores, pc: Pc): System {
    System(st, map[0 := Proc(SAMPLE_HASH, Pulling(MarkPut(OLD_RECORD, BODY, None, BODY))), 1 := Proc(SAMPLE_HASH, pc)])
  }

  lemma Extended(run: seq<System>, s: System) returns (run': seq<System>)
    requires IsRun(RaceEnv(), run) && Next(RaceEnv(), run[|run| - 1], s)
    ensures IsRun(RaceEnv(), run') && run' == run + [s]
  {
    run' := run + [s];
    forall i | 0 <= i < |run'| - 1
      ensures StepAt(RaceEnv(), run', i)
    {
      if i < |run| - 1 { assert StepAt(RaceEnv(), run, i); }
    }
  }

  lemma PullStepped(run: seq<System>, pc: Pc, pc': Pc) returns (run': seq<System>)
    requires IsRun(RaceEnv(), run) && run[|run| - 1] == OnePull(pc)
    requires var st := RaceStores(OLD_RECORD, map[]); Proceeds(RaceEnv(), 0, SAMPLE_HASH, st, pc, st, pc')
    ensures IsRun(RaceEnv(), run') && run' == run + [OnePull(pc')]
  {
    var st := RaceStores(OLD_RECORD, map[]);
    assert Act(RaceEnv(), 0, SAMPLE_HASH, st, pc, st, pc');
    assert OnePull(pc').procs == OnePull(pc).procs[0 := OnePull(pc).procs[0].(pc := pc')];
    assert Move(RaceEnv(), OnePull(pc), OnePull(pc'), 0, pc');
    run' := Extended(run, OnePull(pc'));
  }

  lemma PushStepped(run: seq<System>, st: Stores, pc: Pc, st': Stores, pc': Pc) returns (run': seq<System>)
    requires IsRun(RaceEnv(), run) && run[|run| - 1] == PullAndPush(st, pc)
    requires Proceeds(RaceEnv(), 1, SAMPLE_HASH, st, pc, st', pc')
    ensures IsRun(RaceEnv(), run') && run' == run + [PullAndPush(st', pc')]
  {
    var s, s' := PullAndPush(st, pc), PullAndPush(st', pc');
    assert Act(RaceEnv(), 1, SAMPLE_HASH, st, pc, st', pc');
    assert s'.procs == s.procs[1 := s.procs[1].(pc := pc')];
    assert Move(RaceEnv(), s, s', 1, pc');
    run' := Extended(run, s');
  }

  lemma PullBegun() returns (run: seq<System>)
    ensures IsRun(RaceEnv(), run) && run[|run| - 1] == OnePull(Pulling(PullMem(None)))
  {
    var s0 := System(RaceStores(OLD_RECORD, map[]), map[]);
    run := [s0];
    assert IsRun(RaceEnv(), run);
    var s1 := OnePull(Pulling(PullMem(None)));
    assert s1.procs == s0.procs[0 := Proc(SAMPLE_HASH, Pulling(PullMem(None)))];
    assert Spawn(RaceEnv(), s0, s1, 0, Proc(SAMPLE_HASH, Pulling(PullMem(None))));
    run := Extended(run, s1);
  }

  /** A pull from disk, up to its record. */
  lemma PullOpened() returns (run: seq<System>)
    ensures IsRun(RaceEnv(), run) && run[|run| - 1] == OnePull(Opening(OpenStat(OLD_RECORD, None)))
  {
    run := PullBegun();
    run := PullStepped(run, Pulling(PullMem(None)), Recording(RecordGet(ForOpen(None))));
    run := PullStepped(run, Recording(RecordGet(ForOpen(None))), Recording(RecordGet(ForDiskOrRemote(None))));
    run := PullStepped(run, Recording(RecordGet(ForDiskOrRemote(None))), Opening(OpenStat(OLD_RECORD, None)));
  }

  /** It has added the payload to the memory cache, where it does not stay, and read the record
      to mark it as cached. */
  lemma PullRead() returns (run: seq<System>)
    ensures IsRun(RaceEnv(), run) && run[|run| - 1] == OnePull(Pulling(MarkPut(OLD_RECORD, BODY, None, BODY)))
  {
    run := PullOpened();
    run := PullStepped(run, Opening(OpenStat(OLD_RECORD, None)), Opening(OpenDisk(None)));
    run := PullStepped(run, Opening(OpenDisk(None)), Pulling(CacheAdd(BODY, None, BODY)));
    run := PullStepped(run, Pulling(CacheAdd(BODY, None, BODY)), Pulling(MarkGet(BODY, None, BODY)));
    run := PullStepped(run, Pulling(MarkGet(BODY, None, BODY)), Pulling(MarkPut(OLD_RECORD, BODY, None, BODY)));
  }

  /** A push of the payload comes in between. */
  lemma PushBegun() returns (run: seq<System>)
    ensures IsRun(RaceEnv(), run)
    ensures run[|run| - 1] == PullAndPush(RaceStores(OLD_RECORD, map[0 := 1]), Pushing(PushHead(BODY)))
  {
    var st := RaceStores(OLD_RECORD, map[]);
    assert Shard(SAMPLE_HASH) == 0;
    run := PullRead();
    var s, s' := run[|run| - 1], PullAndPush(st, Pushing(PushStage(BODY, SAMPLE_CHECKSUM)));
    assert s'.procs == s.procs[1 := Proc(SAMPLE_HASH, Pushing(PushStage(BODY, SAMPLE_CHECKSUM)))];
    assert Spawn(RaceEnv(), s, s', 1, Proc(SAMPLE_HASH, Pushing(PushStage(BODY, SAMPLE_CHECKSUM))));
    run := Extended(run, s');
    run := PushStepped(run, st, Pushing(PushStage(BODY, SAMPLE_CHECKSUM)), st, Pushing(PushLock(BODY)));
    run := PushStepped(run, st, Pushing(PushLock(BODY)), RaceStores(OLD_RECORD, map[0 := 1]), Pushing(PushHead(BODY)));
  }

  lemma PushReleased() returns (run: seq<System>)
    ensures IsRun(RaceEnv(), run)
    ensures run[|run| - 1] == PullAndPush(RaceStores(OLD_RECORD, map[]), Committing(CommitExists(PUSHED_INFO)))
  {
    var held := RaceStores(OLD_RECORD, map[0 := 1]);
    assert Shard(SAMPLE_HASH) == 0;
    run := PushBegun();
    run := PushStepped(run, held, Pushing(PushHead(BODY)), held, Pushing(PushPublish(BODY, false, Some(1))));
    run := PushStepped(run, held, Pushing(PushPublish(BODY, false, Some(1))), held,
                       Pushing(PushUnlock(Some(PUSHED_INFO))));
    run := PushStepped(run, held, Pushing(PushUnlock(Some(PUSHED_INFO))), RaceStores(OLD_RECORD, map[]),
                       Committing(CommitExists(PUSHED_INFO)));
  }

  /** It records the ETag. */
  lemma PushRecorded() returns (run: seq<System>)
    ensures IsRun(RaceEnv(), run)
    ensures run[|run| - 1] == PullAndPush(RaceStores(NEW_RECORD, map[]), PushDone(PUSHED_INFO))
  {
    var st := RaceStores(OLD_RECORD, map[]);
    run := PushReleased();
    run := PushStepped(run, st, Committing(CommitExists(PUSHED_INFO)), st, Committing(CommitGet(PUSHED_INFO, true)));
    run := PushStepped(run, st, Committing(CommitGet(PUSHED_INFO, true)), st,
                       Committing(CommitPut(PUSHED_INFO, NEW_RECORD)));
    run := PushStepped(run, st, Committing(CommitPut(PUSHED_INFO, NEW_RECORD)), RaceStores(NEW_RECORD, map[]),
                       PushDone(PUSHED_INFO));
  }

  /** A run in which the pull then writes its older record, and the ETag is gone. */
  lemma MarkCachedTakesBack() returns (run: seq<System>)
    ensures IsRun(RaceEnv(), run) && |run| >= 2
    ensures var s, s' := run[|run| - 2], run[|run| - 1];
            && s.st.meta == map[SAMPLE_HASH := NEW_RECORD] && Pushed(s, 1, SAMPLE_HASH, PUSHED_INFO)
            && s'.st.meta == map[SAMPLE_HASH := OLD_RECORD] && TakesBack(s, s', 0, SAMPLE_HASH)
  {
    run := PushRecorded();
    var s := run[|run| - 1];
    var pc, pc' := Pulling(MarkPut(OLD_RECORD, BODY, None, BODY)), PullDone(BODY, None, BODY);
    var st' := RaceStores(OLD_RECORD, map[]);
    var s' := System(st', s.procs[0 := s.procs[0].(pc := pc')]);
    assert Act(RaceEnv(), 0, SAMPLE_HASH, s.st, pc, st', pc');
    assert Move(RaceEnv(), s, s', 0, pc');
    run := Extended(run, s');
  }
}
