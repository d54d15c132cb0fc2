/** What a read of the durable protocol leaves in the stores when it is handled alone and none
    of its calls fails: a complete record, and the payload marked as cached. */
module DurableEffects {
  import opened Base
  import opened Durable
  import opened DurableInvariant
  import opened DurableAnswers

  /** The record of h is known, and rec is it. */
  ghost predicate Recorded(st: Stores, h: Hash, rec: Record) {
    h in st.meta && st.meta[h] == rec && rec.checksum.Some?
  }

  /** The record of h is known, and has the object's ETag unless the payload is on disk. */
  ghost predicate RecordLeft(env: Env, st: Stores, h: Hash) {
    && h in st.meta && h in st.objects && st.meta[h].checksum.Some?
    && (h !in st.disk ==> st.meta[h].etag == env.etag(st.objects[h].data))
  }

  ghost predicate ETagRead(env: Env, st: Stores, h: Hash, rec: Record) {
    rec.hash == h && rec.checksum.Some? && h in st.objects && rec.etag == env.etag(st.objects[h].data)
  }

  /** What the stores hold when a request that did not find the payload in memory is at pc. */
  ghost predicate Leaves(env: Env, st: Stores, h: Hash, pc: Pc) {
    match pc
    case Stating(rec) => Recorded(st, h, rec)
    case Ranging(RangeHead(rec, _, _)) => Recorded(st, h, rec)
    case Ranging(RangeGet(rec, _, _, _)) => Recorded(st, h, rec)
    case Ranging(RangeETag(rec, _, _, _)) => ETagRead(env, st, h, rec)
    case Opening(OpenStat(rec, _)) => Recorded(st, h, rec)
    case Opening(OpenHead(rec, _)) => Recorded(st, h, rec) && h !in st.disk
    case Opening(OpenETag(rec, _, _)) => ETagRead(env, st, h, rec)
    case Opening(OpenDisk(_)) => h in st.meta && st.meta[h].checksum.Some? && h in st.disk
    case Opening(OpenRemote(_, _)) => RecordLeft(env, st, h)
    case Pulling(CacheAdd(_, _, _)) => RecordLeft(env, st, h)
    case Pulling(MarkGet(_, _, _)) => RecordLeft(env, st, h)
    case Pulling(MarkPut(rec, _, _, _)) => RecordLeft(env, st, h) && rec == st.meta[h].(cached := true)
    case PullDone(_, _, _) => RecordLeft(env, st, h) && (h in st.mem ==> st.meta[h].cached)
    case ExistsDone(_, _) => h in st.meta && st.meta[h].checksum.Some?
    case _ => true
  }

  /** The payload reaches memory only on the way to marking its record. */
  ghost predicate MemoryLeft(st: Stores, h: Hash, pc: Pc) {
    h in st.mem ==> Terminal(pc) || (pc.Pulling? && (pc.pull.MarkGet? || pc.pull.MarkPut?))
  }

  lemma PullLeaves(env: Env, h: Hash, st: Stores, p: PullPc, st': Stores, pc': Pc)
    requires StoresOk(env, st) && h in st.objects && MemoryLeft(st, h, Pulling(p)) && Leaves(env, st, h, Pulling(p))
    requires PullStep(h, st, p, st', pc') && (p.MarkPut? ==> st' == WithRecord(st, p.rec))
    ensures st'.disk == st.disk && MemoryLeft(st', h, pc') && Leaves(env, st', h, pc')
  {
  }

  lemma OpenLeaves(env: Env, h: Hash, st: Stores, p: OpenPc, st': Stores, pc': Pc)
    requires StoresOk(env, st) && OpenKnows(env, st.objects, h, p) && h in st.objects
    requires MemoryLeft(st, h, Opening(p)) && Leaves(env, st, h, Opening(p))
    requires OpenStep(env, h, st, p, st', pc') && (p.OpenETag? ==> !pc'.Failed?)
    ensures st'.disk == st.disk && MemoryLeft(st', h, pc') && Leaves(env, st', h, pc')
  {
  }

  lemma RecordLeaves(env: Env, h: Hash, st: Stores, p: RecordPc, st': Stores, pc': Pc)
    requires StoresOk(env, st) && RecordKnows(env, st.objects, h, p) && h in st.objects
    requires MemoryLeft(st, h, Recording(p))
    requires RecordStep(env, h, st, p, st', pc') && (p.RecordPut? ==> pc' == Resume(p.caller, p.rec))
    ensures st'.disk == st.disk && MemoryLeft(st', h, pc') && Leaves(env, st', h, pc')
  {
  }

  lemma RangeLeaves(env: Env, h: Hash, st: Stores, p: RangePc, st': Stores, pc': Pc)
    requires StoresOk(env, st) && RangeKnows(env, st.objects, h, p) && h in st.objects
    requires MemoryLeft(st, h, Ranging(p)) && Leaves(env, st, h, Ranging(p))
    requires RangeStep(env, h, st, p, st', pc') && (p.RangeETag? ==> pc'.PullDone?)
    ensures st'.disk == st.disk && MemoryLeft(st', h, pc') && Leaves(env, st', h, pc')
  {
  }

  lemma ReconcileLeaves(env: Env, h: Hash, st: Stores, p: ReconcilePc, st': Stores, pc': Pc)
    requires !p.after.AfterPush? && MemoryLeft(st, h, Reconciling(p)) && ReconcileStep(env, h, st, p, st', pc')
    ensures st'.disk == st.disk && MemoryLeft(st', h, pc') && Leaves(env, st', h, pc')
  {
  }

  lemma LookUpLeaves(env: Env, r: Rid, h: Hash, st: Stores, pc: Pc, st': Stores, pc': Pc)
    requires StoresOk(env, st) && Local(env, st.objects, h, pc) && h in st.objects
    requires pc.Recording? || pc.Stating? || (pc.Reconciling? && !pc.reconcile.after.AfterPush?)
    requires MemoryLeft(st, h, pc) && Leaves(env, st, h, pc) && Answers(env, r, h, st, pc, st', pc')
    ensures st'.disk == st.disk && MemoryLeft(st', h, pc') && Leaves(env, st', h, pc')
  {
    match pc
    case Reconciling(p) => ReconcileLeaves(env, h, st, p, st', pc');
    case Recording(p) => RecordLeaves(env, h, st, p, st', pc');
    case Stating(_) =>
  }

  lemma ReadLeaves(env: Env, r: Rid, h: Hash, st: Stores, pc: Pc, st': Stores, pc': Pc)
    requires StoresOk(env, st) && Local(env, st.objects, h, pc) && h in st.objects
    requires pc.Ranging? || pc.Opening? || pc.Pulling?
    requires MemoryLeft(st, h, pc) && Leaves(env, st, h, pc) && Answers(env, r, h, st, pc, st', pc')
    ensures st'.disk == st.disk && MemoryLeft(st', h, pc') && Leaves(env, st', h, pc')
  {
    match pc
    case Ranging(p) => RangeLeaves(env, h, st, p, st', pc');
    case Opening(p) => OpenLeaves(env, h, st, p, st', pc');
    case Pulling(p) => PullLeaves(env, h, st, p, st', pc');
  }

  lemma StepLeaves(env: Env, r: Rid, h: Hash, st: Stores, pc: Pc, st': Stores, pc': Pc)
    requires StoresOk(env, st) && Local(env, st.objects, h, pc) && h in st.objects
    requires !pc.Pushing? && !pc.Committing? && (pc.Reconciling? ==> !pc.reconcile.after.AfterPush?)
    requires MemoryLeft(st, h, pc) && Leaves(env, st, h, pc) && Answers(env, r, h, st, pc, st', pc')
    ensures st'.disk == st.disk && MemoryLeft(st', h, pc') && Leaves(env, st', h, pc')
  {
    if pc.Ranging? || pc.Opening? || pc.Pulling? {
      ReadLeaves(env, r, h, st, pc, st', pc');
    } else {
      LookUpLeaves(env, r, h, st, pc, st', pc');
    }
  }

  lemma ReadsOnly(env: Env, r: Rid, h: Hash, first: Moment, m: Moment)
    requires Reads(first.pc) && AloneOk(env, r, h, first, m) && !Nothing(first.st, h, first.pc)
    ensures StoresOk(env, m.st) && Local(env, m.st.objects, h, m.pc) && h in m.st.objects
    ensures !m.pc.Pushing? && !m.pc.Committing? && (m.pc.Reconciling? ==> !m.pc.reconcile.after.AfterPush?)
  {
  }

  lemma {:induction false} AloneLeavesAt(env: Env, r: Rid, h: Hash, run: seq<Moment>, k: nat)
    requires AloneRun(env, r, h, run) && Reads(run[0].pc) && k < |run|
    requires !Nothing(run[0].st, h, run[0].pc) && CopiesRight(run[0].st, h) && SizeRight(run[0].st, h)
    requires h !in run[0].st.mem
    ensures run[k].st.disk == run[0].st.disk && MemoryLeft(run[k].st, h, run[k].pc)
    ensures Leaves(env, run[k].st, h, run[k].pc)
  {
    if k > 0 {
      AloneLeavesAt(env, r, h, run, k - 1);
      AloneKeeps(env, r, h, run, k - 1);
      assert AloneAt(env, r, h, run, k - 1);
      ReadsOnly(env, r, h, run[0], run[k - 1]);
      StepLeaves(env, r, h, run[k - 1].st, run[k - 1].pc, run[k].st, run[k].pc);
    }
  }

  /** A read that is handled alone, without a failing call, of a payload that is not in memory
      leaves its record with the CRC and the size of the object's bytes, a pull that does not
      find it on disk with the object's ETag too; and a payload it puts into memory is marked
      as cached. */
  lemma AloneLeaves(env: Env, r: Rid, h: Hash, run: seq<Moment>, k: nat)
    requires AloneRun(env, r, h, run) && Reads(run[0].pc) && k < |run|
    requires run[k].pc.PullDone? || run[k].pc.ExistsDone?
    requires !Nothing(run[0].st, h, run[0].pc) && CopiesRight(run[0].st, h) && SizeRight(run[0].st, h)
    requires h !in run[0].st.mem
    ensures h in run[k].st.meta
    ensures var data, rec := run[0].st.objects[h].data, run[k].st.meta[h];
            && rec.hash == h && rec.checksum == Some(env.crc(data)) && rec.size == |data|
            && (run[k].pc.PullDone? && h !in run[0].st.disk ==> rec.etag == env.etag(data))
            && (run[k].pc.PullDone? && h in run[k].st.mem ==> rec.cached)
    ensures run[k].st.disk == run[0].st.disk
  {
    AloneKeeps(env, r, h, run, k);
    AloneLeavesAt(env, r, h, run, k);
    assert RecordOk(env, run[k].st.objects, h, run[k].st.meta[h]);
    assert ObjectOk(env, h, run[k].st.objects[h]);
  }
}
