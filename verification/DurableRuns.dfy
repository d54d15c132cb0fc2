/** The results about every run of the durable protocol. */
module DurableRuns {
  import opened Base
  import opened Durable
  import opened DurableInvariant
  import Ranges

  // ----- runs

  /** The premise about the stores a server starts with: metadata and the disk cache agree
      with the bucket. StartupValidation says how much of it the start-up check establishes. */
  ghost predicate Start(env: Env, s: System) {
    s.procs == map[] && s.st.mem == map[] && s.st.locks == map[] && StoresOk(env, s.st)
  }

  ghost predicate StepAt(env: Env, run: seq<System>, i: nat)
    requires i + 1 < |run|
  {
    Next(env, run[i], run[i + 1])
  }

  ghost predicate IsRun(env: Env, run: seq<System>) {
    && |run| > 0
    && Start(env, run[0])
    && forall i :: 0 <= i < |run| - 1 ==> StepAt(env, run, i)
  }

  lemma StartOk(env: Env, s: System)
    requires Start(env, s)
    ensures Inv(env, s)
  {
  }

  lemma {:induction false} RunInv(env: Env, run: seq<System>, i: nat)
    requires IsRun(env, run) && i < |run|
    ensures Inv(env, run[i])
  {
    if i == 0 {
      StartOk(env, run[0]);
    } else {
      RunInv(env, run, i - 1);
      assert StepAt(env, run, i - 1);
      NextOk(env, run[i - 1], run[i]);
    }
  }

  lemma {:induction false} RunGrows(env: Env, run: seq<System>, i: nat, j: nat)
    requires IsRun(env, run) && i <= j < |run|
    ensures Grows(env, run[i], run[j])
    decreases j - i
  {
    if i < j {
      RunGrows(env, run, i, j - 1);
      RunInv(env, run, j - 1);
      assert StepAt(env, run, j - 1);
      NextOk(env, run[j - 1], run[j]);
      GrowsTransitive(env, run[i], run[j - 1], run[j]);
    }
  }

  /** A finished request, seen from the end of the run. */
  lemma DoneAtEnd(env: Env, run: seq<System>, i: nat, r: Rid)
    requires IsRun(env, run) && i < |run| && r in run[i].procs && Terminal(run[i].procs[r].pc)
    ensures var last := run[|run| - 1];
            && Inv(env, last)
            && r in last.procs && last.procs[r] == run[i].procs[r]
            && Local(env, last.st.objects, last.procs[r].hash, last.procs[r].pc)
  {
    RunInv(env, run, |run| - 1);
    RunGrows(env, run, i, |run| - 1);
    assert ProcOk(env, run[|run| - 1].st, r, run[|run| - 1].procs[r]);
  }

  // ----- main results

  /** Once an object exists its bytes never change, and its checksum metadata changes at most
      once, from the legacy digest to the CRC of those bytes, although reads migrate legacy
      objects without the shard lock and the process may crash at any step. */
  lemma ObjectsNeverChange(env: Env, run: seq<System>, i: nat, j: nat, h: Hash)
    requires IsRun(env, run) && i <= j < |run| && h in run[i].st.objects
    ensures h in run[j].st.objects
    ensures run[j].st.objects[h].data == run[i].st.objects[h].data
    ensures run[i].st.objects[h].form.Checked? ==> run[j].st.objects[h] == run[i].st.objects[h]
    ensures run[j].st.objects[h].form.Checked? ==>
              run[j].st.objects[h].form.crc == env.crc(run[i].st.objects[h].data)
  {
    RunGrows(env, run, i, j);
    RunInv(env, run, j);
    assert ObjectOk(env, h, run[j].st.objects[h]);
  }

  /** Every record agrees with an existing object, despite the unlocked get-then-put races. */
  lemma MetadataAgrees(env: Env, run: seq<System>, i: nat, h: Hash)
    requires IsRun(env, run) && i < |run| && h in run[i].st.meta
    ensures h in run[i].st.objects
    ensures var rec, o := run[i].st.meta[h], run[i].st.objects[h];
            && (rec.checksum.Some? ==> o.form == Checked(rec.checksum.value) && rec.checksum.value == env.crc(o.data))
            && (rec.etag.Some? ==> rec.etag == env.etag(o.data))
            && (h !in env.legacy ==> rec.size == |o.data|)
  {
    RunInv(env, run, i);
    assert RecordOk(env, run[i].st.objects, h, run[i].st.meta[h]);
    assert ObjectOk(env, h, run[i].st.objects[h]);
  }

  ghost predicate CollisionFree(env: Env) {
    forall a, b :: a in env.payloads && b in env.payloads && env.crc(a) == env.crc(b) ==> a == b
  }

  ghost predicate Pushed(s: System, r: Rid, h: Hash, info: Info) {
    r in s.procs && s.procs[r] == Proc(h, PushDone(info))
  }

  ghost predicate Pulled(s: System, r: Rid, h: Hash, header: Option<string>, body: Bytes, data: Bytes) {
    r in s.procs && s.procs[r] == Proc(h, PullDone(body, header, data))
  }

  /** Tier coherence: a successful pull, from memory, disk or the object store, sends exactly
      the requested part of bytes that have the CRC of every successful push of that hash,
      their size when the object is not a legacy one, and are the pushed bytes when the CRC
      does not collide. */
  lemma TierCoherence(env: Env, run: seq<System>, i: nat, q: Rid, info: Info,
                      j: nat, r: Rid, header: Option<string>, body: Bytes, data: Bytes, h: Hash)
    requires IsRun(env, run) && i < |run| && j < |run|
    requires Pushed(run[i], q, h, info) && Pulled(run[j], r, h, header, body, data)
    ensures env.crc(data) == info.checksum == env.crc(info.payload)
    ensures Ranges.Body(header, data) == Some(body)
    ensures h !in env.legacy ==> |data| == info.size == |info.payload|
    ensures CollisionFree(env) ==> data == info.payload
  {
    DoneAtEnd(env, run, i, q);
    DoneAtEnd(env, run, j, r);
  }

  /** At most one push of a hash reports Created, and all that succeed agree. */
  lemma PushesAgree(env: Env, run: seq<System>, i: nat, q: Rid, a: Info, j: nat, r: Rid, b: Info, h: Hash)
    requires IsRun(env, run) && i < |run| && j < |run|
    requires Pushed(run[i], q, h, a) && Pushed(run[j], r, h, b)
    ensures a.created && b.created ==> q == r
    ensures a.checksum == b.checksum
    ensures h !in env.legacy ==> a.size == b.size
    ensures CollisionFree(env) ==> a.payload == b.payload
  {
    DoneAtEnd(env, run, i, q);
    DoneAtEnd(env, run, j, r);
  }

  /** Two pulls of a hash with the same Range header, whatever tiers serve them, send the same
      body when the CRC does not collide: the part of the object's bytes that it selects. */
  lemma PullsAgree(env: Env, run: seq<System>, i: nat, q: Rid, j: nat, r: Rid, header: Option<string>,
                   a: Bytes, b: Bytes, x: Bytes, y: Bytes, h: Hash)
    requires IsRun(env, run) && i < |run| && j < |run| && CollisionFree(env)
    requires Pulled(run[i], q, h, header, a, x) && Pulled(run[j], r, h, header, b, y)
    ensures h in run[|run| - 1].st.objects && Ranges.Body(header, run[|run| - 1].st.objects[h].data) == Some(a)
    ensures a == b
  {
    DoneAtEnd(env, run, i, q);
    DoneAtEnd(env, run, j, r);
    assert ObjectOk(env, h, run[|run| - 1].st.objects[h]);
  }

  ghost predicate Answered(s: System, r: Rid, h: Hash, found: bool) {
    r in s.procs && s.procs[r].hash == h && s.procs[r].pc.ExistsDone? && s.procs[r].pc.found == found
  }

  /** A payload that an existence check reports is in the object store for good, and the
      reported size is its size unless the hash is legacy. */
  lemma ExistsIsTruthful(env: Env, run: seq<System>, i: nat, r: Rid, h: Hash)
    requires IsRun(env, run) && i < |run| && Answered(run[i], r, h, true)
    ensures var last := run[|run| - 1];
            && h in last.st.objects
            && (h !in env.legacy ==> run[i].procs[r].pc.size == |last.st.objects[h].data|)
  {
    DoneAtEnd(env, run, i, r);
  }

  lemma AbsenceIsSeen(env: Env, r: Rid, h: Hash, st: Stores, pc: Pc, st': Stores, pc': Pc)
    requires Act(env, r, h, st, pc, st', pc') && h in st.objects
    ensures !(pc'.ExistsDone? && !pc'.found)
  {
  }

  lemma StillPresent(env: Env, s: System, s': System, r: Rid, h: Hash)
    requires Next(env, s, s') && h in s.st.objects && !Answered(s, r, h, false)
    ensures !Answered(s', r, h, false)
  {
    if r in s.procs && s.procs[r].hash == h {
      if pc' :| Move(env, s, s', r, pc') {
        AbsenceIsSeen(env, r, h, s.st, s.procs[r].pc, s'.st, pc');
      }
    }
  }

  /** Read your writes: once a push of a hash has succeeded, no existence check that was not
      already answered says the payload is absent, in any interleaving. */
  lemma {:induction false} ExistsAfterPush(env: Env, run: seq<System>, i: nat, q: Rid, info: Info,
                                          j: nat, r: Rid, h: Hash)
    requires IsRun(env, run) && i <= j < |run|
    requires Pushed(run[i], q, h, info) && !Answered(run[i], r, h, false)
    ensures !Answered(run[j], r, h, false)
    decreases j - i
  {
    if i < j {
      ExistsAfterPush(env, run, i, q, info, j - 1, r, h);
      RunInv(env, run, i);
      assert ProcOk(env, run[i].st, q, run[i].procs[q]);
      RunGrows(env, run, i, j - 1);
      assert StepAt(env, run, j - 1);
      StillPresent(env, run[j - 1], run[j], r, h);
    }
  }

  /** The record and the object's info that the next size check of a pull compares. */
  ghost function Checking(env: Env, st: Stores, p: Proc): Option<(Record, Remote)> {
    if p.hash !in st.objects then None
    else
      match p.pc
      case Opening(OpenStat(rec, _)) => Some((rec, RemoteOf(env, p.hash, st.objects[p.hash])))
      case Opening(OpenHead(rec, _)) => Some((rec, RemoteOf(env, p.hash, st.objects[p.hash])))
      case Ranging(RangeGet(rec, remote, _, _)) => Some((rec, remote))
      case _ => None
  }

  /** The remote checks of a pull, whole or ranged, fail on a known record exactly when its
      size differs from the object's, which can only be for a legacy hash; the disk size check
      likewise. */
  lemma ChecksFailOnlyOnLegacySizes(env: Env, run: seq<System>, i: nat, r: Rid)
    requires IsRun(env, run) && i < |run| && r in run[i].procs
    requires Checking(env, run[i].st, run[i].procs[r]).Some?
    ensures var h, o := run[i].procs[r].hash, run[i].st.objects[run[i].procs[r].hash];
            var (rec, remote) := Checking(env, run[i].st, run[i].procs[r]).value;
            && (Validates(rec, remote) <==> rec.size == |o.data|)
            && (h !in env.legacy ==> rec.size == |o.data|)
            && (h !in env.legacy && h in run[i].st.disk ==> |run[i].st.disk[h]| == rec.size)
  {
    RunInv(env, run, i);
    var p := run[i].procs[r];
    assert ProcOk(env, run[i].st, r, p);
    assert ObjectOk(env, p.hash, run[i].st.objects[p.hash]);
  }

  lemma CommitPutWrites(env: Env, r: Rid, h: Hash, st: Stores, pc: Pc, st': Stores)
    requires pc.Committing? && pc.commit.CommitPut? && Act(env, r, h, st, pc, st', PushDone(pc.commit.info))
    ensures st' == WithRecord(st, pc.commit.rec)
  {
  }

  /** The record a successful push writes has the object's size exactly when the pushed
      payload has; only the legacy branch lets the two differ. */
  lemma PushRecordSize(env: Env, run: seq<System>, i: nat, r: Rid)
    requires IsRun(env, run) && i + 1 < |run| && r in run[i].procs
    requires run[i].procs[r].pc.Committing? && run[i].procs[r].pc.commit.CommitPut?
    requires Move(env, run[i], run[i + 1], r, PushDone(run[i].procs[r].pc.commit.info))
    ensures var h, info := run[i].procs[r].hash, run[i].procs[r].pc.commit.info;
            && h in run[i + 1].st.meta && h in run[i + 1].st.objects
            && run[i + 1].st.meta[h].checksum == Some(env.crc(info.payload))
            && (run[i + 1].st.meta[h].size == |run[i + 1].st.objects[h].data|
                <==> |info.payload| == |run[i + 1].st.objects[h].data|)
            && (h !in env.legacy ==> |info.payload| == |run[i + 1].st.objects[h].data|)
            && (CollisionFree(env) ==> info.payload == run[i + 1].st.objects[h].data)
  {
    RunInv(env, run, i);
    var p := run[i].procs[r];
    assert ProcOk(env, run[i].st, r, p);
    CommitPutWrites(env, r, p.hash, run[i].st, p.pc, run[i + 1].st);
    assert ObjectOk(env, p.hash, run[i].st.objects[p.hash]);
  }
}
