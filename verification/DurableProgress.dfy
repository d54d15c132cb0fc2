/** Progress of the durable protocol: no request is ever stuck, and each ends soon. */
module DurableProgress {
  import opened Base
  import opened Durable
  import opened DurableInvariant
  import opened DurableRuns
  import Ranges

  // ----- the answer of a call that does not fail, by the piece of code

  lemma PushProceeds(env: Env, r: Rid, h: Hash, st: Stores, p: PushPc) returns (st': Stores, pc': Pc)
    requires p.PushLock? ==> Shard(h) !in st.locks
    ensures PushStep(env, r, h, st, p, st', pc')
  {
    st' := st;
    match p
    case PushStage(payload, checksum) =>
      pc' := if env.crc(payload) == checksum then Pushing(PushLock(payload)) else Failed;
    case PushLock(payload) =>
      st', pc' := st.(locks := st.locks[Shard(h) := r]), Pushing(PushHead(payload));
    case PushHead(payload) =>
      if h !in st.objects {
        pc' := Pushing(PushPut(payload));
      } else {
        var remote := RemoteOf(env, h, st.objects[h]);
        pc' := if remote.form.Legacy? then Reconciling(ReconcileOpen(Some(env.crc(payload)),
                                                                     AfterPush(payload, remote.etag)))
               else if remote.form.crc != env.crc(payload) || remote.size != |payload| then Pushing(PushUnlock(None))
               else Pushing(PushPublish(payload, false, remote.etag));
      }
    case PushPut(payload) =>
      st', pc' := WithObject(st, h, env.crc(payload), |payload|,
                             payload), Pushing(PushPublish(payload, true, env.etag(payload)));
    case PushPublish(payload, created, etag) =>
      pc' := Pushing(PushUnlock(Some(Info(env.crc(payload), |payload|, etag, created, payload))));
    case PushUnlock(result) =>
      st' := st.(locks := st.locks - {Shard(h)});
      pc' := if result.Some? then Committing(CommitExists(result.value)) else Failed;
  }

  lemma CommitProceeds(h: Hash, st: Stores, p: CommitPc) returns (st': Stores, pc': Pc)
    ensures CommitStep(h, st, p, st', pc')
  {
    st' := st;
    match p
    case CommitExists(info) => pc' := Committing(CommitGet(info, h in st.disk));
    case CommitGet(info, cached) =>
      if h !in st.meta {
        pc' := Committing(CommitPut(info, Record(h, info.etag, Some(info.checksum), info.size, cached)));
      } else {
        var rec := st.meta[h];
        pc' := if rec.checksum.Some? && (rec.checksum.value != info.checksum || rec.size != info.size) then Failed
               else Committing(CommitPut(info, rec.(checksum := Some(info.checksum), size := info.size,
                                                    etag := OrElse(info.etag, rec.etag), cached := cached)));
      }
    case CommitPut(info, rec) => st', pc' := WithRecord(st, rec), PushDone(info);
  }

  lemma ReconcileProceeds(env: Env, h: Hash, st: Stores, p: ReconcilePc) returns (st': Stores, pc': Pc)
    requires h in st.objects
    ensures ReconcileStep(env, h, st, p, st', pc') && (p.ReconcilePut? ==> pc' != Abort(Reconciling(p)))
  {
    st' := st;
    match p
    case ReconcileOpen(expected, after) =>
      var o := st.objects[h];
      pc' := if |o.data| != o.size || (expected.Some? && env.crc(o.data) != expected.value) then Abort(Reconciling(p))
             else Reconciling(ReconcileReopen(env.crc(o.data), |o.data|, after));
    case ReconcileReopen(sum, size, after) => pc' := Reconciling(ReconcilePut(sum, size, st.objects[h].data, after));
    case ReconcilePut(sum, size, data, after) =>
      st', pc' := WithObject(st, h, sum, size, data), Reconciled(after, sum, env.etag(data));
  }

  lemma RecordProceeds(env: Env, h: Hash, st: Stores, p: RecordPc) returns (st': Stores, pc': Pc)
    requires p.RecordHead? ==> h in st.objects
    ensures RecordStep(env, h, st, p, st', pc') && (p.RecordPut? ==> pc' == Resume(p.caller, p.rec))
  {
    st' := st;
    match p
    case RecordGet(caller) =>
      pc' := if h !in st.meta then Recording(RecordHeadMissing(caller))
             else if st.meta[h].checksum.None? then Recording(RecordHead(st.meta[h], caller))
             else Resume(caller, st.meta[h]);
    case RecordHead(rec, caller) =>
      var remote := RemoteOf(env, h, st.objects[h]);
      match remote.form {
        case Checked(crc) =>
          pc' := Recording(RecordPut(rec.(checksum := Some(crc), etag := OrElse(rec.etag, remote.etag)), caller));
        case Legacy => pc' := Reconciling(ReconcileOpen(None, AfterExisting(rec, remote, caller)));
      }
    case RecordPut(rec, caller) => st', pc' := WithRecord(st, rec), Resume(caller, rec);
    case RecordHeadMissing(caller) =>
      if h !in st.objects {
        pc' := if caller.ForExists? then ExistsDone(false, 0) else Failed;
      } else {
        var remote := RemoteOf(env, h, st.objects[h]);
        match remote.form {
          case Checked(crc) => pc' := Recording(RecordPut(Record(h, remote.etag, Some(crc), remote.size, false),
                                                          caller));
          case Legacy => pc' := Reconciling(ReconcileOpen(None, AfterNew(remote, caller)));
        }
      }
  }

  lemma RangeProceeds(env: Env, h: Hash, st: Stores, p: RangePc) returns (st': Stores, pc': Pc)
    requires p.RangeHead? || p.RangeGet? ==> h in st.objects
    ensures RangeStep(env, h, st, p, st', pc') && (p.RangeETag? ==> pc'.PullDone?)
  {
    st' := st;
    match p
    case RangeStat(text) => pc' := Recording(RecordGet(if h in st.disk then ForOpen(Some(text)) else ForRange(text)));
    case RangeHead(rec, range, text) =>
      var remote := RemoteOf(env, h, st.objects[h]);
      pc' := if range.start < 0 || range.end < range.start || range.end >= remote.size then Failed
             else Ranging(RangeGet(rec, remote, range, text));
    case RangeGet(rec, remote, range, text) =>
      var data := st.objects[h].data;
      pc' := if !(0 <= range.start <= range.end + 1 <= |data|) || !Validates(rec, remote) then Failed
             else if rec.etag.None? && remote.etag.Some? then
               Ranging(RangeETag(rec.(etag := remote.etag), Ranges.Cut(data, range), text, data))
             else PullDone(Ranges.Cut(data, range), Some(text), data);
    case RangeETag(rec, body, text, data) => st', pc' := WithRecord(st, rec), PullDone(body, Some(text), data);
  }

  lemma OpenProceeds(env: Env, h: Hash, st: Stores, p: OpenPc) returns (st': Stores, pc': Pc)
    requires p.OpenHead? || p.OpenRemote? ==> h in st.objects
    ensures OpenStep(env, h, st, p, st', pc') && (p.OpenETag? ==> !pc'.Failed?)
  {
    st' := st;
    match p
    case OpenStat(rec, header) =>
      pc' := if h !in st.disk then Opening(OpenHead(rec, header))
             else if |st.disk[h]| != rec.size then Failed
             else Opening(OpenDisk(header));
    case OpenDisk(header) => pc' := if h in st.disk then Serve(header, |st.disk[h]|, st.disk[h]) else Failed;
    case OpenHead(rec, header) =>
      var remote := RemoteOf(env, h, st.objects[h]);
      pc' := if !Validates(rec, remote) then Failed
             else if rec.etag.None? && remote.etag.Some? then Opening(OpenETag(rec.(etag := remote.etag), remote,
                                                                               header))
             else Opening(OpenRemote(remote, header));
    case OpenETag(rec, remote, header) => st', pc' := WithRecord(st, rec), Opening(OpenRemote(remote, header));
    case OpenRemote(remote, header) =>
      pc' := if env.etag(st.objects[h].data) != remote.etag then Failed
             else Serve(header, remote.size, st.objects[h].data);
  }

  lemma PullProceeds(h: Hash, st: Stores, p: PullPc) returns (st': Stores, pc': Pc)
    ensures PullStep(h, st, p, st', pc') && (p.MarkPut? ==> st' == WithRecord(st, p.rec))
  {
    st' := st;
    match p
    case LegacyRouteGet => pc' := if h in st.meta then Pulling(LegacyRouteMem) else Failed;
    case LegacyRouteMem =>
      pc' := if h in st.mem then PullDone(st.mem[h], None, st.mem[h]) else Recording(RecordGet(ForDiskOrRemote(None)));
    case PullMem(header) =>
      if h in st.mem {
        var reply := Reply(header, |st.mem[h]|, st.mem[h]);
        pc' := if reply.None? then Failed else PullDone(reply.value, header, st.mem[h]);
      } else {
        pc' := if header.None? then Recording(RecordGet(ForOpen(None))) else Ranging(RangeStat(header.value));
      }
    case CacheAdd(body, header, data) => pc' := PullDone(body, header, data);
    case MarkGet(body, header, data) =>
      pc' := if h in st.meta then Pulling(MarkPut(st.meta[h].(cached := true), body, header, data))
             else PullDone(body, header, data);
    case MarkPut(rec, body, header, data) => st', pc' := WithRecord(st, rec), PullDone(body, header, data);
  }

  lemma ExistsProceeds(h: Hash, st: Stores, rec: Record) returns (st': Stores, pc': Pc)
    ensures ExistsStep(h, st, rec, st', pc')
  {
    st' := st;
    pc' := if h !in st.disk then ExistsDone(true, rec.size)
           else if |st.disk[h]| != rec.size then Failed
           else ExistsDone(true, |st.disk[h]|);
  }

  /** r waits for a lock that is taken. */
  ghost predicate Waiting(st: Stores, p: Proc) {
    p.pc.Pushing? && p.pc.push.PushLock? && Shard(p.hash) in st.locks
  }

  /** The store call that comes next has an answer other than its failure. */
  ghost predicate CanProceed(env: Env, st: Stores, r: Rid, p: Proc) {
    exists st', pc' :: Proceeds(env, r, p.hash, st, p.pc, st', pc')
  }

  lemma NotStuck(env: Env, st: Stores, r: Rid, p: Proc)
    requires ProcOk(env, st, r, p) && !Terminal(p.pc) && !Waiting(st, p)
    ensures CanProceed(env, st, r, p)
  {
    var st', pc';
    match p.pc {
      case Pushing(q) => st', pc' := PushProceeds(env, r, p.hash, st, q);
      case Committing(q) => st', pc' := CommitProceeds(p.hash, st, q);
      case Reconciling(q) => st', pc' := ReconcileProceeds(env, p.hash, st, q);
      case Recording(q) => st', pc' := RecordProceeds(env, p.hash, st, q);
      case Stating(rec) => st', pc' := ExistsProceeds(p.hash, st, rec);
      case Ranging(q) => st', pc' := RangeProceeds(env, p.hash, st, q);
      case Opening(q) => st', pc' := OpenProceeds(env, p.hash, st, q);
      case Pulling(q) => st', pc' := PullProceeds(p.hash, st, q);
    }
    assert Proceeds(env, r, p.hash, st, p.pc, st', pc');
  }

  /** A shard lock is never leaked: whoever waits for one waits for a live request of the same
      shard that does not wait itself, and whose next call has an answer that is no failure. */
  lemma LocksAreLive(env: Env, run: seq<System>, i: nat, r: Rid)
    requires IsRun(env, run) && i < |run| && r in run[i].procs && Waiting(run[i].st, run[i].procs[r])
    ensures var s, k := run[i], Shard(run[i].procs[r].hash);
            && var q := s.st.locks[k];
               q in s.procs && q != r && Shard(s.procs[q].hash) == k && Holds(s.procs[q].pc)
               && !Waiting(s.st, s.procs[q]) && CanProceed(env, s.st, q, s.procs[q])
  {
    RunInv(env, run, i);
    var s := run[i];
    var q := s.st.locks[Shard(s.procs[r].hash)];
    assert ProcOk(env, s.st, q, s.procs[q]) && ProcOk(env, s.st, r, s.procs[r]);
    NotStuck(env, s.st, q, s.procs[q]);
  }

  /** No deadlock: while some request is unfinished, some request's next call has an answer
      that is no failure. */
  lemma SomeRequestProceeds(env: Env, run: seq<System>, i: nat, r: Rid)
    requires IsRun(env, run) && i < |run| && r in run[i].procs && !Terminal(run[i].procs[r].pc)
    ensures exists q :: q in run[i].procs && CanProceed(env, run[i].st, q, run[i].procs[q])
  {
    RunInv(env, run, i);
    assert ProcOk(env, run[i].st, r, run[i].procs[r]);
    if Waiting(run[i].st, run[i].procs[r]) {
      LocksAreLive(env, run, i, r);
    } else {
      NotStuck(env, run[i].st, r, run[i].procs[r]);
    }
  }

  // ----- each request ends

  /** How many steps a request can still take once payloadRecord has returned. */
  function AfterRecord(caller: Caller): nat {
    match caller
    case ForExists => 1
    case ForRange(_) => 3
    case ForDiskOrRemote(_) => 7
    case ForOpen(_) => 13
  }

  function AfterReconcile(after: After): nat {
    match after
    case AfterPush(_, _) => 5
    case AfterExisting(_, _, caller) => AfterRecord(caller) + 1
    case AfterNew(_, caller) => AfterRecord(caller) + 1
  }

  function PushRank(p: PushPc): nat {
    match p
    case PushStage(_, _) => 11
    case PushLock(_) => 10
    case PushHead(_) => 9
    case PushPut(_) => 6
    case PushPublish(_, _, _) => 5
    case PushUnlock(_) => 4
  }

  function RecordRank(p: RecordPc): nat {
    match p
    case RecordGet(caller) => AfterRecord(caller) + 6
    case RecordHead(_, caller) => AfterRecord(caller) + 5
    case RecordHeadMissing(caller) => AfterRecord(caller) + 5
    case RecordPut(_, caller) => AfterRecord(caller) + 1
  }

  function OpenRank(p: OpenPc): nat {
    match p
    case OpenStat(_, _) => 7
    case OpenHead(_, _) => 6
    case OpenETag(_, _, _) => 5
    case OpenRemote(_, _) => 4
    case OpenDisk(_) => 4
  }

  function PullRank(p: PullPc): nat {
    match p
    case PullMem(_) => 21
    case LegacyRouteGet => 15
    case LegacyRouteMem => 14
    case CacheAdd(_, _, _) => 3
    case MarkGet(_, _, _) => 2
    case MarkPut(_, _, _, _) => 1
  }

  /** At most so many steps of its own are left to a request. */
  function Rank(pc: Pc): nat {
    match pc
    case Pushing(p) => PushRank(p)
    case Committing(p) => if p.CommitExists? then 3 else if p.CommitGet? then 2 else 1
    case Reconciling(p) => AfterReconcile(p.after) + if p.ReconcileOpen? then 3 else if p.ReconcileReopen? then 2 else 1
    case Recording(p) => RecordRank(p)
    case Stating(_) => 1
    case Ranging(p) => if p.RangeStat? then 20 else if p.RangeHead? then 3 else if p.RangeGet? then 2 else 1
    case Opening(p) => OpenRank(p)
    case Pulling(p) => PullRank(p)
    case _ => 0
  }

  const MAX_STEPS: nat := 21

  lemma ResumeDescends(caller: Caller, rec: Record)
    ensures Rank(Resume(caller, rec)) <= AfterRecord(caller)
  {
  }

  lemma RecordDescends(env: Env, h: Hash, st: Stores, p: RecordPc, st': Stores, pc': Pc)
    requires RecordStep(env, h, st, p, st', pc')
    ensures Rank(pc') < RecordRank(p)
  {
    match p
    case RecordGet(caller) => if h in st.meta { ResumeDescends(caller, st.meta[h]); }
    case RecordPut(rec, caller) => ResumeDescends(caller, rec);
    case _ =>
  }

  lemma PushDescends(env: Env, r: Rid, h: Hash, st: Stores, p: PushPc, st': Stores, pc': Pc)
    requires PushStep(env, r, h, st, p, st', pc')
    ensures Rank(pc') < PushRank(p)
  {
  }

  lemma ReconcileDescends(env: Env, h: Hash, st: Stores, p: ReconcilePc, st': Stores, pc': Pc)
    requires ReconcileStep(env, h, st, p, st', pc')
    ensures Rank(pc') < Rank(Reconciling(p))
  {
  }

  lemma RangeDescends(env: Env, h: Hash, st: Stores, p: RangePc, st': Stores, pc': Pc)
    requires RangeStep(env, h, st, p, st', pc')
    ensures Rank(pc') < Rank(Ranging(p))
  {
  }

  lemma OpenDescends(env: Env, h: Hash, st: Stores, p: OpenPc, st': Stores, pc': Pc)
    requires OpenStep(env, h, st, p, st', pc')
    ensures Rank(pc') < OpenRank(p)
  {
  }

  lemma PullDescends(h: Hash, st: Stores, p: PullPc, st': Stores, pc': Pc)
    requires PullStep(h, st, p, st', pc')
    ensures Rank(pc') < PullRank(p)
  {
  }

  lemma ProceedsDescends(env: Env, r: Rid, h: Hash, st: Stores, pc: Pc, st': Stores, pc': Pc)
    requires Proceeds(env, r, h, st, pc, st', pc')
    ensures Rank(pc') < Rank(pc)
  {
    match pc
    case Pushing(p) => PushDescends(env, r, h, st, p, st', pc');
    case Reconciling(p) => ReconcileDescends(env, h, st, p, st', pc');
    case Recording(p) => RecordDescends(env, h, st, p, st', pc');
    case Ranging(p) => RangeDescends(env, h, st, p, st', pc');
    case Opening(p) => OpenDescends(env, h, st, p, st', pc');
    case Pulling(p) => PullDescends(h, st, p, st', pc');
    case _ =>
  }

  /** Every step of a request, a failing call included, brings it closer to its end. */
  lemma ActDescends(env: Env, r: Rid, h: Hash, st: Stores, pc: Pc, st': Stores, pc': Pc)
    requires Act(env, r, h, st, pc, st', pc')
    ensures Rank(pc') < Rank(pc)
  {
    if Proceeds(env, r, h, st, pc, st', pc') { ProceedsDescends(env, r, h, st, pc, st', pc'); }
  }

  ghost predicate Moved(s: System, s': System, r: Rid) {
    r in s.procs && r in s'.procs && s'.procs[r] != s.procs[r]
  }

  /** How many steps of the run moved r. */
  ghost function OwnSteps(run: seq<System>, r: Rid): nat {
    if |run| <= 1 then 0
    else OwnSteps(run[..|run| - 1], r) + if Moved(run[|run| - 2], run[|run| - 1], r) then 1 else 0
  }

  lemma NextDescends(env: Env, s: System, s': System, r: Rid)
    requires Next(env, s, s') && r in s'.procs
    ensures if r !in s.procs then Rank(s'.procs[r].pc) <= MAX_STEPS
            else if Moved(s, s', r) then Rank(s'.procs[r].pc) < Rank(s.procs[r].pc)
            else s'.procs[r] == s.procs[r]
  {
    if q, pc' :| Move(env, s, s', q, pc') {
      if q == r { ActDescends(env, r, s.procs[r].hash, s.st, s.procs[r].pc, s'.st, pc'); }
    }
  }

  /** Every request ends within 21 steps of its own, however many other requests there are. */
  lemma {:induction false} EveryRequestEnds(env: Env, run: seq<System>, r: Rid)
    requires IsRun(env, run) && r in run[|run| - 1].procs
    ensures OwnSteps(run, r) + Rank(run[|run| - 1].procs[r].pc) <= MAX_STEPS
  {
    if |run| > 1 {
      var front := run[..|run| - 1];
      assert IsRun(env, front) by {
        assert forall k | 0 <= k < |front| - 1 :: StepAt(env, run, k) ==> StepAt(env, front, k);
      }
      assert StepAt(env, run, |run| - 2);
      NextDescends(env, run[|run| - 2], run[|run| - 1], r);
      if r in front[|front| - 1].procs { EveryRequestEnds(env, front, r); } else { NeverThere(env, front, r); }
    }
  }

  /** A request that is not there yet has taken no step. */
  lemma {:induction false} NeverThere(env: Env, run: seq<System>, r: Rid)
    requires IsRun(env, run) && r !in run[|run| - 1].procs
    ensures OwnSteps(run, r) == 0
  {
    if |run| > 1 {
      var front := run[..|run| - 1];
      assert IsRun(env, front) by {
        assert forall k | 0 <= k < |front| - 1 :: StepAt(env, run, k) ==> StepAt(env, front, k);
      }
      assert StepAt(env, run, |run| - 2);
      NeverThere(env, front, r);
    }
  }
}
