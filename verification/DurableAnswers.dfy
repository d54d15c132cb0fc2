/** What the requests of the durable protocol end with when none of their calls fails: a pull
    of a stored payload sends exactly the requested part of the object's bytes, from whatever
    tier, and an existence check tells the truth. */
module DurableAnswers {
  import opened Base
  import opened Durable
  import opened DurableInvariant
  import opened DurableRuns
  import opened DurableProgress
  import Ranges

  /** What a request asks for. ranged: the requested part is read from the object store
      itself, because the payload is neither in memory nor on disk. */
  datatype Ask = Pull(header: Option<string>, ranged: bool) | Exists

  ghost predicate Asks(pc: Pc, ask: Ask) {
    match pc
    case Pulling(LegacyRouteGet) => ask == Pull(None, false)
    case Pulling(PullMem(header)) => ask.Pull? && ask.header == header && (header.None? ==> !ask.ranged)
    case Recording(RecordGet(ForExists)) => ask.Exists?
    case _ => false
  }

  /** The next call answers, without an error: records and objects are written, and a file
      that was found on disk is still there when it is opened. */
  ghost predicate Answers(env: Env, r: Rid, h: Hash, st: Stores, pc: Pc, st': Stores, pc': Pc) {
    && Proceeds(env, r, h, st, pc, st', pc')
    && match pc
       case Reconciling(ReconcilePut(_, _, _, _)) => pc' != Abort(pc)
       case Recording(RecordPut(rec, caller)) => pc' == Resume(caller, rec)
       case Ranging(RangeETag(_, _, _, _)) => pc'.PullDone?
       case Opening(OpenETag(_, _, _)) => !pc'.Failed?
       case Opening(OpenDisk(_)) => h in st.disk
       case Pulling(MarkPut(rec, _, _, _)) => st' == WithRecord(st, rec)
       case _ => true
  }

  /** The copies of h in memory and on disk are the object's bytes. */
  ghost predicate CopiesRight(st: Stores, h: Hash) {
    && h in st.objects
    && (h in st.mem ==> st.mem[h] == st.objects[h].data)
    && (h in st.disk ==> st.disk[h] == st.objects[h].data)
  }

  /** The record of h, if there is one, has the object's size: StoresOk says so unless h is
      legacy. */
  ghost predicate SizeRight(st: Stores, h: Hash) {
    h in st.objects && (h in st.meta ==> st.meta[h].size == |st.objects[h].data|)
  }

  /** The tier that the look-ups of this step find is the one ask speaks of. */
  ghost predicate Finds(st: Stores, h: Hash, pc: Pc, ask: Ask) {
    match pc
    case Pulling(LegacyRouteGet) => h in st.meta
    case Pulling(PullMem(_)) => h in st.mem ==> ask.Pull? && !ask.ranged
    case Ranging(RangeStat(_)) => ask.Pull? && (ask.ranged <==> h !in st.disk)
    case _ => true
  }

  // ----- where such a request can be

  ghost predicate CallerOk(ask: Ask, caller: Caller) {
    match caller
    case ForExists => ask.Exists?
    case ForOpen(header) => ask == Pull(header, false)
    case ForDiskOrRemote(header) => ask == Pull(header, false)
    case ForRange(text) => ask == Pull(Some(text), true)
  }

  ghost predicate ReconcileOnTrack(data: Bytes, ask: Ask, p: ReconcilePc) {
    && (p.ReconcileOpen? ==> p.expected.None?)
    && match p.after
       case AfterPush(_, _) => false
       case AfterExisting(rec, _, caller) => CallerOk(ask, caller) && rec.size == |data|
       case AfterNew(_, caller) => CallerOk(ask, caller)
  }

  ghost predicate RangeOnTrack(data: Bytes, ask: Ask, p: RangePc) {
    match p
    case RangeStat(text) => ask.Pull? && ask.header == Some(text)
    case RangeHead(rec, _, text) => ask == Pull(Some(text), true) && rec.size == |data|
    case RangeGet(rec, _, _, text) => ask == Pull(Some(text), true) && rec.size == |data| && data != []
    case RangeETag(rec, _, text, d) => ask == Pull(Some(text), true) && rec.size == |data| && d == data && data != []
  }

  ghost predicate OpenOnTrack(data: Bytes, ask: Ask, p: OpenPc) {
    && ask == Pull(p.header, false)
    && (p.OpenStat? || p.OpenHead? || p.OpenETag? ==> p.rec.size == |data|)
  }

  ghost predicate PullOnTrack(data: Bytes, ask: Ask, p: PullPc) {
    match p
    case LegacyRouteGet => ask == Pull(None, false)
    case LegacyRouteMem => ask == Pull(None, false)
    case PullMem(header) => ask.Pull? && ask.header == header && (header.None? ==> !ask.ranged)
    case CacheAdd(_, header, d) => ask == Pull(header, false) && d == data
    case MarkGet(_, header, d) => ask == Pull(header, false) && d == data
    case MarkPut(rec, _, header, d) => ask == Pull(header, false) && d == data && rec.size == |data|
  }

  /** The range is refused, or asks for a part of an empty payload in the object store. */
  ghost predicate Refused(data: Bytes, ask: Ask) {
    ask.Pull? && (Ranges.Body(ask.header, data).None? || (ask.ranged && data == []))
  }

  ghost predicate OnTrack(data: Bytes, ask: Ask, pc: Pc) {
    match pc
    case Reconciling(p) => ReconcileOnTrack(data, ask, p)
    case Recording(p) => CallerOk(ask, p.caller) && (p.RecordHead? || p.RecordPut? ==> p.rec.size == |data|)
    case Stating(rec) => ask.Exists? && rec.size == |data|
    case Ranging(p) => RangeOnTrack(data, ask, p)
    case Opening(p) => OpenOnTrack(data, ask, p)
    case Pulling(p) => PullOnTrack(data, ask, p)
    case ExistsDone(found, size) => ask.Exists? && found && size == |data|
    case PullDone(_, header, d) => ask.Pull? && ask.header == header && d == data && (ask.ranged ==> data != [])
    case Failed => Refused(data, ask)
    case _ => false
  }

  // ----- every step stays on track

  ghost predicate StaysRight(st: Stores, st': Stores, h: Hash, ask: Ask, pc': Pc) {
    && h in st.objects && CopiesRight(st', h) && SizeRight(st', h)
    && st'.objects[h].data == st.objects[h].data
    && OnTrack(st.objects[h].data, ask, pc')
  }

  /** Serving the object's bytes sends the requested part, or refuses the range. */
  lemma ServeOnTrack(data: Bytes, header: Option<string>)
    ensures OnTrack(data, Pull(header, false), Serve(header, |data|, data))
    ensures Reply(header, |data|, data).None? <==> Ranges.Body(header, data).None?
  {
    if header.Some? && Ranges.ParseSingleRangeHeader(header.value, |data|).Ok? {
      Ranges.ParsedRangeInBounds(header.value, |data|);
    }
  }

  lemma ResumeOnTrack(data: Bytes, ask: Ask, caller: Caller, rec: Record)
    requires CallerOk(ask, caller) && rec.size == |data|
    ensures OnTrack(data, ask, Resume(caller, rec))
  {
  }

  /** The object of h and its copies and record agree. */
  ghost predicate Right(env: Env, st: Stores, h: Hash) {
    && CopiesRight(st, h) && SizeRight(st, h) && ObjectOk(env, h, st.objects[h])
    && (h in st.meta ==> RecordOk(env, st.objects, h, st.meta[h]))
  }

  lemma ReconcileStays(env: Env, h: Hash, st: Stores, ask: Ask, p: ReconcilePc, st': Stores, pc': Pc)
    requires Right(env, st, h) && ReconcileKnows(env, st.objects, h, p)
    requires ReconcileOnTrack(st.objects[h].data, ask, p)
    requires ReconcileStep(env, h, st, p, st', pc') && (p.ReconcilePut? ==> pc' != Abort(Reconciling(p)))
    ensures StaysRight(st, st', h, ask, pc')
  {
  }

  lemma RecordStays(env: Env, h: Hash, st: Stores, ask: Ask, p: RecordPc, st': Stores, pc': Pc)
    requires Right(env, st, h) && RecordKnows(env, st.objects, h, p)
    requires OnTrack(st.objects[h].data, ask, Recording(p))
    requires RecordStep(env, h, st, p, st', pc') && (p.RecordPut? ==> pc' == Resume(p.caller, p.rec))
    ensures StaysRight(st, st', h, ask, pc')
  {
    match p
    case RecordGet(caller) => if h in st.meta { ResumeOnTrack(st.objects[h].data, ask, caller, st.meta[h]); }
    case RecordPut(rec, caller) => ResumeOnTrack(st.objects[h].data, ask, caller, rec);
    case _ =>
  }

  lemma RangeStays(env: Env, h: Hash, st: Stores, ask: Ask, p: RangePc, st': Stores, pc': Pc)
    requires Right(env, st, h) && RangeKnows(env, st.objects, h, p) && Finds(st, h, Ranging(p), ask)
    requires RangeOnTrack(st.objects[h].data, ask, p)
    requires RangeStep(env, h, st, p, st', pc') && (p.RangeETag? ==> pc'.PullDone?)
    ensures StaysRight(st, st', h, ask, pc')
  {
    match p
    case RangeHead(_, _, text) => Ranges.ParsedRangeInBounds(text, |st.objects[h].data|);
    case RangeGet(_, _, _, text) => Ranges.ParsedRangeInBounds(text, |st.objects[h].data|);
    case _ =>
  }

  lemma OpenStays(env: Env, h: Hash, st: Stores, ask: Ask, p: OpenPc, st': Stores, pc': Pc)
    requires Right(env, st, h) && OpenKnows(env, st.objects, h, p)
    requires OpenOnTrack(st.objects[h].data, ask, p)
    requires OpenStep(env, h, st, p, st', pc') && (p.OpenETag? ==> !pc'.Failed?) && (p.OpenDisk? ==> h in st.disk)
    ensures StaysRight(st, st', h, ask, pc')
  {
    if p.OpenDisk? || p.OpenRemote? { ServeOnTrack(st.objects[h].data, p.header); }
  }

  lemma PullStays(h: Hash, st: Stores, ask: Ask, p: PullPc, st': Stores, pc': Pc)
    requires CopiesRight(st, h) && SizeRight(st, h) && Finds(st, h, Pulling(p), ask)
    requires (p.MarkPut? ==> p.rec.hash == h) && PullOnTrack(st.objects[h].data, ask, p)
    requires PullStep(h, st, p, st', pc')
    ensures StaysRight(st, st', h, ask, pc')
  {
    if p.PullMem? { ServeOnTrack(st.objects[h].data, p.header); }
  }

  lemma StatingStays(h: Hash, st: Stores, ask: Ask, rec: Record, st': Stores, pc': Pc)
    requires CopiesRight(st, h) && SizeRight(st, h) && ask.Exists? && rec.size == |st.objects[h].data|
    requires ExistsStep(h, st, rec, st', pc')
    ensures StaysRight(st, st', h, ask, pc')
  {
  }

  lemma LookUpStays(env: Env, r: Rid, h: Hash, st: Stores, ask: Ask, pc: Pc, st': Stores, pc': Pc)
    requires Right(env, st, h) && Local(env, st.objects, h, pc) && OnTrack(st.objects[h].data, ask, pc)
    requires Answers(env, r, h, st, pc, st', pc') && (pc.Reconciling? || pc.Recording? || pc.Stating?)
    ensures StaysRight(st, st', h, ask, pc')
  {
    match pc
    case Reconciling(p) => ReconcileStays(env, h, st, ask, p, st', pc');
    case Recording(p) => RecordStays(env, h, st, ask, p, st', pc');
    case Stating(rec) => StatingStays(h, st, ask, rec, st', pc');
  }

  lemma ReadStays(env: Env, r: Rid, h: Hash, st: Stores, ask: Ask, pc: Pc, st': Stores, pc': Pc)
    requires Right(env, st, h) && Local(env, st.objects, h, pc) && OnTrack(st.objects[h].data, ask, pc)
    requires Answers(env, r, h, st, pc, st', pc') && (pc.Ranging? || pc.Opening? || pc.Pulling?)
    requires Finds(st, h, pc, ask)
    ensures StaysRight(st, st', h, ask, pc')
  {
    match pc
    case Ranging(p) => RangeStays(env, h, st, ask, p, st', pc');
    case Opening(p) => OpenStays(env, h, st, ask, p, st', pc');
    case Pulling(p) => PullStays(h, st, ask, p, st', pc');
  }

  /** A step without a failing call stays on track, and keeps copies and size right. */
  lemma StepStays(env: Env, r: Rid, h: Hash, st: Stores, ask: Ask, pc: Pc, st': Stores, pc': Pc)
    requires StoresOk(env, st) && Local(env, st.objects, h, pc)
    requires CopiesRight(st, h) && SizeRight(st, h) && Finds(st, h, pc, ask)
    requires OnTrack(st.objects[h].data, ask, pc) && Answers(env, r, h, st, pc, st', pc')
    ensures StaysRight(st, st', h, ask, pc')
  {
    if pc.Reconciling? || pc.Recording? || pc.Stating? {
      LookUpStays(env, r, h, st, ask, pc, st', pc');
    } else {
      ReadStays(env, r, h, st, ask, pc, st', pc');
    }
  }

  // ----- among other requests

  /** A run from any state that satisfies the invariant. */
  ghost predicate From(env: Env, run: seq<System>) {
    && |run| > 0 && Inv(env, run[0])
    && forall k :: 0 <= k < |run| - 1 ==> StepAt(env, run, k)
  }

  /** Step k of the run leaves r alone, or is a step of r whose call does not fail and that
      finds copies and size right. */
  ghost predicate HandledAt(env: Env, run: seq<System>, k: nat, r: Rid, h: Hash, ask: Ask)
    requires k + 1 < |run|
  {
    var s, s' := run[k], run[k + 1];
    && r in s.procs && r in s'.procs && s.procs[r].hash == s'.procs[r].hash == h
    && (s'.procs[r].pc == s.procs[r].pc
        || (CopiesRight(s.st, h) && SizeRight(s.st, h) && Finds(s.st, h, s.procs[r].pc, ask)
            && Answers(env, r, h, s.st, s.procs[r].pc, s'.st, s'.procs[r].pc)))
  }

  lemma {:induction false} HandledRun(env: Env, run: seq<System>, j: nat, r: Rid, h: Hash, ask: Ask)
    requires From(env, run) && j < |run| && h in run[0].st.objects
    requires r in run[0].procs && run[0].procs[r].hash == h && Asks(run[0].procs[r].pc, ask)
    requires forall k | 0 <= k < j :: HandledAt(env, run, k, r, h, ask)
    ensures Inv(env, run[j]) && r in run[j].procs && run[j].procs[r].hash == h && h in run[j].st.objects
    ensures run[j].st.objects[h].data == run[0].st.objects[h].data
    ensures OnTrack(run[0].st.objects[h].data, ask, run[j].procs[r].pc)
  {
    if j > 0 {
      HandledRun(env, run, j - 1, r, h, ask);
      var s, s' := run[j - 1], run[j];
      assert StepAt(env, run, j - 1) && HandledAt(env, run, j - 1, r, h, ask);
      NextOk(env, s, s');
      assert ProcOk(env, s.st, r, s.procs[r]);
      if s'.procs[r].pc != s.procs[r].pc {
        StepStays(env, r, h, s.st, ask, s.procs[r].pc, s'.st, s'.procs[r].pc);
      }
    }
  }

  /** Among any other requests, a request none of whose own calls fails ends as it should: an
      existence check of a stored payload reports it with its size, and a pull sends the
      requested part of the object's bytes, or fails exactly when the range is refused or a
      part of an empty payload is read from the object store. */
  lemma AnsweredRight(env: Env, run: seq<System>, j: nat, r: Rid, h: Hash, ask: Ask)
    requires From(env, run) && j < |run| && h in run[0].st.objects
    requires r in run[0].procs && run[0].procs[r].hash == h && Asks(run[0].procs[r].pc, ask)
    requires forall k | 0 <= k < j :: HandledAt(env, run, k, r, h, ask)
    requires r in run[j].procs && Terminal(run[j].procs[r].pc)
    ensures var data := run[0].st.objects[h].data;
            run[j].procs[r].pc ==
            match ask
            case Exists => ExistsDone(true, |data|)
            case Pull(header, ranged) =>
              var body := Ranges.Body(header, data);
              if body.None? || (ranged && data == []) then Failed else PullDone(body.value, header, data)
  {
    HandledRun(env, run, j, r, h, ask);
    assert ProcOk(env, run[j].st, r, run[j].procs[r]);
  }

  // ----- alone

  /** The stores and a request's program counter. */
  datatype Moment = Moment(st: Stores, pc: Pc)

  /** A request of r for h that only takes steps of its own, none of whose calls fails, from
      good stores. */
  ghost predicate AloneRun(env: Env, r: Rid, h: Hash, run: seq<Moment>) {
    && |run| > 0 && StoresOk(env, run[0].st) && (forall k :: k in run[0].st.locks ==> run[0].st.locks[k] != r)
    && forall k :: 0 <= k < |run| - 1 ==> AloneAt(env, r, h, run, k)
  }

  ghost predicate AloneAt(env: Env, r: Rid, h: Hash, run: seq<Moment>, k: nat)
    requires k + 1 < |run|
  {
    Answers(env, r, h, run[k].st, run[k].pc, run[k + 1].st, run[k + 1].pc)
  }

  /** The requests that read. */
  predicate Reads(pc: Pc) {
    match pc
    case Pulling(p) => p.LegacyRouteGet? || p.PullMem?
    case Recording(p) => p.RecordGet? && p.caller.ForExists?
    case _ => false
  }

  /** What a reading request of pc for h should end with: it depends on the object, on the
      Range header and, for a part of an empty payload, on whether a copy is at hand. */
  ghost function Expected(st: Stores, h: Hash, pc: Pc): Pc {
    if h !in st.objects then (if pc.Recording? then ExistsDone(false, 0) else Failed)
    else
      var data := st.objects[h].data;
      match pc
      case Recording(_) => ExistsDone(true, |data|)
      case Pulling(LegacyRouteGet) => if h in st.meta then PullDone(data, None, data) else Failed
      case Pulling(PullMem(header)) =>
        var body := Ranges.Body(header, data);
        if body.None? || (header.Some? && data == [] && h !in st.mem && h !in st.disk) then Failed
        else PullDone(body.value, header, data)
      case _ => pc
  }

  ghost function AskOf(st: Stores, h: Hash, pc: Pc): Ask {
    match pc
    case Pulling(PullMem(header)) => Pull(header, header.Some? && h !in st.mem && h !in st.disk)
    case Pulling(_) => Pull(None, false)
    case _ => Exists
  }

  /** There is nothing to serve. */
  ghost predicate Nothing(st: Stores, h: Hash, pc: Pc) {
    h !in st.objects || (pc == Pulling(LegacyRouteGet) && h !in st.meta)
  }

  ghost predicate NothingOnTrack(first: Pc, pc: Pc) {
    match pc
    case Pulling(_) => pc == first
    case Ranging(p) => p.RangeStat? && first.Pulling? && first.pull.PullMem?
    case Recording(p) =>
      && (p.RecordGet? || p.RecordHeadMissing?) && (p.caller.ForExists? <==> first.Recording?)
      && first != Pulling(LegacyRouteGet)
    case ExistsDone(found, size) => first.Recording? && !found && size == 0
    case Failed => !first.Recording?
    case _ => false
  }

  /** Nothing has been looked up or written yet. */
  predicate Early(pc: Pc) {
    match pc
    case Pulling(p) => p.LegacyRouteGet? || p.PullMem?
    case Ranging(p) => p.RangeStat?
    case _ => false
  }

  /** Where a request alone is at m, having begun at first. */
  ghost predicate AloneOk(env: Env, r: Rid, h: Hash, first: Moment, m: Moment)
    requires Reads(first.pc)
  {
    && StoresOk(env, m.st) && ProcOk(env, m.st, r, Proc(h, m.pc))
    && (Early(m.pc) ==> m.st == first.st && (m.pc.Pulling? ==> m.pc == first.pc))
    && (m.pc.Opening? && m.pc.opener.OpenDisk? ==> h in m.st.disk)
    && if Nothing(first.st, h, first.pc) then m.st == first.st && NothingOnTrack(first.pc, m.pc)
       else
         && StaysRight(first.st, m.st, h, AskOf(first.st, h, first.pc), m.pc)
         && (m.pc.Ranging? && m.pc.range.RangeStat? ==> h !in m.st.mem)
  }

  lemma NothingStays(env: Env, r: Rid, h: Hash, first: Pc, st: Stores, pc: Pc, st': Stores, pc': Pc)
    requires Reads(first) && StoresOk(env, st) && Nothing(st, h, first) && NothingOnTrack(first, pc)
    requires Answers(env, r, h, st, pc, st', pc')
    ensures st' == st && NothingOnTrack(first, pc')
  {
  }

  lemma FindsAlone(env: Env, r: Rid, h: Hash, first: Moment, m: Moment)
    requires Reads(first.pc) && AloneOk(env, r, h, first, m) && !Nothing(first.st, h, first.pc)
    ensures Finds(m.st, h, m.pc, AskOf(first.st, h, first.pc))
  {
  }

  /** What a step leads to: another look-up only from the first, an open only of a file found. */
  lemma StepsTo(env: Env, r: Rid, h: Hash, st: Stores, pc: Pc, st': Stores, pc': Pc)
    requires Proceeds(env, r, h, st, pc, st', pc')
    ensures Early(pc') ==> Early(pc) && st' == st && pc'.Ranging? && h !in st'.mem
    ensures pc'.Opening? && pc'.opener.OpenDisk? ==> h in st'.disk
  {
  }

  lemma AloneStep(env: Env, r: Rid, h: Hash, first: Moment, m: Moment, m': Moment)
    requires Reads(first.pc) && AloneOk(env, r, h, first, m)
    requires Answers(env, r, h, m.st, m.pc, m'.st, m'.pc)
    ensures AloneOk(env, r, h, first, m')
  {
    ActOk(env, r, h, m.st, m.pc, m'.st, m'.pc);
    StepsTo(env, r, h, m.st, m.pc, m'.st, m'.pc);
    if Nothing(first.st, h, first.pc) {
      NothingStays(env, r, h, first.pc, m.st, m.pc, m'.st, m'.pc);
    } else {
      FindsAlone(env, r, h, first, m);
      StepStays(env, r, h, m.st, AskOf(first.st, h, first.pc), m.pc, m'.st, m'.pc);
    }
  }

  lemma {:induction false} AloneKeeps(env: Env, r: Rid, h: Hash, run: seq<Moment>, k: nat)
    requires AloneRun(env, r, h, run) && Reads(run[0].pc) && k < |run|
    requires h in run[0].st.objects ==> CopiesRight(run[0].st, h) && SizeRight(run[0].st, h)
    ensures AloneOk(env, r, h, run[0], run[k])
  {
    if k > 0 {
      AloneKeeps(env, r, h, run, k - 1);
      assert AloneAt(env, r, h, run, k - 1);
      AloneStep(env, r, h, run[0], run[k - 1], run[k]);
    }
  }

  /** A read that is handled alone, from good stores and without a failing call, ends exactly
      as expected: for a payload that is not legacy, whatever its record, as soon as its copies
      in memory and on disk are the object's bytes; for a legacy one, if its record also has
      the object's size. */
  lemma AloneEndsAsExpected(env: Env, r: Rid, h: Hash, run: seq<Moment>, k: nat)
    requires AloneRun(env, r, h, run) && Reads(run[0].pc) && k < |run| && Terminal(run[k].pc)
    requires h in run[0].st.objects ==> CopiesRight(run[0].st, h)
    requires h in run[0].st.objects && h in env.legacy ==> SizeRight(run[0].st, h)
    ensures run[k].pc == Expected(run[0].st, h, run[0].pc)
  {
    if h in run[0].st.objects { assert ObjectOk(env, h, run[0].st.objects[h]); }
    AloneKeeps(env, r, h, run, k);
  }

  lemma CanAnswer(env: Env, r: Rid, h: Hash, st: Stores, pc: Pc) returns (st': Stores, pc': Pc)
    requires Local(env, st.objects, h, pc) && !Terminal(pc) && !pc.Pushing? && !pc.Committing?
    requires pc.Opening? && pc.opener.OpenDisk? ==> h in st.disk
    ensures Answers(env, r, h, st, pc, st', pc')
  {
    match pc {
      case Reconciling(p) => st', pc' := ReconcileProceeds(env, h, st, p);
      case Recording(p) => st', pc' := RecordProceeds(env, h, st, p);
      case Stating(rec) => st', pc' := ExistsProceeds(h, st, rec);
      case Ranging(p) => st', pc' := RangeProceeds(env, h, st, p);
      case Opening(p) => st', pc' := OpenProceeds(env, h, st, p);
      case Pulling(p) => st', pc' := PullProceeds(h, st, p);
    }
  }

  /** A read alone can always go on without a failing call until it ends, as expected. */
  lemma {:induction false} AloneEnds(env: Env, r: Rid, h: Hash, run: seq<Moment>) returns (run': seq<Moment>)
    requires AloneRun(env, r, h, run) && Reads(run[0].pc)
    requires h in run[0].st.objects ==> CopiesRight(run[0].st, h) && SizeRight(run[0].st, h)
    ensures AloneRun(env, r, h, run') && run'[0] == run[0]
    ensures Terminal(run'[|run'| - 1].pc) && run'[|run'| - 1].pc == Expected(run[0].st, h, run[0].pc)
    decreases Rank(run[|run| - 1].pc)
  {
    var last := run[|run| - 1];
    AloneKeeps(env, r, h, run, |run| - 1);
    if Terminal(last.pc) {
      AloneEndsAsExpected(env, r, h, run, |run| - 1);
      return run;
    }
    var st', pc' := CanAnswer(env, r, h, last.st, last.pc);
    ActDescends(env, r, h, last.st, last.pc, st', pc');
    var longer := run + [Moment(st', pc')];
    forall k | 0 <= k < |longer| - 1
      ensures AloneAt(env, r, h, longer, k)
    {
      assert k < |run| - 1 ==> AloneAt(env, r, h, run, k);
    }
    run' := AloneEnds(env, r, h, longer);
  }
}
