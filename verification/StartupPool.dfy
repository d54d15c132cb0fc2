/** The start-up validation of cmd/vaps/startup_check.go: a worker pool fed over an unbuffered
    channel, with cancellation, under any schedule. */
module StartupPool {
  import opened Base
  import opened Durable

  datatype Problem = Missing | Unreachable | Mismatch | ETagMismatch | NoETag | PutFailed

  /** The fixed surroundings: the payloads to check, what Head answers for each (absent is
      ErrNotFound), and the number of workers. */
  datatype Job = Job(payloads: seq<Record>, remotes: map<Hash, Remote>, workers: nat)

  // ----- options

  /** normalizeMetadataValidationOptions, for the worker count; cores is physicalCoreCount. */
  function NormalizedWorkers(workers: int, cores: nat): int {
    if workers == -1 then cores else if workers == 0 then 1 else if workers < -1 then cores else workers
  }

  function CoreCount(physical: int, logical: int): (n: nat)
    ensures n >= 1
  {
    if physical > 0 then physical else if logical > 0 then logical else 1
  }

  /** The pool has as many workers as configured, one for zero, and one a physical core, or
      else a logical one, for a negative number: always at least one. */
  lemma PoolIsNotEmpty(workers: int, physical: int, logical: int)
    ensures var n := NormalizedWorkers(workers, CoreCount(physical, logical));
            && n >= 1
            && (workers > 0 ==> n == workers) && (workers == 0 ==> n == 1)
            && (workers < 0 && physical > 0 ==> n == physical)
            && (workers < 0 && physical <= 0 < logical ==> n == logical)
            && (workers < 0 && physical <= 0 && logical <= 0 ==> n == 1)
  {
  }

  // ----- one payload

  /** validateMetadataPayloadInfo returns nil */
  predicate InfoMatches(p: Record, remote: Remote) {
    remote.hash == p.hash && FormChecksum(remote.form) == p.checksum && remote.size == p.size
  }

  /** The worker's verdict on a Head that answered. */
  function Verdict(p: Record, answer: Option<Remote>): Option<Problem> {
    match answer
    case None => Some(Missing)
    case Some(remote) =>
      if !InfoMatches(p, remote) then Some(Mismatch)
      else if p.etag.Some? && remote.etag != p.etag then Some(ETagMismatch)
      else if p.etag.None? && remote.etag.None? then Some(NoETag)
      else None
  }

  function Answer(job: Job, i: nat): Option<Remote>
    requires i < |job.payloads|
  {
    var h := job.payloads[i].hash;
    if h in job.remotes then Some(job.remotes[h]) else None
  }

  ghost predicate Valid(job: Job) {
    && job.workers >= 1
    && forall i, j :: 0 <= i < j < |job.payloads| ==> job.payloads[i].hash != job.payloads[j].hash
  }

  // ----- the pool

  /** A worker's program counter: at its select, holding payload i, about to write its ETag,
      about to count it, about to record an error, or gone. */
  datatype Worker =
    | Idle
    | Heading(i: nat)
    | Putting(i: nat, etag: Option<ETag>)
    | Counting(i: nat, problem: Option<Problem>)
    | Reporting(reported: Problem)
    | Gone

  /** The sender: offering payload next, waiting for the workers, or returned. */
  datatype Main = Sending(next: nat) | Waiting | Returned(error: Option<Problem>, cancelled: bool)

  /** parent is the caller's context, cancelled the pool's own; closed says that jobs is
      closed. heard and checks record history: the problems in the order the workers
      reported them, and how often each payload was counted. */
  datatype Pool = Pool(
    main: Main,
    workers: seq<Worker>,
    parent: bool,
    cancelled: bool,
    closed: bool,
    firstErr: Option<Problem>,
    checked: nat,
    meta: map<Hash, Record>,
    heard: seq<Problem>,
    checks: seq<nat>)

  datatype Step =
    | Send(w: nat)
    | StopSending
    | WorkerQuits(w: nat)
    | HeadAnswers(w: nat)
    | HeadFails(w: nat)
    | PutETag(w: nat, fails: bool)
    | Count(w: nat)
    | Report(w: nat)
    | Wait
    | ParentCancels

  ghost predicate Is(s: Pool, w: nat, pc: Worker) { w < |s.workers| && s.workers[w] == pc }

  ghost predicate Enabled(job: Job, s: Pool, step: Step) {
    match step
    case Send(w) => s.main.Sending? && s.main.next < |job.payloads| && Is(s, w, Idle)
    case StopSending => s.main.Sending? && (s.cancelled || s.main.next >= |job.payloads|)
    case WorkerQuits(w) => Is(s, w, Idle) && (s.cancelled || s.closed)
    case HeadAnswers(w) => w < |s.workers| && s.workers[w].Heading? && s.workers[w].i < |job.payloads|
    case HeadFails(w) => w < |s.workers| && s.workers[w].Heading? && s.workers[w].i < |job.payloads|
    case PutETag(w, _) => w < |s.workers| && s.workers[w].Putting? && s.workers[w].i < |job.payloads|
    case Count(w) => w < |s.workers| && s.workers[w].Counting? && s.workers[w].i < |s.checks|
    case Report(w) => w < |s.workers| && s.workers[w].Reporting?
    case Wait => s.main.Waiting? && forall w :: 0 <= w < |s.workers| ==> s.workers[w].Gone?
    case ParentCancels => !s.parent && !s.main.Returned?
  }

  ghost function Set(s: Pool, w: nat, pc: Worker): Pool
    requires w < |s.workers|
  {
    s.(workers := s.workers[w := pc])
  }

  ghost function Do(job: Job, s: Pool, step: Step): Pool
    requires Enabled(job, s, step)
  {
    match step
    case Send(w) => Set(s, w, Heading(s.main.next)).(main := Sending(s.main.next + 1))
    case StopSending => s.(main := Waiting, closed := true)
    case WorkerQuits(w) => Set(s, w, Gone)
    case HeadAnswers(w) =>
      var i := s.workers[w].i;
      var p, verdict := job.payloads[i], Verdict(job.payloads[i], Answer(job, i));
      Set(s, w, if verdict.None? && p.etag.None? then Putting(i, Answer(job, i).value.etag) else Counting(i, verdict))
    case HeadFails(w) => Set(s, w, Counting(s.workers[w].i, Some(Unreachable)))
    case PutETag(w, fails) =>
      var i := s.workers[w].i;
      var p := job.payloads[i].(etag := s.workers[w].etag);
      if fails then Set(s, w, Counting(i, Some(PutFailed)))
      else Set(s, w, Counting(i, None)).(meta := s.meta[p.hash := p])
    case Count(w) =>
      var pc := s.workers[w];
      Set(s, w, if pc.problem.Some? then Reporting(pc.problem.value) else Idle)
      .(checked := s.checked + 1, checks := s.checks[pc.i := s.checks[pc.i] + 1])
    case Report(w) =>
      var problem := s.workers[w].reported;
      Set(s, w, Gone).(firstErr := if s.firstErr.Some? then s.firstErr else Some(problem),
                       cancelled := true, heard := s.heard + [problem])
    case Wait => s.(main := Returned(s.firstErr, s.parent))
    case ParentCancels => s.(parent := true, cancelled := true)
  }

  // ----- what every step keeps

  /** Payload i is in this worker's hands. */
  ghost predicate Holds(pc: Worker, i: nat) {
    (pc.Heading? || pc.Putting? || pc.Counting?) && pc.i == i
  }

  ghost predicate InHand(workers: seq<Worker>, i: nat) {
    exists w :: 0 <= w < |workers| && Holds(workers[w], i)
  }

  /** A problem was reported or is about to be. */
  ghost predicate Troubled(s: Pool) {
    s.heard != [] || exists w :: 0 <= w < |s.workers| && s.workers[w].Reporting?
  }

  /** Payload i matched its remote object, and its record now has that object's ETag. */
  ghost predicate Good(job: Job, meta: map<Hash, Record>, i: nat)
    requires i < |job.payloads|
  {
    var p := job.payloads[i];
    && p.hash in job.remotes && InfoMatches(p, job.remotes[p.hash]) && job.remotes[p.hash].etag.Some?
    && p.hash in meta && meta[p.hash] == p.(etag := job.remotes[p.hash].etag)
  }

  /** What a worker knows about the payload in its hands. */
  ghost predicate WorkerOk(job: Job, s: Pool, pc: Worker) {
    match pc
    case Heading(i) => i < |s.checks| && s.checks[i] == 0
    case Putting(i, etag) =>
      && i < |s.checks| && s.checks[i] == 0 && i < |job.payloads|
      && job.payloads[i].etag.None? && etag.Some?
      && job.payloads[i].hash in job.remotes
      && InfoMatches(job.payloads[i], job.remotes[job.payloads[i].hash])
      && job.remotes[job.payloads[i].hash].etag == etag
    case Counting(i, problem) =>
      && i < |s.checks| && s.checks[i] == 0 && i < |job.payloads|
      && (problem.None? ==> Good(job, s.meta, i))
    case Gone => s.cancelled || s.closed
    case _ => true
  }

  /** Payload i is counted at most once; unsent, it is untouched; sent, it is in hand or
      counted; counted, it was good or a problem was reported. */
  ghost predicate PayloadOk(job: Job, s: Pool, i: nat)
    requires i < |s.checks| && i < |job.payloads|
  {
    var p := job.payloads[i];
    && s.checks[i] <= 1
    && (s.main.Sending? && s.main.next <= i ==> s.checks[i] == 0 && !InHand(s.workers, i))
    && ((if s.main.Sending? then i < s.main.next else !s.cancelled) ==> s.checks[i] == 1 || InHand(s.workers, i))
    && (s.checks[i] == 1 ==> Good(job, s.meta, i) || Troubled(s))
    && (p.etag.Some? ==> p.hash in s.meta && s.meta[p.hash] == p)
  }

  ghost predicate MainOk(job: Job, s: Pool) {
    && (s.main.Sending? ==> s.main.next <= |job.payloads|)
    && (s.closed <==> !s.main.Sending?)
    && (s.cancelled <==> s.parent || s.heard != [])
    && s.firstErr == (if s.heard == [] then None else Some(s.heard[0]))
    && (s.main.Returned? ==> forall w :: 0 <= w < |s.workers| ==> s.workers[w].Gone?)
    && (s.main.Returned? ==> s.main == Returned(s.firstErr, s.parent))
  }

  /** Two workers never hold the same payload. */
  ghost predicate Exclusive(workers: seq<Worker>) {
    forall w, v, i: nat | 0 <= w < |workers| && 0 <= v < |workers| && Holds(workers[w], i)
                          && Holds(workers[v], i) :: w == v
  }

  ghost predicate Inv(job: Job, s: Pool) {
    && |s.workers| == job.workers && |s.checks| == |job.payloads|
    && MainOk(job, s)
    && Exclusive(s.workers)
    && (forall w :: 0 <= w < |s.workers| ==> WorkerOk(job, s, s.workers[w]))
    && (forall i :: 0 <= i < |s.checks| ==> PayloadOk(job, s, i))
  }

  /** Every worker at its select, nothing sent, and the metadata holding the payloads. */
  ghost predicate Start(job: Job, s: Pool) {
    && s.main == Sending(0) && s.workers == seq(job.workers, i => Idle)
    && !s.cancelled && !s.closed && s.firstErr.None? && s.checked == 0 && s.heard == []
    && s.checks == seq(|job.payloads|, i => 0)
    && !s.parent
    && forall p :: p in job.payloads ==> p.hash in s.meta && s.meta[p.hash] == p
  }

  lemma StartOk(job: Job, s: Pool)
    requires Start(job, s)
    ensures Inv(job, s)
  {
  }

  lemma HandMoves(workers: seq<Worker>, w: nat, pc: Worker, i: nat)
    requires w < |workers|
    ensures Holds(pc, i) ==> InHand(workers[w := pc], i)
    ensures InHand(workers, i) && !Holds(workers[w], i) ==> InHand(workers[w := pc], i)
    ensures InHand(workers[w := pc], i) ==> InHand(workers, i) || Holds(pc, i)
    ensures Exclusive(workers) && Holds(workers[w], i) && !Holds(pc, i) ==> !InHand(workers[w := pc], i)
  {
    var workers' := workers[w := pc];
    if Holds(pc, i) { assert Holds(workers'[w], i); }
    if InHand(workers, i) && !Holds(workers[w], i) {
      var v :| 0 <= v < |workers| && Holds(workers[v], i);
      assert Holds(workers'[v], i);
    }
    if InHand(workers', i) && !Holds(pc, i) {
      var v :| 0 <= v < |workers'| && Holds(workers'[v], i);
      assert v != w && Holds(workers[v], i);
    }
  }

  lemma SendOk(job: Job, s: Pool, w: nat)
    requires Valid(job) && Inv(job, s) && Enabled(job, s, Send(w))
    ensures Inv(job, Do(job, s, Send(w)))
  {
    var n, s' := s.main.next, Do(job, s, Send(w));
    forall i | 0 <= i < |s.checks|
      ensures PayloadOk(job, s', i)
    {
      assert PayloadOk(job, s, i);
      HandMoves(s.workers, w, Heading(n), i);
      if Troubled(s) && s.heard == [] {
        var v :| 0 <= v < |s.workers| && s.workers[v].Reporting?;
        assert s'.workers[v].Reporting?;
      }
    }
    assert PayloadOk(job, s, n);
  }

  /** A worker that stays with its payload, or goes without one, changes nothing else. */
  lemma WorkerMoves(job: Job, s: Pool, w: nat, pc: Worker)
    requires Inv(job, s) && w < |s.workers| && WorkerOk(job, s, pc) && !s.workers[w].Gone? && !s.workers[w].Reporting?
    requires forall i :: Holds(s.workers[w], i) <==> Holds(pc, i)
    requires s.main.Returned? ==> pc.Gone?
    ensures Inv(job, Set(s, w, pc))
  {
    var s' := Set(s, w, pc);
    forall i | 0 <= i < |s.checks|
      ensures PayloadOk(job, s', i)
    {
      assert PayloadOk(job, s, i);
      HandMoves(s.workers, w, pc, i);
      if Troubled(s) && s.heard == [] {
        var v :| 0 <= v < |s.workers| && s.workers[v].Reporting?;
        assert s'.workers[v].Reporting?;
      }
    }
  }

  lemma HeadOk(job: Job, s: Pool, step: Step)
    requires Valid(job) && Inv(job, s) && Enabled(job, s, step) && (step.HeadAnswers? || step.HeadFails?)
    ensures Inv(job, Do(job, s, step))
  {
    var w := step.w;
    var i := s.workers[w].i;
    assert PayloadOk(job, s, i);
    WorkerMoves(job, s, w, Do(job, s, step).workers[w]);
  }

  lemma PutOk(job: Job, s: Pool, w: nat, fails: bool)
    requires Valid(job) && Inv(job, s) && Enabled(job, s, PutETag(w, fails))
    ensures Inv(job, Do(job, s, PutETag(w, fails)))
  {
    var i := s.workers[w].i;
    var p := job.payloads[i].(etag := s.workers[w].etag);
    assert WorkerOk(job, s, s.workers[w]);
    if fails {
      WorkerMoves(job, s, w, Counting(i, Some(PutFailed)));
    } else {
      var t := s.(meta := s.meta[p.hash := p]);
      MetaWritten(job, s, i, p);
      WorkerMoves(job, t, w, Counting(i, None));
      assert Do(job, s, PutETag(w, fails)) == Set(t, w, Counting(i, None));
    }
  }

  /** Writing the ETag of payload i disturbs no other payload. */
  lemma MetaWritten(job: Job, s: Pool, i: nat, p: Record)
    requires Valid(job) && Inv(job, s) && i < |job.payloads| && job.payloads[i].etag.None?
    requires job.payloads[i].hash in job.remotes && InfoMatches(job.payloads[i], job.remotes[job.payloads[i].hash])
    requires job.remotes[job.payloads[i].hash].etag.Some?
             && p == job.payloads[i].(etag := job.remotes[job.payloads[i].hash].etag)
    ensures Inv(job, s.(meta := s.meta[p.hash := p])) && Good(job, s.meta[p.hash := p], i)
  {
    var t := s.(meta := s.meta[p.hash := p]);
    forall j | 0 <= j < |job.payloads|
      ensures Good(job, s.meta, j) ==> Good(job, t.meta, j)
      ensures PayloadOk(job, t, j)
    {
      assert PayloadOk(job, s, j);
    }
    forall w | 0 <= w < |s.workers|
      ensures WorkerOk(job, t, s.workers[w])
    {
      assert WorkerOk(job, s, s.workers[w]);
    }
  }

  lemma CountOk(job: Job, s: Pool, w: nat)
    requires Valid(job) && Inv(job, s) && Enabled(job, s, Count(w))
    ensures Inv(job, Do(job, s, Count(w)))
  {
    var n, s' := s.workers[w].i, Do(job, s, Count(w));
    var pc := s'.workers[w];
    assert WorkerOk(job, s, s.workers[w]);
    forall i | 0 <= i < |s.checks|
      ensures PayloadOk(job, s', i)
    {
      assert PayloadOk(job, s, i);
      HandMoves(s.workers, w, pc, i);
      if Troubled(s) && s.heard == [] {
        var v :| 0 <= v < |s.workers| && s.workers[v].Reporting?;
        assert s'.workers[v].Reporting?;
      }
    }
    forall v | 0 <= v < |s.workers|
      ensures WorkerOk(job, s', s'.workers[v])
    {
      assert WorkerOk(job, s, s.workers[v]);
      assert Holds(s.workers[w], n);
      if v != w { assert !Holds(s.workers[v], n); }
    }
  }

  lemma ReportOk(job: Job, s: Pool, w: nat)
    requires Valid(job) && Inv(job, s) && Enabled(job, s, Report(w))
    ensures Inv(job, Do(job, s, Report(w)))
  {
    var s' := Do(job, s, Report(w));
    forall i | 0 <= i < |s.checks|
      ensures PayloadOk(job, s', i)
    {
      assert PayloadOk(job, s, i);
      HandMoves(s.workers, w, Gone, i);
    }
    forall v | 0 <= v < |s.workers|
      ensures WorkerOk(job, s', s'.workers[v])
    {
      assert WorkerOk(job, s, s.workers[v]);
    }
  }

  lemma MainStepOk(job: Job, s: Pool, step: Step)
    requires Valid(job) && Inv(job, s) && Enabled(job, s, step)
             && (step.StopSending? || step.Wait? || step.ParentCancels?)
    ensures Inv(job, Do(job, s, step))
  {
    var s' := Do(job, s, step);
    forall i | 0 <= i < |s.checks|
      ensures PayloadOk(job, s', i)
    {
      assert PayloadOk(job, s, i);
    }
    forall v | 0 <= v < |s.workers|
      ensures WorkerOk(job, s', s'.workers[v])
    {
      assert WorkerOk(job, s, s.workers[v]);
    }
  }

  lemma DoOk(job: Job, s: Pool, step: Step)
    requires Valid(job) && Inv(job, s) && Enabled(job, s, step)
    ensures Inv(job, Do(job, s, step))
  {
    match step
    case Send(w) => SendOk(job, s, w);
    case WorkerQuits(w) => WorkerMoves(job, s, w, Gone);
    case HeadAnswers(_) => HeadOk(job, s, step);
    case HeadFails(_) => HeadOk(job, s, step);
    case PutETag(w, fails) => PutOk(job, s, w, fails);
    case Count(w) => CountOk(job, s, w);
    case Report(w) => ReportOk(job, s, w);
    case _ => MainStepOk(job, s, step);
  }

  // ----- schedules

  ghost predicate StepAt(job: Job, run: seq<Pool>, k: nat)
    requires k + 1 < |run|
  {
    exists step :: Enabled(job, run[k], step) && run[k + 1] == Do(job, run[k], step)
  }

  ghost predicate IsRun(job: Job, run: seq<Pool>) {
    Valid(job) && |run| > 0 && Start(job, run[0]) && forall k :: 0 <= k < |run| - 1 ==> StepAt(job, run, k)
  }

  lemma {:induction false} RunInv(job: Job, run: seq<Pool>, k: nat)
    requires IsRun(job, run) && k < |run|
    ensures Inv(job, run[k])
  {
    if k == 0 {
      StartOk(job, run[0]);
    } else {
      RunInv(job, run, k - 1);
      assert StepAt(job, run, k - 1);
      var step :| Enabled(job, run[k - 1], step) && run[k] == Do(job, run[k - 1], step);
      DoOk(job, run[k - 1], step);
    }
  }

  /** A step that is neither a failing call nor an outside cancellation. */
  predicate CalmStep(step: Step) { !step.HeadFails? && !(step.PutETag? && step.fails) && !step.ParentCancels? }

  /** The pool never deadlocks: until the function returns, some step can be taken that is
      neither an outside cancellation nor a failure; and a worker is gone only once the
      context is cancelled or the channel closed. */
  lemma NeverDeadlocks(job: Job, run: seq<Pool>, k: nat) returns (step: Step)
    requires IsRun(job, run) && k < |run| && !run[k].main.Returned?
    ensures CalmStep(step) && Enabled(job, run[k], step)
    ensures forall w :: 0 <= w < |run[k].workers| && run[k].workers[w].Gone? ==> run[k].cancelled || run[k].closed
  {
    RunInv(job, run, k);
    var s := run[k];
    forall w | 0 <= w < |s.workers| && s.workers[w].Gone?
      ensures s.cancelled || s.closed
    {
      assert WorkerOk(job, s, s.workers[w]);
    }
    if w :| 0 <= w < |s.workers| && !s.workers[w].Gone? {
      assert WorkerOk(job, s, s.workers[w]);
      match s.workers[w]
      case Heading(_) => step := HeadAnswers(w);
      case Putting(_, _) => step := PutETag(w, false);
      case Counting(_, _) => step := Count(w);
      case Reporting(_) => step := Report(w);
      case Idle =>
        step := if s.cancelled || s.closed then WorkerQuits(w)
                else if s.main.next < |job.payloads| then Send(w) else StopSending;
    } else if s.main.Waiting? {
      step := Wait;
    } else {
      assert s.workers[0].Gone?;
      step := StopSending;
    }
  }

  function WorkerRank(pc: Worker): nat {
    match pc
    case Idle => 1
    case Heading(_) => 5
    case Putting(_, _) => 4
    case Counting(_, _) => 3
    case Reporting(_) => 2
    case Gone => 0
  }

  function WorkersRank(workers: seq<Worker>): nat {
    if workers == [] then 0 else WorkerRank(workers[0]) + WorkersRank(workers[1..])
  }

  function MainRank(job: Job, main: Main): int {
    match main
    case Sending(next) => 5 * (|job.payloads| - next) + 2
    case Waiting => 1
    case Returned(_, _) => 0
  }

  function Rank(job: Job, s: Pool): int {
    (if s.parent then 0 else 1) + MainRank(job, s.main) + WorkersRank(s.workers)
  }

  lemma {:induction false} RankMoves(workers: seq<Worker>, w: nat, pc: Worker)
    requires w < |workers|
    ensures WorkersRank(workers[w := pc]) == WorkersRank(workers) - WorkerRank(workers[w]) + WorkerRank(pc)
  {
    if w > 0 {
      assert workers[w := pc][1..] == workers[1..][w - 1 := pc];
      RankMoves(workers[1..], w - 1, pc);
    } else {
      assert workers[w := pc][1..] == workers[1..];
    }
  }

  lemma WorkerDescends(job: Job, s: Pool, w: nat, pc: Worker, main: Main)
    requires w < |s.workers| && MainRank(job, main) >= 0
    requires MainRank(job, main) + WorkerRank(pc) < MainRank(job, s.main) + WorkerRank(s.workers[w])
    ensures 0 <= Rank(job, Set(s, w, pc).(main := main)) < Rank(job, s)
  {
    RankMoves(s.workers, w, pc);
  }

  lemma StepDescends(job: Job, s: Pool, step: Step)
    requires MainOk(job, s) && Enabled(job, s, step)
    ensures 0 <= Rank(job, Do(job, s, step)) < Rank(job, s)
  {
    match step
    case Send(w) => WorkerDescends(job, s, w, Heading(s.main.next), Sending(s.main.next + 1));
    case WorkerQuits(w) => WorkerDescends(job, s, w, Gone, s.main);
    case HeadAnswers(w) => WorkerDescends(job, s, w, Do(job, s, step).workers[w], s.main);
    case HeadFails(w) => WorkerDescends(job, s, w, Counting(s.workers[w].i, Some(Unreachable)), s.main);
    case PutETag(w, fails) => WorkerDescends(job, s, w,
                                             Counting(s.workers[w].i, if fails then Some(PutFailed) else None), s.main);
    case Count(w) => WorkerDescends(job, s, w, Do(job, s, step).workers[w], s.main);
    case Report(w) => WorkerDescends(job, s, w, Gone, s.main);
    case _ =>
  }

  /** Every schedule ends: no run is longer than 5 steps a payload, one a worker, and three. */
  lemma {:induction false} EveryScheduleEnds(job: Job, run: seq<Pool>, k: nat)
    requires IsRun(job, run) && k < |run|
    ensures k + Rank(job, run[k]) <= 5 * |job.payloads| + job.workers + 3
    ensures k <= 5 * |job.payloads| + job.workers + 3
  {
    if k == 0 {
      IdleRank(run[0].workers);
    } else {
      EveryScheduleEnds(job, run, k - 1);
      RunInv(job, run, k - 1);
      assert StepAt(job, run, k - 1);
      var step :| Enabled(job, run[k - 1], step) && run[k] == Do(job, run[k - 1], step);
      StepDescends(job, run[k - 1], step);
    }
  }

  lemma {:induction false} IdleRank(workers: seq<Worker>)
    requires forall w :: 0 <= w < |workers| ==> workers[w].Idle?
    ensures WorkersRank(workers) == |workers|
  {
    if workers != [] { IdleRank(workers[1..]); }
  }

  /** The error returned is exactly the first problem a worker reported; none means that no
      worker reported any. */
  lemma FirstErrorIsReturned(job: Job, run: seq<Pool>, k: nat)
    requires IsRun(job, run) && k < |run| && run[k].main.Returned?
    ensures run[k].main.error == if run[k].heard == [] then None else Some(run[k].heard[0])
    ensures run[k].main.cancelled == run[k].parent
  {
    RunInv(job, run, k);
  }

  /** A nil result means that every payload was checked exactly once, matched its remote
      object, and now has that object's ETag in the metadata. */
  lemma NilMeansAllGood(job: Job, run: seq<Pool>, k: nat, i: nat)
    requires IsRun(job, run) && k < |run| && run[k].main == Returned(None, false) && i < |job.payloads|
    ensures |run[k].checks| == |job.payloads| && run[k].checks[i] == 1
    ensures var p := job.payloads[i];
            && p.hash in job.remotes && InfoMatches(p, job.remotes[p.hash])
            && p.hash in run[k].meta && run[k].meta[p.hash].etag.Some?
            && run[k].meta[p.hash] == p.(etag := job.remotes[p.hash].etag)
            && (p.etag.Some? ==> run[k].meta[p.hash] == p)
  {
    RunInv(job, run, k);
    var s := run[k];
    assert PayloadOk(job, s, i);
    assert forall w | 0 <= w < |s.workers| :: s.workers[w].Gone?;
    assert !InHand(s.workers, i) && !Troubled(s);
  }

  // ----- the listing pass before the pool

  /** The ETag and size that List reports for a hash. */
  datatype Listed = Listed(hash: Hash, etag: Option<ETag>, size: nat)

  ghost predicate LastListed(listing: seq<Listed>, h: Hash, l: Listed) {
    exists k :: 0 <= k < |listing| && listing[k] == l && l.hash == h
       && forall j | k < j < |listing| :: listing[j].hash != h
  }

  predicate ListProblem(p: Record, byHash: map<Hash, Listed>) {
    || p.hash !in byHash
    || byHash[p.hash].size != p.size
    || (p.etag.Some? && byHash[p.hash].etag != p.etag)
  }

  lemma LaterListed(listing: seq<Listed>, i: nat, h: Hash, l: Listed)
    requires i < |listing| && listing[i].hash != h && LastListed(listing[..i], h, l)
    ensures LastListed(listing[..i + 1], h, l)
  {
    var before, after := listing[..i], listing[..i + 1];
    assert forall j | 0 <= j < i :: after[j] == before[j];
  }

  method ByHash(listing: seq<Listed>) returns (byHash: map<Hash, Listed>)
    ensures forall h :: h in byHash ==> LastListed(listing, h, byHash[h])
    ensures forall k :: 0 <= k < |listing| ==> listing[k].hash in byHash
  {
    byHash := map[];
    for i := 0 to |listing|
      invariant forall h :: h in byHash ==> LastListed(listing[..i], h, byHash[h])
      invariant forall k :: 0 <= k < i ==> listing[k].hash in byHash
    {
      forall h | h in byHash && h != listing[i].hash
        ensures LastListed(listing[..i + 1], h, byHash[h])
      {
        LaterListed(listing, i, h, byHash[h]);
      }
      assert LastListed(listing[..i + 1], listing[i].hash, listing[i]) by {
        assert listing[..i + 1][i] == listing[i];
      }
      byHash := byHash[listing[i].hash := listing[i]];
    }
    assert listing[..|listing|] == listing;
  }

  ghost function WithoutETag(payloads: seq<Record>): seq<Record> {
    if payloads == [] then []
    else
      var rest, last := payloads[..|payloads| - 1], payloads[|payloads| - 1];
      WithoutETag(rest) + if last.etag.None? then [last] else []
  }

  /** The loop of validateMetadataPayloadsWithList: it succeeds exactly when every payload is
      listed with its size and, if it has one, its ETag; it returns the payloads that still
      need a Head, in order, and counts the others. */
  method ListPass(payloads: seq<Record>, byHash: map<Hash, Listed>)
    returns (ok: bool, missing: seq<Record>, checked: nat)
    ensures ok <==> forall k | 0 <= k < |payloads| :: !ListProblem(payloads[k], byHash)
    ensures ok ==> missing == WithoutETag(payloads) && checked + |missing| == |payloads|
  {
    missing, checked := [], 0;
    for i := 0 to |payloads|
      invariant forall k | 0 <= k < i :: !ListProblem(payloads[k], byHash)
      invariant missing == WithoutETag(payloads[..i]) && checked + |missing| == i
    {
      var p := payloads[i];
      assert payloads[..i + 1][..i] == payloads[..i];
      if p.hash !in byHash { return false, [], checked; }
      var remote := byHash[p.hash];
      if remote.size != p.size { return false, [], checked; }
      if p.etag.None? {
        missing := missing + [p];
      } else {
        if remote.etag.None? || remote.etag != p.etag { return false, [], checked; }
        checked := checked + 1;
      }
    }
    assert payloads[..|payloads|] == payloads;
    ok := true;
  }

  lemma {:induction false} WithoutETagMembers(payloads: seq<Record>, p: Record)
    ensures p in WithoutETag(payloads) <==> p in payloads && p.etag.None?
  {
    if payloads != [] {
      WithoutETagMembers(payloads[..|payloads| - 1], p);
      assert payloads == payloads[..|payloads| - 1] + [payloads[|payloads| - 1]];
    }
  }

  lemma MetaStep(job: Job, s: Pool, step: Step)
    requires Enabled(job, s, step) && forall p :: p in job.payloads ==> p.hash in s.meta
    ensures var s' := Do(job, s, step);
            && s'.meta.Keys == s.meta.Keys
            && forall h | h in s.meta && (forall p :: p in job.payloads ==> p.hash != h) :: s'.meta[h] == s.meta[h]
  {
    if step.PutETag? { assert job.payloads[s.workers[step.w].i] in job.payloads; }
  }

  /** The pool writes only records it was given, and adds none. */
  lemma {:induction false} MetaFrame(job: Job, run: seq<Pool>, k: nat)
    requires IsRun(job, run) && k < |run|
    ensures run[k].meta.Keys == run[0].meta.Keys
    ensures forall h | h in run[0].meta && (forall p :: p in job.payloads ==> p.hash != h) ::
              run[k].meta[h] == run[0].meta[h]
  {
    if k > 0 {
      MetaFrame(job, run, k - 1);
      assert StepAt(job, run, k - 1);
      var step :| Enabled(job, run[k - 1], step) && run[k] == Do(job, run[k - 1], step);
      MetaStep(job, run[k - 1], step);
    }
  }
}
