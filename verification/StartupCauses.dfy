/** Why the start-up validation of cmd/vaps/startup_check.go accepts or refuses: every problem
    that its pool reports has a cause, and without failing calls the pool accepts exactly the
    payloads that agree with their remote objects. */
module StartupCauses {
  import opened Base
  import opened Durable
  import opened StartupPool

  /** The payload's object is there with its checksum, its size and a non-empty ETag, the
      payload's own if it has one. */
  ghost predicate Agrees(p: Record, remotes: map<Hash, Remote>) {
    && p.hash in remotes && remotes[p.hash].hash == p.hash
    && remotes[p.hash].form == (if p.checksum.Some? then Checked(p.checksum.value) else Legacy)
    && remotes[p.hash].size == p.size
    && remotes[p.hash].etag.Some?
    && (p.etag.Some? ==> remotes[p.hash].etag == p.etag)
  }

  /** What is wrong with a payload for which this problem is reported. An unreachable object
      and a record that cannot be written are no fault of the payload; in a calm run there are
      none. */
  ghost predicate Cause(p: Record, remotes: map<Hash, Remote>, problem: Problem, calm: bool) {
    match problem
    case Missing => p.hash !in remotes
    case Mismatch =>
      && p.hash in remotes
      && (remotes[p.hash].hash != p.hash || remotes[p.hash].size != p.size
          || remotes[p.hash].form != if p.checksum.Some? then Checked(p.checksum.value) else Legacy)
    case ETagMismatch => p.hash in remotes && p.etag.Some? && remotes[p.hash].etag != p.etag
    case NoETag => p.hash in remotes && p.etag.None? && remotes[p.hash].etag.None?
    case _ => !calm
  }

  ghost predicate Caused(job: Job, problem: Problem, calm: bool) {
    exists i :: 0 <= i < |job.payloads| && Cause(job.payloads[i], job.remotes, problem, calm)
  }

  lemma VerdictCause(p: Record, remotes: map<Hash, Remote>, calm: bool)
    ensures var verdict := Verdict(p, if p.hash in remotes then Some(remotes[p.hash]) else None);
            if verdict.Some? then Cause(p, remotes, verdict.value, calm) else Agrees(p, remotes)
  {
  }

  // ----- runs

  ghost predicate CalmAt(job: Job, run: seq<Pool>, k: nat)
    requires k + 1 < |run|
  {
    exists step :: CalmStep(step) && Enabled(job, run[k], step) && run[k + 1] == Do(job, run[k], step)
  }

  ghost predicate Calm(job: Job, run: seq<Pool>) { forall k :: 0 <= k < |run| - 1 ==> CalmAt(job, run, k) }

  ghost predicate WorkerCaused(job: Job, pc: Worker, calm: bool) {
    match pc
    case Counting(i, problem) =>
      problem.Some? ==> i < |job.payloads| && Cause(job.payloads[i], job.remotes, problem.value, calm)
    case Reporting(problem) => Caused(job, problem, calm)
    case _ => true
  }

  ghost predicate CausesOk(job: Job, s: Pool, calm: bool) {
    && (calm ==> !s.parent)
    && (forall w :: 0 <= w < |s.workers| ==> WorkerCaused(job, s.workers[w], calm))
    && (forall k :: 0 <= k < |s.heard| ==> Caused(job, s.heard[k], calm))
  }

  lemma StepCauses(job: Job, s: Pool, step: Step, calm: bool)
    requires CausesOk(job, s, calm) && Enabled(job, s, step) && (calm ==> CalmStep(step))
    ensures CausesOk(job, Do(job, s, step), calm)
  {
    var s' := Do(job, s, step);
    if step.HeadAnswers? { VerdictCause(job.payloads[s.workers[step.w].i], job.remotes, calm); }
    forall w | 0 <= w < |s'.workers|
      ensures WorkerCaused(job, s'.workers[w], calm)
    {
      assert WorkerCaused(job, s.workers[w], calm);
    }
    forall k | 0 <= k < |s'.heard|
      ensures Caused(job, s'.heard[k], calm)
    {
      if step.Report? { assert WorkerCaused(job, s.workers[step.w], calm); }
      assert k < |s.heard| ==> Caused(job, s.heard[k], calm);
    }
  }

  lemma {:induction false} RunCauses(job: Job, run: seq<Pool>, k: nat, calm: bool)
    requires IsRun(job, run) && k < |run| && (calm ==> Calm(job, run))
    ensures CausesOk(job, run[k], calm)
  {
    if k > 0 {
      RunCauses(job, run, k - 1, calm);
      assert StepAt(job, run, k - 1);
      if calm {
        assert CalmAt(job, run, k - 1);
        var step :| CalmStep(step) && Enabled(job, run[k - 1], step) && run[k] == Do(job, run[k - 1], step);
        StepCauses(job, run[k - 1], step, calm);
      } else {
        var step :| Enabled(job, run[k - 1], step) && run[k] == Do(job, run[k - 1], step);
        StepCauses(job, run[k - 1], step, calm);
      }
    }
  }

  /** The error returned has a cause: a payload that is wrong in that way, or a call that
      failed. */
  lemma ErrorHasCause(job: Job, run: seq<Pool>, k: nat)
    requires IsRun(job, run) && k < |run| && run[k].main.Returned? && run[k].main.error.Some?
    ensures exists p :: p in job.payloads && Cause(p, job.remotes, run[k].main.error.value, false)
  {
    RunCauses(job, run, k, false);
    FirstErrorIsReturned(job, run, k);
    assert Caused(job, run[k].heard[0], false);
    var i :| 0 <= i < |job.payloads| && Cause(job.payloads[i], job.remotes, run[k].heard[0], false);
    assert job.payloads[i] in job.payloads;
  }

  /** Without a failing call or an outside cancellation, the pool returns nil if and only if
      every payload agrees with its remote object. */
  lemma PoolAcceptsIff(job: Job, run: seq<Pool>, k: nat)
    requires IsRun(job, run) && Calm(job, run) && k < |run| && run[k].main.Returned?
    ensures run[k].main == Returned(None, false) <==> forall p :: p in job.payloads ==> Agrees(p, job.remotes)
  {
    FirstErrorIsReturned(job, run, k);
    RunCauses(job, run, k, true);
    if run[k].main == Returned(None, false) {
      NilMeansAgree(job, run, k);
    } else {
      assert Caused(job, run[k].heard[0], true);
      var i :| 0 <= i < |job.payloads| && Cause(job.payloads[i], job.remotes, run[k].heard[0], true);
      assert job.payloads[i] in job.payloads && !Agrees(job.payloads[i], job.remotes);
    }
  }

  /** In any run a nil result means that every payload agrees with its remote object. */
  lemma NilMeansAgree(job: Job, run: seq<Pool>, k: nat)
    requires IsRun(job, run) && k < |run| && run[k].main == Returned(None, false)
    ensures forall p :: p in job.payloads ==> Agrees(p, job.remotes)
  {
    forall p | p in job.payloads
      ensures Agrees(p, job.remotes)
    {
      var i :| 0 <= i < |job.payloads| && job.payloads[i] == p;
      NilMeansAllGood(job, run, k, i);
    }
  }

  /** Every calm run can be continued, calmly, until the function returns. */
  lemma {:induction false} CalmCompletes(job: Job, run: seq<Pool>) returns (run': seq<Pool>)
    requires IsRun(job, run) && Calm(job, run)
    ensures IsRun(job, run') && Calm(job, run') && run'[0] == run[0] && run'[|run'| - 1].main.Returned?
    decreases Rank(job, run[|run| - 1])
  {
    var last := run[|run| - 1];
    if last.main.Returned? { return run; }
    var step := NeverDeadlocks(job, run, |run| - 1);
    RunInv(job, run, |run| - 1);
    StepDescends(job, last, step);
    var longer := run + [Do(job, last, step)];
    forall k | 0 <= k < |longer| - 1
      ensures StepAt(job, longer, k) && CalmAt(job, longer, k)
    {
      if k < |run| - 1 {
        assert CalmAt(job, run, k);
        var a :| CalmStep(a) && Enabled(job, run[k], a) && run[k + 1] == Do(job, run[k], a);
        assert CalmStep(a) && Enabled(job, longer[k], a) && longer[k + 1] == Do(job, longer[k], a);
      } else {
        assert CalmStep(step) && Enabled(job, longer[k], step) && longer[k + 1] == Do(job, longer[k], step);
      }
    }
    run' := CalmCompletes(job, longer);
  }
}
