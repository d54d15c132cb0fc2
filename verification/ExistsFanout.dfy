/** The batched existence check of internal/httpapi/handler.go: one goroutine a hash, at most
    32 lookups at once, with cancellation on the first failure, under any schedule. */
module ExistsFanout {
  import opened Base

  const LOOKUP_CONCURRENCY: nat := 32

  datatype Item = Item(exists_: bool, size: nat)

  /** Canceled is context.Canceled; a missed deadline of the caller is another error. */
  datatype Error = Canceled | Other(code: nat)

  datatype Outcome = Unset | Answer(item: Item) | Failed(error: Error)

  datatype Go =
    | Starting
    | Looking
    | Cancelling
    | Releasing
    | Done

  /** ctxErr is ctx.Err(): the reason of the first cancellation, by the caller or by cancel();
      sem is the number of tokens in the semaphore channel. */
  datatype Fan = Fan(go: seq<Go>, outcomes: seq<Outcome>, sem: nat, ctxErr: Option<Error>)

  datatype Step =
    | SeeCancel(i: nat)
    | Acquire(i: nat)
    | LookupAnswers(i: nat)
    | LookupFails(i: nat, error: Error)
    | Cancel(i: nat)
    | Release(i: nat)
    | CallerCancels(error: Error)

  ghost predicate Is(s: Fan, i: nat, pc: Go) { i < |s.go| && i < |s.outcomes| && s.go[i] == pc }

  ghost predicate Enabled(s: Fan, step: Step) {
    match step
    case SeeCancel(i) => Is(s, i, Starting) && s.ctxErr.Some?
    case Acquire(i) => Is(s, i, Starting) && s.sem < LOOKUP_CONCURRENCY
    case LookupAnswers(i) => Is(s, i, Looking)
    case LookupFails(i, _) => Is(s, i, Looking)
    case Cancel(i) => Is(s, i, Cancelling)
    case Release(i) => Is(s, i, Releasing) && s.sem > 0
    case CallerCancels(_) => s.ctxErr.None?
  }

  ghost function Set(s: Fan, i: nat, pc: Go): Fan
    requires i < |s.go|
  {
    s.(go := s.go[i := pc])
  }

  /** items(h) is what existsWithMetadata answers for h. */
  ghost function Do(hashes: seq<Hash>, items: Hash -> Item, s: Fan, step: Step): Fan
    requires Enabled(s, step) && |hashes| == |s.go|
  {
    match step
    case SeeCancel(i) => Set(s, i, Done).(outcomes := s.outcomes[i := Failed(s.ctxErr.value)])
    case Acquire(i) => Set(s, i, Looking).(sem := s.sem + 1)
    case LookupAnswers(i) => Set(s, i, Releasing).(outcomes := s.outcomes[i := Answer(items(hashes[i]))])
    case LookupFails(i, error) => Set(s, i, Cancelling).(outcomes := s.outcomes[i := Failed(error)])
    case Cancel(i) => Set(s, i, Releasing).(ctxErr := if s.ctxErr.Some? then s.ctxErr else Some(Canceled))
    case Release(i) => Set(s, i, Done).(sem := s.sem - 1)
    case CallerCancels(error) => s.(ctxErr := Some(error))
  }

  // ----- what every step keeps

  predicate HoldsToken(pc: Go) { pc.Looking? || pc.Cancelling? || pc.Releasing? }

  function Tokens(go: seq<Go>): nat {
    if go == [] then 0 else (if HoldsToken(go[0]) then 1 else 0) + Tokens(go[1..])
  }

  ghost predicate OutcomeOk(item: Item, pc: Go, o: Outcome) {
    match pc
    case Starting => o.Unset?
    case Looking => o.Unset?
    case Cancelling => o.Failed?
    case _ => o.Failed? || o == Answer(item)
  }

  ghost predicate Inv(hashes: seq<Hash>, items: Hash -> Item, s: Fan) {
    && |s.go| == |s.outcomes| == |hashes|
    && s.sem == Tokens(s.go) <= LOOKUP_CONCURRENCY
    && forall i :: 0 <= i < |s.go| ==> OutcomeOk(items(hashes[i]), s.go[i], s.outcomes[i])
  }

  ghost predicate Start(hashes: seq<Hash>, s: Fan) {
    && s.go == seq(|hashes|, i => Starting)
    && s.outcomes == seq(|hashes|, i => Unset)
    && s.sem == 0
  }

  lemma {:induction false} TokensMove(go: seq<Go>, i: nat, pc: Go)
    requires i < |go|
    ensures Tokens(go[i := pc]) == Tokens(go) - (if HoldsToken(go[i]) then 1 else 0) + (if HoldsToken(pc) then 1 else 0)
  {
    if i > 0 {
      assert go[i := pc][1..] == go[1..][i - 1 := pc];
      TokensMove(go[1..], i - 1, pc);
    } else {
      assert go[i := pc][1..] == go[1..];
    }
  }

  lemma {:induction false} NoTokens(go: seq<Go>)
    requires forall i :: 0 <= i < |go| ==> go[i].Starting?
    ensures Tokens(go) == 0
  {
    if go != [] { NoTokens(go[1..]); }
  }

  lemma DoOk(hashes: seq<Hash>, items: Hash -> Item, s: Fan, step: Step)
    requires Inv(hashes, items, s) && Enabled(s, step)
    ensures Inv(hashes, items, Do(hashes, items, s, step))
  {
    if !step.CallerCancels? { TokensMove(s.go, step.i, Do(hashes, items, s, step).go[step.i]); }
  }

  // ----- schedules

  ghost predicate StepAt(hashes: seq<Hash>, items: Hash -> Item, run: seq<Fan>, k: nat)
    requires k + 1 < |run|
  {
    exists step :: Enabled(run[k], step) && |run[k].go| == |hashes| && run[k + 1] == Do(hashes, items, run[k], step)
  }

  ghost predicate IsRun(hashes: seq<Hash>, items: Hash -> Item, run: seq<Fan>) {
    |run| > 0 && Start(hashes, run[0]) && forall k :: 0 <= k < |run| - 1 ==> StepAt(hashes, items, run, k)
  }

  lemma {:induction false} RunInv(hashes: seq<Hash>, items: Hash -> Item, run: seq<Fan>, k: nat)
    requires IsRun(hashes, items, run) && k < |run|
    ensures Inv(hashes, items, run[k])
  {
    if k == 0 {
      NoTokens(run[0].go);
    } else {
      RunInv(hashes, items, run, k - 1);
      assert StepAt(hashes, items, run, k - 1);
      var step :| Enabled(run[k - 1], step) && run[k] == Do(hashes, items, run[k - 1], step);
      DoOk(hashes, items, run[k - 1], step);
    }
  }

  ghost predicate AllDone(s: Fan) { forall i :: 0 <= i < |s.go| ==> s.go[i].Done? }

  ghost function LookingAt(go: seq<Go>): set<nat> { set i: nat | i < |go| && go[i].Looking? }

  lemma LookingSnoc(go: seq<Go>, pc: Go)
    ensures LookingAt(go + [pc]) == if pc.Looking? then LookingAt(go) + {|go|} else LookingAt(go)
    ensures |go| !in LookingAt(go)
  {
  }

  lemma {:induction false} LookupsHoldTokens(go: seq<Go>)
    ensures |LookingAt(go)| <= Tokens(go)
  {
    if go == [] {
      assert LookingAt(go) == {};
    } else {
      var n := |go| - 1;
      LookupsHoldTokens(go[..n]);
      TokensSnoc(go);
      LookingSnoc(go[..n], go[n]);
      assert go == go[..n] + [go[n]];
    }
  }

  lemma {:induction false} TokensSnoc(go: seq<Go>)
    requires go != []
    ensures Tokens(go) == Tokens(go[..|go| - 1]) + if HoldsToken(go[|go| - 1]) then 1 else 0
  {
    if |go| > 1 {
      TokensSnoc(go[1..]);
      assert go[1..][..|go| - 2] == go[..|go| - 1][1..];
    }
  }

  /** At most 32 lookups run at once. */
  lemma LookupsAreBounded(hashes: seq<Hash>, items: Hash -> Item, run: seq<Fan>, k: nat)
    requires IsRun(hashes, items, run) && k < |run|
    ensures |set i: nat | i < |run[k].go| && run[k].go[i].Looking?| <= 32
  {
    RunInv(hashes, items, run, k);
    LookupsHoldTokens(run[k].go);
  }

  /** Until every goroutine is done some step other than an outside cancellation is possible. */
  lemma NeverDeadlocks(hashes: seq<Hash>, items: Hash -> Item, run: seq<Fan>, k: nat)
    requires IsRun(hashes, items, run) && k < |run| && !AllDone(run[k])
    ensures exists step: Step :: !step.CallerCancels? && Enabled(run[k], step)
  {
    RunInv(hashes, items, run, k);
    var s := run[k];
    if i :| 0 <= i < |s.go| && HoldsToken(s.go[i]) {
      TokenHeld(s.go, i);
      match s.go[i]
      case Looking => assert Enabled(s, LookupAnswers(i));
      case Cancelling => assert Enabled(s, Cancel(i));
      case Releasing => assert Enabled(s, Release(i));
    } else {
      NoTokenHeld(s.go);
      var i :| 0 <= i < |s.go| && !s.go[i].Done?;
      assert Enabled(s, Acquire(i));
    }
  }

  lemma {:induction false} TokenHeld(go: seq<Go>, i: nat)
    requires i < |go| && HoldsToken(go[i])
    ensures Tokens(go) > 0
  {
    if i > 0 { TokenHeld(go[1..], i - 1); }
  }

  lemma {:induction false} NoTokenHeld(go: seq<Go>)
    requires forall i :: 0 <= i < |go| ==> !HoldsToken(go[i])
    ensures Tokens(go) == 0
  {
    if go != [] { NoTokenHeld(go[1..]); }
  }

  function GoRank(pc: Go): nat {
    match pc
    case Starting => 4
    case Looking => 3
    case Cancelling => 2
    case Releasing => 1
    case Done => 0
  }

  function FanRank(go: seq<Go>): nat { if go == [] then 0 else GoRank(go[0]) + FanRank(go[1..]) }

  lemma {:induction false} RankMoves(go: seq<Go>, i: nat, pc: Go)
    requires i < |go|
    ensures FanRank(go[i := pc]) == FanRank(go) - GoRank(go[i]) + GoRank(pc)
  {
    if i > 0 {
      assert go[i := pc][1..] == go[1..][i - 1 := pc];
      RankMoves(go[1..], i - 1, pc);
    } else {
      assert go[i := pc][1..] == go[1..];
    }
  }

  lemma {:induction false} StartRank(go: seq<Go>)
    requires forall i :: 0 <= i < |go| ==> go[i].Starting?
    ensures FanRank(go) == 4 * |go|
  {
    if go != [] { StartRank(go[1..]); }
  }

  /** Every schedule ends: at most four steps a hash and one outside cancellation. */
  lemma {:induction false} EveryScheduleEnds(hashes: seq<Hash>, items: Hash -> Item, run: seq<Fan>, k: nat)
    requires IsRun(hashes, items, run) && k < |run|
    ensures k + FanRank(run[k].go) + (if run[k].ctxErr.None? then 1 else 0) <= 4 * |hashes| + 1
  {
    if k == 0 {
      StartRank(run[0].go);
    } else {
      EveryScheduleEnds(hashes, items, run, k - 1);
      assert StepAt(hashes, items, run, k - 1);
      var step :| Enabled(run[k - 1], step) && run[k] == Do(hashes, items, run[k - 1], step);
      if !step.CallerCancels? { RankMoves(run[k - 1].go, step.i, run[k].go[step.i]); }
    }
  }

  /** A recorded outcome stays. */
  lemma {:induction false} OutcomeStays(hashes: seq<Hash>, items: Hash -> Item, run: seq<Fan>, j: nat, k: nat, i: nat)
    requires IsRun(hashes, items, run) && j <= k < |run| && i < |run[j].outcomes| && !run[j].outcomes[i].Unset?
    ensures i < |run[k].outcomes| && run[k].outcomes[i] == run[j].outcomes[i]
    decreases k - j
  {
    RunInv(hashes, items, run, j);
    if j < k {
      OutcomeStays(hashes, items, run, j, k - 1, i);
      RunInv(hashes, items, run, k - 1);
      assert StepAt(hashes, items, run, k - 1);
      var step :| Enabled(run[k - 1], step) && run[k] == Do(hashes, items, run[k - 1], step);
      assert OutcomeOk(items(hashes[i]), run[k - 1].go[i], run[k - 1].outcomes[i]);
    }
  }

  // ----- the result

  /** The error loop after Wait: a cancellation is kept only while nothing else was seen. */
  method FirstError(outcomes: seq<Outcome>) returns (firstErr: Option<Error>)
    ensures firstErr.None? <==> forall o :: o in outcomes ==> !o.Failed?
    ensures firstErr.Some? ==> Failed(firstErr.value) in outcomes
    ensures firstErr == Some(Canceled) ==> forall o :: o in outcomes && o.Failed? ==> o.error == Canceled
  {
    firstErr := None;
    for i := 0 to |outcomes|
      invariant firstErr.None? <==> forall o :: o in outcomes[..i] ==> !o.Failed?
      invariant firstErr.Some? ==> Failed(firstErr.value) in outcomes[..i]
      invariant firstErr == Some(Canceled) ==> forall o :: o in outcomes[..i] && o.Failed? ==> o.error == Canceled
    {
      assert outcomes[..i + 1] == outcomes[..i] + [outcomes[i]];
      if outcomes[i].Failed? {
        if firstErr.None? || firstErr.value == Canceled { firstErr := Some(outcomes[i].error); }
      }
    }
    assert outcomes[..|outcomes|] == outcomes;
  }

  /** One entry a hash; a repeated hash would keep its last. */
  ghost function EntryMap(hashes: seq<Hash>, outcomes: seq<Outcome>): map<Hash, Item>
    requires |outcomes| == |hashes| && forall o :: o in outcomes ==> o.Answer?
  {
    if hashes == [] then map[]
    else
      var n := |hashes| - 1;
      EntryMap(hashes[..n], outcomes[..n])[hashes[n] := outcomes[n].item]
  }

  method Collect(hashes: seq<Hash>, outcomes: seq<Outcome>) returns (r: Result<map<Hash, Item>, Error>)
    requires |outcomes| == |hashes| && forall o :: o in outcomes ==> !o.Unset?
    ensures Collected(hashes, outcomes, r)
  {
    var firstErr := FirstError(outcomes);
    if firstErr.Some? { return Err(firstErr.value); }
    var items: map<Hash, Item> := map[];
    for i := 0 to |hashes|
      invariant items == EntryMap(hashes[..i], outcomes[..i])
    {
      assert hashes[..i + 1][..i] == hashes[..i] && outcomes[..i + 1][..i] == outcomes[..i];
      items := items[hashes[i] := outcomes[i].item];
    }
    assert hashes[..|hashes|] == hashes && outcomes[..|outcomes|] == outcomes;
    return Ok(items);
  }

  /** uniqueHashes: the distinct hashes in the order of their first occurrence. */
  method UniqueHashes(hashes: seq<Hash>) returns (out: seq<Hash>)
    ensures forall h :: h in out <==> h in hashes
    ensures forall i, j :: 0 <= i < j < |out| ==> out[i] != out[j]
  {
    out := [];
    var seen: set<Hash> := {};
    for i := 0 to |hashes|
      invariant forall h :: h in out <==> h in hashes[..i]
      invariant forall h :: h in seen <==> h in hashes[..i]
      invariant forall k, j :: 0 <= k < j < |out| ==> out[k] != out[j]
    {
      var hash := hashes[i];
      assert hashes[..i + 1] == hashes[..i] + [hash];
      if hash !in seen {
        seen := seen + {hash};
        out := out + [hash];
      }
    }
    assert hashes[..|hashes|] == hashes;
  }

  /** What Collect may return for these outcomes. */
  ghost predicate Collected(hashes: seq<Hash>, outcomes: seq<Outcome>, r: Result<map<Hash, Item>, Error>) {
    && (r.Err? ==> Failed(r.error) in outcomes)
    && (r == Err(Canceled) ==> forall o :: o in outcomes && o.Failed? ==> o.error == Canceled)
    && (r.Ok? ==>
         && (forall o :: o in outcomes ==> o.Answer?)
         && |outcomes| == |hashes|
         && r.value == EntryMap(hashes, outcomes))
  }

  lemma {:induction false} EntriesAreItems(hashes: seq<Hash>, outcomes: seq<Outcome>, items: Hash -> Item)
    requires |outcomes| == |hashes|
    requires forall i :: 0 <= i < |hashes| ==> outcomes[i] == Answer(items(hashes[i]))
    ensures EntryMap(hashes, outcomes) == map h | h in hashes :: items(h)
  {
    if hashes != [] {
      var n := |hashes| - 1;
      EntriesAreItems(hashes[..n], outcomes[..n], items);
      assert hashes == hashes[..n] + [hashes[n]];
    }
  }

  /** When the fan-out succeeds, the result has exactly one entry a hash, holding that hash's
      own lookup result; and it succeeds exactly when no outcome is an error. */
  lemma SuccessIsExact(hashes: seq<Hash>, items: Hash -> Item, run: seq<Fan>, k: nat, r: Result<map<Hash, Item>, Error>)
    requires IsRun(hashes, items, run) && k < |run| && AllDone(run[k])
    requires Collected(hashes, run[k].outcomes, r)
    ensures r.Ok? <==> forall o :: o in run[k].outcomes ==> !o.Failed?
    ensures r.Ok? ==> r.value == map h | h in hashes :: items(h)
  {
    RunInv(hashes, items, run, k);
    var s := run[k];
    forall i | 0 <= i < |hashes|
      ensures s.outcomes[i].Failed? || s.outcomes[i] == Answer(items(hashes[i]))
    {
      assert OutcomeOk(items(hashes[i]), s.go[i], s.outcomes[i]);
    }
    if r.Ok? {
      assert forall i | 0 <= i < |hashes| :: s.outcomes[i] in s.outcomes;
      EntriesAreItems(hashes, s.outcomes, items);
    }
  }

  /** A step in which no lookup fails and no caller cancels. */
  ghost predicate QuietAt(hashes: seq<Hash>, items: Hash -> Item, run: seq<Fan>, k: nat)
    requires k + 1 < |run|
  {
    exists step: Step :: && !step.LookupFails? && !step.CallerCancels?
                         && Enabled(run[k], step) && |run[k].go| == |hashes|
                         && run[k + 1] == Do(hashes, items, run[k], step)
  }

  ghost predicate Untroubled(s: Fan) {
    && s.ctxErr.None?
    && (forall i :: 0 <= i < |s.go| ==> !s.go[i].Cancelling?)
    && (forall i :: 0 <= i < |s.outcomes| ==> !s.outcomes[i].Failed?)
  }

  lemma {:induction false} QuietRun(hashes: seq<Hash>, items: Hash -> Item, run: seq<Fan>, k: nat)
    requires IsRun(hashes, items, run) && run[0].ctxErr.None? && k < |run|
    requires forall j | 0 <= j < |run| - 1 :: QuietAt(hashes, items, run, j)
    ensures Untroubled(run[k])
  {
    if k > 0 {
      QuietRun(hashes, items, run, k - 1);
      assert QuietAt(hashes, items, run, k - 1);
    }
  }

  /** Errors have a cause: when no lookup fails and no caller cancels, every hash is answered,
      and the result is the whole map. */
  lemma QuietRunsSucceed(hashes: seq<Hash>, items: Hash -> Item, run: seq<Fan>, k: nat,
                         r: Result<map<Hash, Item>, Error>)
    requires IsRun(hashes, items, run) && run[0].ctxErr.None? && k < |run| && AllDone(run[k])
    requires forall j | 0 <= j < |run| - 1 :: QuietAt(hashes, items, run, j)
    requires Collected(hashes, run[k].outcomes, r)
    ensures run[k].outcomes == seq(|hashes|, i requires 0 <= i < |hashes| => Answer(items(hashes[i])))
    ensures r == Ok(map h | h in hashes :: items(h))
  {
    QuietRun(hashes, items, run, k);
    RunInv(hashes, items, run, k);
    var s := run[k];
    forall i | 0 <= i < |hashes|
      ensures s.outcomes[i] == Answer(items(hashes[i]))
    {
      assert OutcomeOk(items(hashes[i]), s.go[i], s.outcomes[i]);
    }
    SuccessIsExact(hashes, items, run, k, r);
  }

  /** A failed lookup is reported, and if some lookup failed with an error that is not a
      cancellation, the error returned is not a cancellation either. */
  lemma RealErrorsAreReported(hashes: seq<Hash>, items: Hash -> Item, run: seq<Fan>, j: nat, k: nat, i: nat,
                              error: Error, r: Result<map<Hash, Item>, Error>)
    requires IsRun(hashes, items, run) && j < k < |run| && AllDone(run[k])
    requires Enabled(run[j], LookupFails(i, error)) && |run[j].go| == |hashes|
    requires run[j + 1] == Do(hashes, items, run[j], LookupFails(i, error))
    requires Collected(hashes, run[k].outcomes, r)
    ensures r.Err? && (error != Canceled ==> r.error != Canceled)
  {
    OutcomeStays(hashes, items, run, j + 1, k, i);
    assert run[k].outcomes[i] == Failed(error);
    assert run[k].outcomes[i] in run[k].outcomes;
  }
}
