/** Expiry and clean-up. A clean-up reads the records, then the clock, and deletes later; an
    append checks its session, then stamps the record, and commits later. */
module SessionExpiry {
  import opened Base
  import opened Sessions
  import opened SessionSteps
  import opened SessionInvariant
  import opened SessionRuns

  // ----- records change only by renewal

  /** The step commits an append to id, stamped at t. */
  ghost predicate Commits(s: State, s': State, expiration: Time, id: Id, t: Time) {
    InFlight(s, id) && Enabled(s, CommitAppend(t)) && s' == AppendCommitted(s, t, expiration)
  }

  /** The step refreshes the final id, stamped at t. */
  ghost predicate Refreshes(s: State, s': State, expiration: Time, id: Id, t: Time) {
    CanRefresh(s, id, t) && id in s.st.db && s' == Refreshed(s, id, t, expiration)
  }

  /** The step gives the record of id a new expiry. */
  ghost predicate Renews(s: State, s': State, expiration: Time, id: Id, t: Time) {
    Commits(s, s', expiration, id, t) || Refreshes(s, s', expiration, id, t)
  }

  ghost predicate CommittedAt(run: seq<State>, expiration: Time, k: nat, id: Id, t: Time)
    requires k + 1 < |run|
  {
    Commits(run[k], run[k + 1], expiration, id, t)
  }

  ghost predicate RefreshedAt(run: seq<State>, expiration: Time, k: nat, id: Id, t: Time)
    requires k + 1 < |run|
  {
    Refreshes(run[k], run[k + 1], expiration, id, t)
  }

  ghost predicate RenewedAt(run: seq<State>, expiration: Time, k: nat, id: Id, t: Time)
    requires k + 1 < |run|
  {
    Renews(run[k], run[k + 1], expiration, id, t)
  }

  /** id was given out and its record written. */
  ghost predicate Known(s: State, id: Id) { id in s.used && id !in s.creating }

  ghost predicate SameMarks(r: Session, r': Session) {
    r'.kind == r.kind && r'.terminatedAt == r.terminatedAt && r'.completedAt == r.completedAt
  }

  lemma RecordKnown(s: State, id: Id)
    requires Inv(s) && id in s.st.db
    ensures Known(s, id)
  {
    assert EntryOk(s, id, s.st.db[id]);
    assert id in s.creating ==> CreatingOk(s, id);
  }

  lemma StepRecord(s: State, a: Action, expiration: Time, id: Id)
    requires Enabled(s, a) && Known(s, id)
    ensures var s' := Do(s, a, expiration);
            && Known(s', id)
            && (id in s'.st.db ==>
                  id in s.st.db
                  && (s'.st.db[id] == s.st.db[id]
                      || (a.CommitAppend? && InFlight(s, id)) || (a.Refresh? && a.id == id)))
  {
    if a.CommitAppend? || a.Refresh? { StampRecord(s, a, expiration, id); }
  }

  lemma StampRecord(s: State, a: Action, expiration: Time, id: Id)
    requires Enabled(s, a) && Known(s, id) && (a.CommitAppend? || a.Refresh?)
    ensures var s' := Do(s, a, expiration);
            && Known(s', id) && (id in s'.st.db ==> id in s.st.db)
            && (id in s'.st.db && s'.st.db[id] != s.st.db[id] ==>
                  (a.CommitAppend? && InFlight(s, id)) || (a.Refresh? && a.id == id))
  {
  }

  lemma NextRecord(s: State, s': State, expiration: Time, id: Id)
    requires Next(s, s', expiration) && Known(s, id)
    ensures Known(s', id)
    ensures id in s'.st.db ==>
              id in s.st.db && (s'.st.db[id] == s.st.db[id] || exists t :: Renews(s, s', expiration, id, t))
  {
    var a :| Enabled(s, a) && s' == Do(s, a, expiration);
    StepRecord(s, a, expiration, id);
    if a.CommitAppend? && InFlight(s, id) { assert Renews(s, s', expiration, id, a.stamp); }
    if a.Refresh? && a.id == id && id in s.st.db { assert Renews(s, s', expiration, id, a.stamp); }
  }

  /** A renewal keeps the marks and stamps the record no earlier than before. */
  lemma RenewalStamps(s: State, s': State, expiration: Time, id: Id, t: Time)
    requires Inv(s) && Renews(s, s', expiration, id, t)
    ensures id in s.st.db && id in s'.st.db
    ensures s.st.db[id].updatedAt <= t <= s.now
    ensures s'.st.db[id].updatedAt == t && s'.st.db[id].expiresAt == t + expiration
    ensures SameMarks(s.st.db[id], s'.st.db[id])
    ensures if s.st.db[id].kind.Final? then Refreshes(s, s', expiration, id, t) else Commits(s, s', expiration, id, t)
  {
    if id in s.building { assert BuildOk(s, id, s.building[id]); }
  }

  /** The stamp of the step, if it renews id; the record is as before otherwise. */
  lemma StepRenewal(s: State, s': State, expiration: Time, id: Id) returns (stamp: Option<Time>)
    requires Inv(s) && Next(s, s', expiration) && Known(s, id)
    ensures Known(s', id) && (id in s'.st.db ==> id in s.st.db && SameMarks(s.st.db[id], s'.st.db[id]))
    ensures stamp.None? ==> (id in s'.st.db ==> s'.st.db[id] == s.st.db[id])
    ensures stamp.Some? ==>
              && Renews(s, s', expiration, id, stamp.value)
              && id in s.st.db && id in s'.st.db && s.st.db[id].updatedAt <= stamp.value
              && s'.st.db[id].updatedAt == stamp.value && s'.st.db[id].expiresAt == stamp.value + expiration
    ensures forall t :: Renews(s, s', expiration, id, t) ==> stamp == Some(t)
  {
    NextRecord(s, s', expiration, id);
    forall t | Renews(s, s', expiration, id, t)
      ensures id in s'.st.db && t == s'.st.db[id].updatedAt
    {
      RenewalStamps(s, s', expiration, id, t);
    }
    stamp := None;
    if t :| Renews(s, s', expiration, id, t) {
      RenewalStamps(s, s', expiration, id, t);
      stamp := Some(t);
    }
  }

  /** The record of the session at j is as it was at i, or as the renewal at k, the last
      one, left it. */
  ghost predicate RenewedRecord(run: seq<State>, expiration: Time, i: nat, j: nat, id: Id, k: Option<nat>, t: Time)
    requires i <= j < |run| && id in run[i].st.db
  {
    && (id in run[j].st.db ==> SameMarks(run[i].st.db[id], run[j].st.db[id]))
    && match k
       case None => id in run[j].st.db ==> run[j].st.db[id] == run[i].st.db[id]
       case Some(n) =>
         && i <= n < j && RenewedAt(run, expiration, n, id, t)
         && (id in run[j].st.db ==> run[j].st.db[id].updatedAt == t && run[j].st.db[id].expiresAt == t + expiration)
  }

  /** Every renewal in between was stamped at t or before. */
  ghost predicate LatestStamp(run: seq<State>, expiration: Time, i: nat, j: nat, id: Id, k: Option<nat>, t: Time)
    requires i <= j < |run|
  {
    forall n, t' | i <= n < j && RenewedAt(run, expiration, n, id, t') :: k.Some? && t' <= t
  }

  lemma LatestExtends(run: seq<State>, expiration: Time, i: nat, n: nat, id: Id, k: Option<nat>, t: Time,
                      stamp: Option<Time>)
    requires i <= n && n + 1 < |run| && LatestStamp(run, expiration, i, n, id, k, t)
    requires forall t' :: RenewedAt(run, expiration, n, id, t') ==> stamp == Some(t')
    requires stamp.Some? && k.Some? ==> t <= stamp.value
    ensures if stamp.Some? then LatestStamp(run, expiration, i, n + 1, id, Some(n), stamp.value)
            else LatestStamp(run, expiration, i, n + 1, id, k, t)
  {
    forall m, t' | i <= m < n + 1 && RenewedAt(run, expiration, m, id, t')
      ensures (stamp.Some? || k.Some?) && t' <= if stamp.Some? then stamp.value else t
    {
      if m == n { assert RenewedAt(run, expiration, n, id, t'); }
    }
  }

  lemma RecordExtends(run: seq<State>, expiration: Time, i: nat, n: nat, id: Id, k: Option<nat>, t: Time,
                      stamp: Option<Time>)
    requires i <= n && n + 1 < |run| && id in run[i].st.db && RenewedRecord(run, expiration, i, n, id, k, t)
    requires id in run[n + 1].st.db ==> id in run[n].st.db && SameMarks(run[n].st.db[id], run[n + 1].st.db[id])
    requires stamp.None? ==> (id in run[n + 1].st.db ==> run[n + 1].st.db[id] == run[n].st.db[id])
    requires stamp.Some? ==>
               && Renews(run[n], run[n + 1], expiration, id, stamp.value) && id in run[n + 1].st.db
               && run[n + 1].st.db[id].updatedAt == stamp.value
               && run[n + 1].st.db[id].expiresAt == stamp.value + expiration
    ensures if stamp.Some? then RenewedRecord(run, expiration, i, n + 1, id, Some(n), stamp.value)
            else RenewedRecord(run, expiration, i, n + 1, id, k, t)
  {
    if stamp.Some? { assert RenewedAt(run, expiration, n, id, stamp.value); }
  }

  /** The record at j is the one at i, or was given its expiry by the last renewal, at k. */
  lemma {:induction false} LastRenewal(run: seq<State>, expiration: Time, i: nat, j: nat, id: Id)
    returns (k: Option<nat>, t: Time)
    requires IsRun(run, expiration) && i <= j < |run| && id in run[i].st.db
    ensures Known(run[j], id)
    ensures RenewedRecord(run, expiration, i, j, id, k, t) && LatestStamp(run, expiration, i, j, id, k, t)
    decreases j - i
  {
    k, t := None, 0;
    RunInv(run, expiration, i);
    RecordKnown(run[i], id);
    if i < j {
      var n := j - 1;
      k, t := LastRenewal(run, expiration, i, n, id);
      RunInv(run, expiration, n);
      assert StepAt(run, expiration, n);
      var stamp := StepRenewal(run[n], run[j], expiration, id);
      assert forall t' :: RenewedAt(run, expiration, n, id, t') ==> Renews(run[n], run[j], expiration, id, t');
      LatestExtends(run, expiration, i, n, id, k, t, stamp);
      RecordExtends(run, expiration, i, n, id, k, t, stamp);
      if stamp.Some? { k, t := Some(n), stamp.value; }
    }
  }

  // ----- when a scanned session is active again

  /** A renewal from i on has not run out at j. */
  ghost predicate RenewedSince(run: seq<State>, expiration: Time, i: nat, j: nat, id: Id)
    requires i <= j < |run|
  {
    exists k, t | i <= k < j :: RenewedAt(run, expiration, k, id, t) && run[j].now <= t + expiration
  }

  ghost predicate CommittedSince(run: seq<State>, expiration: Time, i: nat, j: nat, id: Id)
    requires i <= j < |run|
  {
    exists k, t | i <= k < j :: CommittedAt(run, expiration, k, id, t) && run[j].now <= t + expiration
  }

  ghost predicate RefreshedSince(run: seq<State>, expiration: Time, i: nat, j: nat, id: Id)
    requires i <= j < |run|
  {
    exists k, t | i <= k < j :: RefreshedAt(run, expiration, k, id, t) && run[j].now <= t + expiration
  }

  /** A session that a clean-up read at i and judged at m, and that is still there at j, is
      active if and only if it had only expired, and it was renewed after the reading by a
      renewal that has not run out. */
  lemma ScannedIsActiveIff(run: seq<State>, expiration: Time, i: nat, m: nat, j: nat, id: Id)
    requires IsRun(run, expiration) && i <= m <= j < |run|
    requires id in run[i].st.db && Purgeable(run[i].st.db[id], run[m].now) && id in run[j].st.db
    ensures Inactive(run[j].st.db[id], run[j].now).None? <==>
              && Inactive(run[i].st.db[id], run[m].now) == Some(Expired)
              && RenewedSince(run, expiration, i, j, id)
  {
    var k, t := LastRenewal(run, expiration, i, j, id);
    ClockRuns(run, expiration, m, j);
  }

  /** The first renewal from i on. */
  lemma {:induction false} FirstRenewal(run: seq<State>, expiration: Time, i: nat, k: nat, t: Time, id: Id)
    returns (k0: nat, t0: Time)
    requires IsRun(run, expiration) && i <= k && k + 1 < |run| && id in run[i].st.db
    requires RenewedAt(run, expiration, k, id, t)
    ensures i <= k0 <= k && RenewedAt(run, expiration, k0, id, t0)
    ensures id in run[k0].st.db && run[k0].st.db[id] == run[i].st.db[id]
    decreases k - i
  {
    var last, t' := LastRenewal(run, expiration, i, k, id);
    RunInv(run, expiration, k);
    RenewalStamps(run[k], run[k + 1], expiration, id, t);
    if last.Some? {
      k0, t0 := FirstRenewal(run, expiration, i, last.value, t', id);
    } else {
      k0, t0 := k, t;
    }
  }

  lemma WriterStays(s: State, s': State, expiration: Time)
    requires Next(s, s', expiration) && s'.writer.Some?
    ensures s'.writer.value.began == s.now
            || (s.writer.Some? && s'.writer.value.id == s.writer.value.id
                && s'.writer.value.began == s.writer.value.began)
  {
    var a :| Enabled(s, a) && s' == Do(s, a, expiration);
    StepWriter(s, a, expiration);
  }

  lemma StepWriter(s: State, a: Action, expiration: Time)
    requires Enabled(s, a)
    ensures var w, w' := s.writer, Do(s, a, expiration).writer;
            w'.Some? ==> w'.value.began == s.now
                         || (w.Some? && w'.value.id == w.value.id && w'.value.began == w.value.began)
  {
  }

  /** An append in flight at k that began before the time of m was in flight at m. */
  lemma {:induction false} InFlightSince(run: seq<State>, expiration: Time, m: nat, k: nat)
    requires IsRun(run, expiration) && m <= k < |run| && run[k].writer.Some? && run[k].writer.value.began < run[m].now
    ensures InFlight(run[m], run[k].writer.value.id) && run[m].writer.value.began == run[k].writer.value.began
    decreases k - m
  {
    if m < k {
      assert StepAt(run, expiration, k - 1);
      WriterStays(run[k - 1], run[k], expiration);
      ClockRuns(run, expiration, m, k - 1);
      InFlightSince(run, expiration, m, k - 1);
    }
  }

  /** The renewal was under way: of a regular or partial session it is an append whose check had
      passed before the session expired, and which was still in flight when the clean-up
      judged it unless it had already committed; of a final it is the refresh of a build. */
  lemma RenewalWasUnderWay(run: seq<State>, expiration: Time, i: nat, m: nat, k: nat, t: Time, id: Id)
    returns (k0: nat, t0: Time)
    requires IsRun(run, expiration) && i <= m < |run| && i <= k && k + 1 < |run|
    requires id in run[i].st.db && Purgeable(run[i].st.db[id], run[m].now) && RenewedAt(run, expiration, k, id, t)
    ensures i <= k0 <= k
    ensures if run[i].st.db[id].kind.Final? then RefreshedAt(run, expiration, k0, id, t0)
            else CommittedAt(run, expiration, k0, id, t0)
                 && (Inactive(run[i].st.db[id], run[m].now) == Some(Expired) ==>
                       && run[k0].writer.value.began <= run[i].st.db[id].expiresAt < run[m].now
                       && (k0 < m || InFlight(run[m], id)))
  {
    k0, t0 := FirstRenewal(run, expiration, i, k, t, id);
    RunInv(run, expiration, k0);
    RenewalStamps(run[k0], run[k0 + 1], expiration, id, t0);
    if !run[i].st.db[id].kind.Final? && Inactive(run[i].st.db[id], run[m].now) == Some(Expired) && m <= k0 {
      InFlightSince(run, expiration, m, k0);
    }
  }

  /** The exact condition for a regular or partial session that a clean-up lists at once: it is
      active again if and only if an append to it was in flight at the scan, and an append to
      it has committed since whose expiry has not run out. */
  lemma InFlightAtScanIff(run: seq<State>, expiration: Time, i: nat, j: nat, id: Id)
    requires IsRun(run, expiration) && i <= j < |run|
    requires id in run[i].st.db && Purgeable(run[i].st.db[id], run[i].now) && !run[i].st.db[id].kind.Final?
    requires id in run[j].st.db
    ensures Inactive(run[j].st.db[id], run[j].now).None? <==>
              InFlight(run[i], id) && CommittedSince(run, expiration, i, j, id)
  {
    ScannedIsActiveIff(run, expiration, i, i, j, id);
    RunInv(run, expiration, i);
    if RenewedSince(run, expiration, i, j, id) {
      var k, t :| i <= k < j && RenewedAt(run, expiration, k, id, t) && run[j].now <= t + expiration;
      RenewalKind(run, expiration, i, k, t, id);
      assert CommittedAt(run, expiration, k, id, t);
      var k0, t0 := RenewalWasUnderWay(run, expiration, i, i, k, t, id);
    }
    if CommittedSince(run, expiration, i, j, id) {
      var k, t :| i <= k < j && CommittedAt(run, expiration, k, id, t) && run[j].now <= t + expiration;
      assert RenewedAt(run, expiration, k, id, t);
    }
  }

  /** Appends renew regular and partial sessions, refreshes finals. */
  lemma RenewalKind(run: seq<State>, expiration: Time, i: nat, k: nat, t: Time, id: Id)
    requires IsRun(run, expiration) && i <= k && k + 1 < |run| && RenewedAt(run, expiration, k, id, t)
    requires id in run[i].st.db
    ensures if run[i].st.db[id].kind.Final? then RefreshedAt(run, expiration, k, id, t)
            else CommittedAt(run, expiration, k, id, t)
  {
    RunInv(run, expiration, k);
    RenewalStamps(run[k], run[k + 1], expiration, id, t);
    var last, t' := LastRenewal(run, expiration, i, k, id);
  }

  /** The exact condition for a final: it is active again if and only if it had only expired,
      was being built at the scan, and its refresh has come since and has not run out. */
  lemma BuildingAtScanIff(run: seq<State>, expiration: Time, i: nat, j: nat, id: Id)
    requires IsRun(run, expiration) && i <= j < |run|
    requires id in run[i].st.db && Purgeable(run[i].st.db[id], run[i].now) && run[i].st.db[id].kind.Final?
    requires id in run[j].st.db
    ensures Inactive(run[j].st.db[id], run[j].now).None? <==>
              && Inactive(run[i].st.db[id], run[i].now) == Some(Expired) && id in run[i].building
              && RefreshedSince(run, expiration, i, j, id)
  {
    ScannedIsActiveIff(run, expiration, i, i, j, id);
    RunInv(run, expiration, i);
    RecordKnown(run[i], id);
    if RenewedSince(run, expiration, i, j, id) {
      var k, t :| i <= k < j && RenewedAt(run, expiration, k, id, t) && run[j].now <= t + expiration;
      RenewalKind(run, expiration, i, k, t, id);
      assert RefreshedAt(run, expiration, k, id, t);
      BuildingSince(run, expiration, i, k, id);
    }
    if RefreshedSince(run, expiration, i, j, id) {
      var k, t :| i <= k < j && RefreshedAt(run, expiration, k, id, t) && run[j].now <= t + expiration;
      assert RenewedAt(run, expiration, k, id, t);
    }
  }

  lemma BuildsOnlyBegin(s: State, s': State, expiration: Time, id: Id)
    requires Next(s, s', expiration) && id in s.used && id !in s.building
    ensures id in s'.used && id !in s'.building
  {
    var a :| Enabled(s, a) && s' == Do(s, a, expiration);
    StepBuilds(s, a, expiration, id);
  }

  lemma StepBuilds(s: State, a: Action, expiration: Time, id: Id)
    requires Enabled(s, a) && id in s.used && id !in s.building
    ensures var s' := Do(s, a, expiration); id in s'.used && id !in s'.building
  {
  }

  lemma {:induction false} BuildingSince(run: seq<State>, expiration: Time, i: nat, k: nat, id: Id)
    requires IsRun(run, expiration) && i <= k < |run| && id in run[i].used
    ensures id in run[k].used && (id in run[k].building ==> id in run[i].building)
    decreases k - i
  {
    if i < k {
      BuildingSince(run, expiration, i, k - 1, id);
      assert StepAt(run, expiration, k - 1);
      NextUsed(run[k - 1], run[k], expiration, id);
      if id !in run[k - 1].building { BuildsOnlyBegin(run[k - 1], run[k], expiration, id); }
    }
  }

  lemma NextUsed(s: State, s': State, expiration: Time, id: Id)
    requires Next(s, s', expiration) && id in s.used
    ensures id in s'.used
  {
    var a :| Enabled(s, a) && s' == Do(s, a, expiration);
    StepUsed(s, a, expiration, id);
  }

  lemma StepUsed(s: State, a: Action, expiration: Time, id: Id)
    requires Enabled(s, a) && id in s.used
    ensures id in Do(s, a, expiration).used
  {
  }

  // ----- sessions that stay as they are

  /** The session is gone or has the inactive record r, and no append to it is in flight. */
  ghost predicate Quiet(s: State, id: Id, r: Session) {
    && Known(s, id) && !InFlight(s, id)
    && Inactive(r, s.now).Some? && !r.kind.Final?
    && (id in s.st.db ==> s.st.db[id] == r)
  }

  lemma QuietStays(s: State, s': State, expiration: Time, id: Id, r: Session)
    requires Inv(s) && Next(s, s', expiration) && Quiet(s, id, r)
    ensures Quiet(s', id, r) && (id in s.accepted ==> id in s'.accepted && s'.accepted[id] == s.accepted[id])
  {
    var a :| Enabled(s, a) && s' == Do(s, a, expiration);
    StepRecord(s, a, expiration, id);
    if a.Refresh? && a.id == id { assert BuildOk(s, id, s.building[id]); }
    StepQuiet(s, a, expiration, id, r);
  }

  lemma StepQuiet(s: State, a: Action, expiration: Time, id: Id, r: Session)
    requires Enabled(s, a) && Quiet(s, id, r)
    ensures var s' := Do(s, a, expiration);
            && s.now <= s'.now && !InFlight(s', id)
            && (id in s.accepted ==> id in s'.accepted && s'.accepted[id] == s.accepted[id])
  {
    StepClock(s, a, expiration);
    if id in s.accepted { StepAccepted(s, a, expiration, id); }
    StepWriter(s, a, expiration);
  }

  /** Only a commit to the session itself changes what a known session has accepted. */
  lemma StepAccepted(s: State, a: Action, expiration: Time, id: Id)
    requires Enabled(s, a) && id in s.used && id in s.accepted && !InFlight(s, id)
    ensures var s' := Do(s, a, expiration); id in s'.accepted && s'.accepted[id] == s.accepted[id]
  {
  }

  lemma {:induction false} RunQuiet(run: seq<State>, expiration: Time, i: nat, j: nat, id: Id, r: Session)
    requires IsRun(run, expiration) && i <= j < |run| && Quiet(run[i], id, r)
    ensures Quiet(run[j], id, r)
    ensures id in run[i].accepted ==> id in run[j].accepted && run[j].accepted[id] == run[i].accepted[id]
    decreases j - i
  {
    if i < j {
      RunQuiet(run, expiration, i, j - 1, id, r);
      RunInv(run, expiration, j - 1);
      assert StepAt(run, expiration, j - 1);
      QuietStays(run[j - 1], run[j], expiration, id, r);
    }
  }

  /** An inactive regular or partial session with no append in flight is never revived: its
      record stays as it is while it is there, no append to it begins, and none is accepted. */
  lemma ExpiredNeverRevived(run: seq<State>, expiration: Time, i: nat, j: nat, id: Id, offset: int)
    requires IsRun(run, expiration) && i <= j < |run| && id in run[i].st.db && !run[i].st.db[id].kind.Final?
    requires Inactive(run[i].st.db[id], run[i].now).Some? && !InFlight(run[i], id)
    ensures id in run[j].st.db ==>
              run[j].st.db[id] == run[i].st.db[id] && Inactive(run[j].st.db[id], run[j].now).Some?
    ensures !InFlight(run[j], id) && AppendProblem(run[j].st, id, offset, run[j].now).Some?
    ensures id in run[i].accepted && id in run[j].accepted && run[j].accepted[id] == run[i].accepted[id]
  {
    RunInv(run, expiration, i);
    RecordKnown(run[i], id);
    assert EntryOk(run[i], id, run[i].st.db[id]);
    RunQuiet(run, expiration, i, j, id, run[i].st.db[id]);
  }

  /** A clean-up that reads a regular or partial session at i, judges it inactive at m and
      deletes it later takes nothing from anyone, unless an append to it was in flight at m or
      renewed it between the reading and m: from m on no append to it begins or is accepted. */
  lemma CleanupIsSafe(run: seq<State>, expiration: Time, i: nat, m: nat, j: nat, id: Id, offset: int)
    requires IsRun(run, expiration) && i <= m <= j < |run|
    requires id in run[i].st.db && Purgeable(run[i].st.db[id], run[m].now) && !run[i].st.db[id].kind.Final?
    requires !InFlight(run[m], id) && forall k, t | i <= k < m :: !RenewedAt(run, expiration, k, id, t)
    ensures id in run[j].st.db ==> Inactive(run[j].st.db[id], run[j].now).Some?
    ensures !InFlight(run[j], id) && AppendProblem(run[j].st, id, offset, run[j].now).Some?
    ensures id in run[m].accepted ==> id in run[j].accepted && run[j].accepted[id] == run[m].accepted[id]
  {
    var k, t := LastRenewal(run, expiration, i, m, id);
    RunQuiet(run, expiration, m, j, id, run[i].st.db[id]);
  }

  /** What a clean-up is about to delete it has read and judged. */
  lemma {:induction false} PurgingWasScanned(run: seq<State>, expiration: Time, j: nat, id: Id) returns (i: nat, m: nat)
    requires IsRun(run, expiration) && j < |run| && id in run[j].purging
    ensures i <= m < j && id in run[i].st.db && Purgeable(run[i].st.db[id], run[m].now)
    decreases j
  {
    assert j > 0;
    assert StepAt(run, expiration, j - 1);
    var a :| Enabled(run[j - 1], a) && run[j] == Do(run[j - 1], a, expiration);
    if id in run[j - 1].purging {
      i, m := PurgingWasScanned(run, expiration, j - 1, id);
    } else {
      PurgingByScan(run[j - 1], a, expiration, id);
      m := j - 1;
      i := ScanningWasRead(run, expiration, m, id);
    }
  }

  lemma PurgingByScan(s: State, a: Action, expiration: Time, id: Id)
    requires Enabled(s, a) && id !in s.purging && id in Do(s, a, expiration).purging
    ensures id in s.scanning && Purgeable(s.scanning[id], s.now)
  {
  }

  lemma {:induction false} ScanningWasRead(run: seq<State>, expiration: Time, m: nat, id: Id) returns (i: nat)
    requires IsRun(run, expiration) && m < |run| && id in run[m].scanning
    ensures i <= m && id in run[i].st.db && run[i].st.db[id] == run[m].scanning[id]
    decreases m
  {
    assert m > 0;
    assert StepAt(run, expiration, m - 1);
    var a :| Enabled(run[m - 1], a) && run[m] == Do(run[m - 1], a, expiration);
    ScanningKept(run[m - 1], a, expiration);
    if run[m].scanning == run[m - 1].scanning {
      i := ScanningWasRead(run, expiration, m - 1, id);
    } else {
      i := m - 1;
    }
  }

  lemma ScanningKept(s: State, a: Action, expiration: Time)
    requires Enabled(s, a)
    ensures var s' := Do(s, a, expiration);
            s'.scanning == s.scanning || s'.scanning == s.st.db || s'.scanning == map[]
  {
  }

  // ----- the exceptions occur

  lemma SessionWaits() returns (run: seq<State>)
    ensures IsRun(run, 10)
    ensures var s := run[|run| - 1];
            && s.st == Store(map["s" := NewSession("s", SAMPLE_HASH, SAMPLE_CHECKSUM, Regular, 2, [], 0, 10)],
                             map[Upload("s") := []])
            && s.now == 0 && s.writer.None? && s.scanning == map[] && s.purging == {} && s.accepted == map["s" := []]
  {
    run := ExtendRun([EmptyState()], BeginCreate("s", SAMPLE_HASH, SAMPLE_CHECKSUM, Regular, 2), 10);
    run := ExtendRun(run, FinishCreate("s"), 10);
  }

  lemma AppendBegun() returns (run: seq<State>)
    ensures IsRun(run, 10)
    ensures var s := run[|run| - 1];
            && s.now == 10 && s.writer == Some(Writing("s", 10, 0, [])) && s.purging == {}
            && s.st == Store(map["s" := NewSession("s", SAMPLE_HASH, SAMPLE_CHECKSUM, Regular, 2, [], 0, 10)],
                             map[Upload("s") := []])
            && s.accepted == map["s" := []]
  {
    run := SessionWaits();
    run := ExtendRun(run, Tick(10), 10);
    assert AppendProblem(run[|run| - 1].st, "s", 0, 10).None?;
    run := ExtendRun(run, BeginAppend("s", 0), 10);
  }

  lemma AppendScanned() returns (run: seq<State>)
    ensures IsRun(run, 10)
    ensures var s := run[|run| - 1];
            && s.now == 11 && "s" in s.purging && s.writer == Some(Writing("s", 10, 0, []))
            && s.st == Store(map["s" := NewSession("s", SAMPLE_HASH, SAMPLE_CHECKSUM, Regular, 2, [], 0, 10)],
                             map[Upload("s") := []])
            && s.accepted == map["s" := []]
  {
    run := AppendBegun();
    run := ExtendRun(run, Tick(11), 10);
    var s := run[|run| - 1];
    assert Purgeable(s.st.db["s"], 11);
    run := ExtendRun(run, BeginScan, 10);
    run := ExtendRun(run, FinishScan, 10);
  }

  /** An append checks its session at 10, the last moment before the expiry; the clean-up scans
      at 11; the append is stamped and commits at 12. */
  lemma AppendScannedInFlight() returns (run: seq<State>)
    ensures IsRun(run, 10)
    ensures var s := run[|run| - 1];
            && s.now == 12 && "s" in s.purging && s.writer == Some(Writing("s", 10, 0, [7 as Byte]))
            && s.st == Store(map["s" := NewSession("s", SAMPLE_HASH, SAMPLE_CHECKSUM, Regular, 2, [], 0, 10)],
                             map[Upload("s") := [7 as Byte]])
            && s.accepted == map["s" := []]
  {
    run := AppendScanned();
    run := ExtendRun(run, Tick(12), 10);
    assert [] + [7 as Byte] == [7];
    run := ExtendRun(run, CopyChunk([7]), 10);
  }

  /** So a run in which an active regular session, with a chunk that was just accepted, is
      deleted by the clean-up. */
  lemma RevivedSessionIsPurged() returns (run: seq<State>)
    ensures IsRun(run, 10)
    ensures var s := run[|run| - 1];
            && "s" in s.st.db && s.st.db["s"].kind.Regular? && Inactive(s.st.db["s"], s.now).None?
            && s.st.db["s"].offset == 1 && "s" in s.accepted && s.accepted["s"] == [Chunk(0, [7 as Byte])]
            && Enabled(s, Purge("s")) && "s" !in Do(s, Purge("s"), 10).st.db
  {
    run := AppendScannedInFlight();
    var s := run[|run| - 1];
    run := ExtendRun(run, CommitAppend(12), 10);
    assert [] + [Chunk(0, [7 as Byte])] == [Chunk(0, [7 as Byte])];
    assert run[|run| - 1] == AppendCommitted(s, 12, 10);
  }

  lemma AppendAfterReading() returns (run: seq<State>)
    ensures IsRun(run, 10)
    ensures var s := run[|run| - 1];
            && s.now == 5 && s.writer == Some(Writing("s", 5, 0, [7 as Byte])) && s.purging == {}
            && s.st == Store(map["s" := NewSession("s", SAMPLE_HASH, SAMPLE_CHECKSUM, Regular, 2, [], 0, 10)],
                             map[Upload("s") := [7 as Byte]])
            && s.scanning == s.st.db
  {
    run := SessionWaits();
    run := ExtendRun(run, Tick(5), 10);
    run := ExtendRun(run, BeginScan, 10);
    assert AppendProblem(run[|run| - 1].st, "s", 0, 5).None?;
    run := ExtendRun(run, BeginAppend("s", 0), 10);
    assert [] + [7 as Byte] == [7];
    run := ExtendRun(run, CopyChunk([7]), 10);
  }

  lemma CommittedAfterReading() returns (run: seq<State>)
    ensures IsRun(run, 10)
    ensures var s := run[|run| - 1];
            && s.now == 11 && s.writer.None? && "s" in s.scanning && Purgeable(s.scanning["s"], 11)
            && "s" in s.st.db && Inactive(s.st.db["s"], 11).None? && s.st.db["s"].offset == 1
  {
    run := AppendAfterReading();
    var s := run[|run| - 1];
    run := ExtendRun(run, CommitAppend(5), 10);
    assert run[|run| - 1] == AppendCommitted(s, 5, 10);
    run := ExtendRun(run, Tick(11), 10);
  }

  /** The same without an append in flight when the clean-up judges: it read the record at 5, the
      append then began and committed, and at 11 the old record, not the new one, has expired. */
  lemma StaleReadingIsPurged() returns (run: seq<State>)
    ensures IsRun(run, 10)
    ensures var s := run[|run| - 1];
            && s.now == 11 && "s" in s.st.db && Inactive(s.st.db["s"], s.now).None? && s.st.db["s"].offset == 1
            && Enabled(s, Purge("s")) && "s" !in Do(s, Purge("s"), 10).st.db
  {
    run := CommittedAfterReading();
    run := ExtendRun(run, FinishScan, 10);
  }

  /** A refreshed final that was scanned is deleted while active. */
  lemma RefreshedFinalIsPurged(s: State, id: Id, expiration: Time)
    requires CanRefresh(s, id, s.now) && id in s.st.db && expiration >= 0
    requires Inactive(s.st.db[id], s.now) == Some(Expired)
    ensures var s1 := Do(Do(s, BeginScan, expiration), FinishScan, expiration);
            var s2 := Do(s1, Refresh(id, s.now), expiration);
            && Enabled(s2, Purge(id))
            && id in s2.st.db && Inactive(s2.st.db[id], s2.now).None?
            && id !in Do(s2, Purge(id), expiration).st.db
  {
  }

  function EmptyState(): State {
    State(Store(map[], map[]), 0, None, map[], map[], {}, {}, map[], {}, {}, map[], {})
  }

  /** A final over no partials, begun at time 0. */
  lemma FinalBegun() returns (run: seq<State>)
    ensures IsRun(run, 1)
    ensures var s := run[|run| - 1];
            && s.creating == map["f" := NewSession("f", SAMPLE_HASH, SAMPLE_CHECKSUM, Final, 0, [], 0, 1)]
            && s.building == map["f" := Build([], [])] && s.now == 0 && s.st.db == map[] && s.writer.None?
  {
    run := ExtendRun([EmptyState()], BeginFinal("f", SAMPLE_HASH, SAMPLE_CHECKSUM, [], 0), 1);
    assert run[|run| - 1] == FinalStarted(EmptyState(), "f", SAMPLE_HASH, SAMPLE_CHECKSUM, [], 1);
    assert Ids([]) == [];
  }

  /** Such a state is reached by a run. */
  lemma FinalExpiresWhileBuilding() returns (run: seq<State>)
    ensures IsRun(run, 1)
    ensures var s := run[|run| - 1];
            CanRefresh(s, "f", s.now) && "f" in s.st.db && Inactive(s.st.db["f"], s.now) == Some(Expired)
  {
    run := FinalBegun();
    var s := run[|run| - 1];
    run := ExtendRun(run, FinishCreate("f"), 1);
    assert run[|run| - 1] == Created(s, "f");
    run := ExtendRun(run, Tick(2), 1);
  }
}
