/** What a final's file holds, with appends, clean-up and crashes during its build. */
module SessionFinals {
  import opened Base
  import opened Sessions
  import opened SessionSteps
  import opened SessionInvariant
  import opened SessionRuns

  /** The committed record of the session is p. */
  ghost predicate LookedUp(s: State, p: Session) { p.id in s.st.db && s.st.db[p.id] == p }

  /** Step c copies piece m of the final id. */
  ghost predicate CopiedAt(run: seq<State>, c: nat, id: Id, m: nat)
    requires c + 1 < |run|
  {
    CanCopy(run[c], id) && |run[c].building[id].pieces| == m && run[c + 1] == PartialCopied(run[c], id)
  }

  lemma BuildKept(s: State, a: Action, expiration: Time, id: Id)
    requires Enabled(s, a) && id in Do(s, a, expiration).building
    ensures var s' := Do(s, a, expiration);
            || (a.BeginFinal? && a.id == id && id !in s.used && s'.building[id].pieces == [])
            || (id in s.building && s'.building[id] == s.building[id])
            || (CanCopy(s, id) && s' == PartialCopied(s, id))
  {
  }

  /** Every piece of a build was the file of its partial at the step that copied it. */
  lemma {:induction false} PieceCopied(run: seq<State>, expiration: Time, j: nat, id: Id, m: nat) returns (c: nat)
    requires IsRun(run, expiration) && j < |run| && id in run[j].building && m < |run[j].building[id].pieces|
    ensures c < j && CopiedAt(run, c, id, m)
    ensures run[c].building[id].partials == run[j].building[id].partials
    ensures NextPiece(run[c], id) == run[j].building[id].pieces[m]
    decreases j
  {
    assert j > 0;
    assert StepAt(run, expiration, j - 1);
    var a :| Enabled(run[j - 1], a) && run[j] == Do(run[j - 1], a, expiration);
    BuildKept(run[j - 1], a, expiration, id);
    if id in run[j - 1].building && m < |run[j - 1].building[id].pieces| {
      c := PieceCopied(run, expiration, j - 1, id, m);
    } else {
      c := j - 1;
    }
  }

  /** When its partials have all been copied a final's file is their contents at the time, in
      order; it is as long as the final's Offset and Length if and only if no partial's file
      was longer then than its length when it was looked up. */
  lemma FinalFile(run: seq<State>, expiration: Time, j: nat, id: Id)
    requires IsRun(run, expiration) && j < |run| && BuildDone(run[j], id) && id in run[j].st.db
    ensures Upload(id) in run[j].st.files
    ensures var b, file := run[j].building[id], run[j].st.files[Upload(id)];
            && file == Concat(b.pieces)
            && TotalLength(b.partials) <= |file|
            && (TotalLength(b.partials) == |file| <==>
                forall m | 0 <= m < |b.partials| :: |b.pieces[m]| == b.partials[m].length)
  {
    RunInv(run, expiration, j);
    var b := run[j].building[id];
    assert BuildOk(run[j], id, b) && EntryOk(run[j], id, run[j].st.db[id]);
    CoveredTotal(b.partials, b.pieces);
    assert b.partials[..|b.pieces|] == b.partials;
  }

  lemma AcceptedStays(s: State, a: Action, expiration: Time, id: Id)
    requires Enabled(s, a) && id in s.used && id in s.accepted
    ensures var s' := Do(s, a, expiration);
            id in s'.used && id in s'.accepted && s.accepted[id] <= s'.accepted[id]
  {
  }

  /** What a session has accepted is never taken back, even when its record is gone. */
  lemma {:induction false} AcceptedGrows(run: seq<State>, expiration: Time, i: nat, j: nat, id: Id)
    requires IsRun(run, expiration) && i <= j < |run| && id in run[i].used && id in run[i].accepted
    ensures id in run[j].used && id in run[j].accepted && run[i].accepted[id] <= run[j].accepted[id]
    decreases j - i
  {
    if i < j {
      AcceptedGrows(run, expiration, i, j - 1, id);
      assert StepAt(run, expiration, j - 1);
      var a :| Enabled(run[j - 1], a) && run[j] == Do(run[j - 1], a, expiration);
      AcceptedStays(run[j - 1], a, expiration, id);
    }
  }

  lemma {:induction false} JoinedGrows(front: seq<Chunk>, chunks: seq<Chunk>)
    requires front <= chunks
    ensures Joined(front) <= Joined(chunks)
  {
    if front == chunks {
    } else {
      assert front <= chunks[..|chunks| - 1];
      JoinedGrows(front, chunks[..|chunks| - 1]);
    }
  }

  /** A complete partial looked up at i and copied at c, into whose file no failed copy or
      commit left bytes, is copied with its recorded length if and only if it accepted no
      further byte in between and no append in flight had copied any; the piece is what it had
      accepted and what was in flight. */
  lemma PieceHasItsLength(run: seq<State>, expiration: Time, i: nat, c: nat, id: Id, p: Session)
    requires IsRun(run, expiration) && i <= c < |run| && CanCopy(run[c], id)
    requires p == run[c].building[id].partials[|run[c].building[id].pieces|] && p.id !in run[c].torn
    requires LookedUp(run[i], p)
    ensures p.id in run[i].accepted && p.id in run[c].accepted
    ensures NextPiece(run[c], id) == Joined(run[c].accepted[p.id]) + Uncommitted(run[c].writer, p.id)
    ensures |NextPiece(run[c], id)| == p.length <==>
              Joined(run[c].accepted[p.id]) == Joined(run[i].accepted[p.id]) && Uncommitted(run[c].writer, p.id) == []
  {
    RunInv(run, expiration, i);
    RunInv(run, expiration, c);
    assert BuildOk(run[c], id, run[c].building[id]);
    assert p in run[c].building[id].partials && SeenOk(run[c], p);
    assert EntryOk(run[i], p.id, p);
    TilesLength(run[i].accepted[p.id], p.offset);
    AcceptedGrows(run, expiration, i, c, p.id);
    JoinedGrows(run[i].accepted[p.id], run[c].accepted[p.id]);
  }

  /** Every record a build was given had been read in the run. */
  lemma {:induction false} SeenWhen(run: seq<State>, expiration: Time, j: nat, r: Session) returns (i: nat)
    requires IsRun(run, expiration) && j < |run| && r in run[j].seen
    ensures i < j && LookedUp(run[i], r)
    decreases j
  {
    assert j > 0;
    assert StepAt(run, expiration, j - 1);
    var a :| Enabled(run[j - 1], a) && run[j] == Do(run[j - 1], a, expiration);
    RunInv(run, expiration, j - 1);
    if r in run[j - 1].seen {
      i := SeenWhen(run, expiration, j - 1, r);
    } else {
      SeenByLook(run[j - 1], a, expiration, r);
      i := j - 1;
    }
  }

  lemma SeenByLook(s: State, a: Action, expiration: Time, r: Session)
    requires Inv(s) && Enabled(s, a) && r !in s.seen && r in Do(s, a, expiration).seen
    ensures r.id in s.st.db && s.st.db[r.id] == r
  {
    if a.Look? { assert EntryOk(s, a.id, s.st.db[a.id]); }
  }

  lemma BuildingUsed(run: seq<State>, expiration: Time, j: nat, id: Id)
    requires IsRun(run, expiration) && j < |run| && id in run[j].building
    ensures id in run[j].used
  {
    RunInv(run, expiration, j);
    assert BuildOk(run[j], id, run[j].building[id]);
  }

  lemma UsedStays(s: State, a: Action, expiration: Time, id: Id)
    requires Enabled(s, a) && id in s.used
    ensures id in Do(s, a, expiration).used
  {
  }

  /** A final is built once: what has been copied stays copied while the build lasts. */
  lemma {:induction false} BuildGrows(run: seq<State>, expiration: Time, c: nat, j: nat, id: Id)
    requires IsRun(run, expiration) && c <= j < |run| && id in run[c].building
    ensures id in run[j].used
    ensures id in run[j].building ==>
              && run[j].building[id].partials == run[c].building[id].partials
              && run[c].building[id].pieces <= run[j].building[id].pieces
    decreases j - c
  {
    BuildingUsed(run, expiration, c, id);
    if c < j {
      BuildGrows(run, expiration, c, j - 1, id);
      assert StepAt(run, expiration, j - 1);
      var a :| Enabled(run[j - 1], a) && run[j] == Do(run[j - 1], a, expiration);
      UsedStays(run[j - 1], a, expiration, id);
      if id in run[j].building { BuildKept(run[j - 1], a, expiration, id); }
    }
  }

  /** Between every look-up of p and step c, p accepted no byte, and none is in flight at c. */
  ghost predicate Unextended(run: seq<State>, c: nat, p: Session)
    requires c < |run|
  {
    && Uncommitted(run[c].writer, p.id) == []
    && forall i | 0 <= i <= c && LookedUp(run[i], p) :: SameAccepted(run[i], run[c], p.id)
  }

  ghost predicate SameAccepted(s: State, s': State, id: Id) {
    id in s.accepted && id in s'.accepted && Joined(s'.accepted[id]) == Joined(s.accepted[id])
  }

  lemma CopiedUnextendedIff(run: seq<State>, expiration: Time, c: nat, id: Id, p: Session)
    requires IsRun(run, expiration) && c < |run| && CanCopy(run[c], id) && p.id !in run[c].torn
    requires p == run[c].building[id].partials[|run[c].building[id].pieces|]
    ensures |NextPiece(run[c], id)| == p.length <==> Unextended(run, c, p)
  {
    RunInv(run, expiration, c);
    assert BuildOk(run[c], id, run[c].building[id]);
    assert p in run[c].building[id].partials;
    var i := SeenWhen(run, expiration, c, p);
    PieceHasItsLength(run, expiration, i, c, id, p);
    forall n | 0 <= n <= c && LookedUp(run[n], p)
      ensures |NextPiece(run[c], id)| == p.length <==>
                SameAccepted(run[n], run[c], p.id) && Uncommitted(run[c].writer, p.id) == []
    {
      PieceHasItsLength(run, expiration, n, c, id, p);
    }
  }

  /** No listed partial has bytes of a failed append in its file when it is copied. */
  ghost predicate CopiesUntorn(run: seq<State>, j: nat, id: Id)
    requires j < |run| && id in run[j].building
  {
    forall c, m: nat | 0 <= c < j && CopiedAt(run, c, id, m) && m < |run[j].building[id].partials| ::
      run[j].building[id].partials[m].id !in run[c].torn
  }

  /** No listed partial accepted a byte, or had one in flight, between its look-up and its copy. */
  ghost predicate CopiesUnextended(run: seq<State>, j: nat, id: Id)
    requires j < |run| && id in run[j].building
  {
    forall c, m: nat | 0 <= c < j && CopiedAt(run, c, id, m) && m < |run[j].building[id].partials| ::
      Unextended(run, c, run[j].building[id].partials[m])
  }

  lemma CopiedPiece(run: seq<State>, expiration: Time, j: nat, id: Id, c: nat, m: nat)
    requires IsRun(run, expiration) && c < j < |run| && id in run[j].building && CopiedAt(run, c, id, m)
    ensures run[c].building[id].partials == run[j].building[id].partials
    ensures m < |run[j].building[id].pieces| && run[j].building[id].pieces[m] == NextPiece(run[c], id)
  {
    BuildGrows(run, expiration, c + 1, j, id);
    assert run[c + 1].building[id].pieces[m] == NextPiece(run[c], id);
  }

  /** When no listed partial keeps bytes of a failed append, the file of a completed final is as
      long as its Offset and Length if and only if no listed partial accepted a byte, or had
      one in flight, between its look-up and its copy. */
  lemma FinalIsExactIff(run: seq<State>, expiration: Time, j: nat, id: Id)
    requires IsRun(run, expiration) && j < |run| && BuildDone(run[j], id) && id in run[j].st.db
    requires CopiesUntorn(run, j, id)
    ensures Upload(id) in run[j].st.files
    ensures |run[j].st.files[Upload(id)]| == TotalLength(run[j].building[id].partials) <==> CopiesUnextended(run, j, id)
  {
    FinalFile(run, expiration, j, id);
    var b := run[j].building[id];
    forall c, m: nat | 0 <= c < j && CopiedAt(run, c, id, m) && m < |b.partials|
      ensures |b.pieces[m]| == b.partials[m].length <==> Unextended(run, c, b.partials[m])
    {
      CopiedPiece(run, expiration, j, id, c, m);
      CopiedUnextendedIff(run, expiration, c, id, b.partials[m]);
    }
    forall m: nat | m < |b.partials| && CopiesUnextended(run, j, id)
      ensures |b.pieces[m]| == b.partials[m].length
    {
      var c := PieceCopied(run, expiration, j, id, m);
      assert CopiedAt(run, c, id, m);
    }
  }
}
