/** The results about every run of the session operations. */
module SessionRuns {
  import opened Base
  import opened Sessions
  import opened SessionSteps
  import opened SessionInvariant

  // ----- runs

  /** A server's first state: nothing in flight, and every record consistent with its file. */
  ghost predicate Start(s: State) {
    && s.writer.None? && s.scanning == map[] && s.creating == map[] && s.doomed == {} && s.purging == {}
    && s.building == map[] && s.seen == {}
    && Inv(s)
  }

  ghost predicate Next(s: State, s': State, expiration: Time) {
    exists a :: Enabled(s, a) && s' == Do(s, a, expiration)
  }

  ghost predicate StepAt(run: seq<State>, expiration: Time, i: nat)
    requires i + 1 < |run|
  {
    Next(run[i], run[i + 1], expiration)
  }

  ghost predicate IsRun(run: seq<State>, expiration: Time) {
    |run| > 0 && Start(run[0]) && forall i :: 0 <= i < |run| - 1 ==> StepAt(run, expiration, i)
  }

  lemma {:induction false} RunInv(run: seq<State>, expiration: Time, i: nat)
    requires IsRun(run, expiration) && i < |run|
    ensures Inv(run[i])
  {
    if i > 0 {
      RunInv(run, expiration, i - 1);
      assert StepAt(run, expiration, i - 1);
      var a :| Enabled(run[i - 1], a) && run[i] == Do(run[i - 1], a, expiration);
      DoOk(run[i - 1], a, expiration);
    }
  }

  /** Crash and interleaving safety: at every step every record has its own existing file,
      so a crash can leave a file without a record but never a record without its file. */
  lemma RecordsHaveFiles(run: seq<State>, expiration: Time, i: nat, id: Id, other: Id)
    requires IsRun(run, expiration) && i < |run| && id in run[i].st.db && other in run[i].st.db
    ensures run[i].st.db[id].id == id
    ensures run[i].st.db[id].tempPath in run[i].st.files
    ensures run[i].st.db[id].tempPath == run[i].st.db[other].tempPath ==> id == other
    ensures 0 <= run[i].st.db[id].offset <= |run[i].st.files[run[i].st.db[id].tempPath]|
    ensures run[i].st.db[id].tempPath !in run[i].doomed
  {
    RunInv(run, expiration, i);
    assert EntryOk(run[i], id, run[i].st.db[id]);
    assert EntryOk(run[i], other, run[i].st.db[other]);
  }

  // ----- accepted chunks

  /** Chunk k lies exactly at its offset in the joined chunks. */
  lemma {:induction false} TilesAt(chunks: seq<Chunk>, end: int, k: nat)
    requires Tiles(chunks, end) && k < |chunks|
    ensures 0 <= chunks[k].offset <= chunks[k].offset + |chunks[k].data| <= end == |Joined(chunks)|
    ensures Joined(chunks)[chunks[k].offset..chunks[k].offset + |chunks[k].data|] == chunks[k].data
    ensures chunks[k].offset == if k == 0 then 0 else chunks[k - 1].offset + |chunks[k - 1].data|
    decreases |chunks|
  {
    var front, last := chunks[..|chunks| - 1], chunks[|chunks| - 1];
    var joined := Joined(front);
    TilesLength(front, last.offset);
    if k < |front| {
      TilesAt(front, last.offset, k);
      var from, to := chunks[k].offset, chunks[k].offset + |chunks[k].data|;
      assert (joined + last.data)[from..to] == joined[from..to];
    } else {
      assert (joined + last.data)[|joined|..] == last.data;
    }
  }

  /** Only the commit of an append in flight adds to the chunks of a session. */
  lemma OnlyCommitsAccept(s: State, a: Action, expiration: Time, id: Id)
    requires Enabled(s, a) && id in s.used && id in s.accepted
    ensures id in Do(s, a, expiration).accepted
    ensures Do(s, a, expiration).accepted[id] != s.accepted[id] ==> a.CommitAppend? && s.writer.value.id == id
  {
  }

  /** An append in flight keeps the offset it was sent for. */
  lemma OffsetStays(run: seq<State>, expiration: Time, i: nat)
    requires IsRun(run, expiration) && i + 1 < |run| && run[i].writer.Some? && run[i + 1].writer.Some?
    ensures run[i + 1].writer.value.offset == run[i].writer.value.offset
  {
    assert StepAt(run, expiration, i);
    var a :| Enabled(run[i], a) && run[i + 1] == Do(run[i], a, expiration);
    WriterStays(run[i], a, expiration);
  }

  lemma WriterStays(s: State, a: Action, expiration: Time)
    requires Enabled(s, a) && s.writer.Some?
    ensures Do(s, a, expiration).writer.Some? ==> Do(s, a, expiration).writer.value.offset == s.writer.value.offset
  {
  }

  lemma BegunAt(s: State, id: Id, offset: int, expiration: Time)
    requires Enabled(s, BeginAppend(id, offset))
    ensures id in s.st.db && s.st.db[id].offset == offset
    ensures Do(s, BeginAppend(id, offset), expiration).writer == Some(Writing(id, s.now, offset, []))
  {
  }

  lemma WriterAtOffset(run: seq<State>, expiration: Time, i: nat, id: Id)
    requires IsRun(run, expiration) && i < |run| && InFlight(run[i], id)
    ensures id in run[i].st.db && run[i].writer.value.offset == run[i].st.db[id].offset
  {
    RunInv(run, expiration, i);
  }

  /** A chunk is accepted only at the Offset its client sent it for, and moves it by its
      length: a chunk that is sent again is not accepted twice. */
  lemma AcceptedAsSent(run: seq<State>, expiration: Time, i: nat, id: Id)
    requires IsRun(run, expiration) && i + 1 < |run| && id in run[i].st.db
    requires id in run[i].accepted
    requires id in run[i + 1].accepted ==> run[i + 1].accepted[id] != run[i].accepted[id]
    ensures run[i].writer.Some? && id in run[i + 1].accepted && id in run[i + 1].st.db
    ensures var w := run[i].writer.value;
            && w.id == id && w.offset == run[i].st.db[id].offset
            && run[i + 1].accepted[id] == run[i].accepted[id] + [Chunk(w.offset, w.copied)]
            && run[i + 1].st.db[id].offset == w.offset + |w.copied|
  {
    RunInv(run, expiration, i);
    assert EntryOk(run[i], id, run[i].st.db[id]);
    assert StepAt(run, expiration, i);
    var a :| Enabled(run[i], a) && run[i + 1] == Do(run[i], a, expiration);
    OnlyCommitsAccept(run[i], a, expiration, id);
  }

  /** Until it ends, an append that began for an offset finds the session at that Offset,
      whatever other operations do in between. */
  lemma {:induction false} SentAtOffset(run: seq<State>, expiration: Time, i: nat, j: nat, id: Id, offset: int)
    requires IsRun(run, expiration) && i < j < |run|
    requires Enabled(run[i], BeginAppend(id, offset))
    requires run[i + 1] == Do(run[i], BeginAppend(id, offset), expiration)
    requires forall k | i < k <= j :: InFlight(run[k], id)
    ensures id in run[i].st.db && id in run[j].st.db && run[j].writer.Some?
    ensures run[j].writer.value.offset == offset == run[i].st.db[id].offset == run[j].st.db[id].offset
    decreases j
  {
    assert InFlight(run[j], id);
    if j > i + 1 {
      SentAtOffset(run, expiration, i, j - 1, id, offset);
      assert InFlight(run[j - 1], id);
      OffsetStays(run, expiration, j - 1);
    } else {
      BegunAt(run[i], id, offset, expiration);
    }
    WriterAtOffset(run, expiration, j, id);
  }

  /** The chunks a regular or partial session accepted, each at the offset it was sent for,
      tile [0, Offset) without gap or overlap, and are, with what an append in flight has
      copied, exactly its file if and only if no failed copy or commit left bytes. */
  lemma AppendsTile(run: seq<State>, expiration: Time, i: nat, id: Id)
    requires IsRun(run, expiration) && i < |run| && id in run[i].st.db && !run[i].st.db[id].kind.Final?
    ensures id in run[i].accepted && Upload(id) in run[i].st.files
    ensures var r, chunks, file := run[i].st.db[id], run[i].accepted[id], run[i].st.files[Upload(id)];
            && |Joined(chunks)| == r.offset <= |file|
            && (forall k | 0 <= k < |chunks| ::
                 && chunks[k].offset == (if k == 0 then 0 else chunks[k - 1].offset + |chunks[k - 1].data|)
                 && 0 <= chunks[k].offset <= chunks[k].offset + |chunks[k].data| <= r.offset
                 && Joined(chunks)[chunks[k].offset..chunks[k].offset + |chunks[k].data|] == chunks[k].data)
            && (id !in run[i].torn <==> file == Joined(chunks) + Uncommitted(run[i].writer, id))
            && (id !in run[i].torn <==> |file| == r.offset + |Uncommitted(run[i].writer, id)|)
  {
    RunInv(run, expiration, i);
    assert EntryOk(run[i], id, run[i].st.db[id]);
    var chunks, end := run[i].accepted[id], run[i].st.db[id].offset;
    TilesLength(chunks, end);
    forall k | 0 <= k < |chunks|
      ensures chunks[k].offset == (if k == 0 then 0 else chunks[k - 1].offset + |chunks[k - 1].data|)
      ensures 0 <= chunks[k].offset <= chunks[k].offset + |chunks[k].data| <= end
      ensures Joined(chunks)[chunks[k].offset..chunks[k].offset + |chunks[k].data|] == chunks[k].data
    {
      TilesAt(chunks, end, k);
    }
  }

  // ----- building runs

  /** The clock does not go back. */
  lemma {:induction false} ClockRuns(run: seq<State>, expiration: Time, i: nat, j: nat)
    requires IsRun(run, expiration) && i <= j < |run|
    ensures run[i].now <= run[j].now
    decreases j - i
  {
    if i < j {
      ClockRuns(run, expiration, i, j - 1);
      assert StepAt(run, expiration, j - 1);
      var a :| Enabled(run[j - 1], a) && run[j] == Do(run[j - 1], a, expiration);
      StepClock(run[j - 1], a, expiration);
    }
  }

  lemma StepClock(s: State, a: Action, expiration: Time)
    requires Enabled(s, a)
    ensures s.now <= Do(s, a, expiration).now
  {
  }

  lemma ExtendRun(run: seq<State>, a: Action, expiration: Time) returns (run': seq<State>)
    requires IsRun(run, expiration) && Enabled(run[|run| - 1], a)
    ensures IsRun(run', expiration) && run'[|run'| - 1] == Do(run[|run| - 1], a, expiration)
  {
    run' := run + [Do(run[|run| - 1], a, expiration)];
    forall i | 0 <= i < |run'| - 1
      ensures StepAt(run', expiration, i)
    {
      if i < |run| - 1 {
        assert StepAt(run, expiration, i);
      } else {
        assert Enabled(run'[i], a) && run'[i + 1] == Do(run'[i], a, expiration);
      }
    }
  }
}
