/** What every step of the session operations keeps. */
module SessionInvariant {
  import opened Base
  import opened Sessions
  import opened SessionSteps

  ghost predicate Tiles(chunks: seq<Chunk>, end: int) {
    if chunks == [] then end == 0
    else
      var last := chunks[|chunks| - 1];
      last.offset + |last.data| == end && Tiles(chunks[..|chunks| - 1], last.offset)
  }

  ghost function Joined(chunks: seq<Chunk>): Bytes {
    if chunks == [] then [] else Joined(chunks[..|chunks| - 1]) + chunks[|chunks| - 1].data
  }

  /** A record owns its temp file, and no other record's. */
  ghost predicate RecordOk(files: map<Path, Bytes>, used: set<Id>, id: Id, r: Session) {
    r.id == id && r.tempPath == Upload(id) && Upload(id) in files && id in used && 0 <= r.offset <= |files[Upload(id)]|
  }

  /** The file of session id is exactly the chunks it accepted and what an append in flight has
      copied, unless a copy or commit failed. */
  ghost predicate FileOk(files: map<Path, Bytes>, accepted: map<Id, seq<Chunk>>, torn: set<Id>,
                         writer: Option<Writing>, id: Id) {
    Upload(id) in files && id !in torn ==>
      id in accepted && files[Upload(id)] == Joined(accepted[id]) + Uncommitted(writer, id)
  }

  ghost predicate EntryOk(s: State, id: Id, r: Session) {
    && RecordOk(s.st.files, s.used, id, r)
    && r.updatedAt <= s.now
    && (!r.kind.Final? ==>
          && id in s.accepted && Tiles(s.accepted[id], r.offset)
          && FileOk(s.st.files, s.accepted, s.torn, s.writer, id)
          && (id in s.torn ==> r.offset + |Uncommitted(s.writer, id)| < |s.st.files[Upload(id)]|))
  }

  /** The append in flight found its session active, at the Offset its client sent, and the
      record has not changed since. */
  ghost predicate WriterOk(s: State) {
    s.writer.Some? ==>
      var w := s.writer.value;
      && w.id in s.st.db && !s.st.db[w.id].kind.Final? && w.offset == s.st.db[w.id].offset
      && Inactive(s.st.db[w.id], w.began).None?
      && s.st.db[w.id].updatedAt <= w.began <= s.now
  }

  ghost predicate CreatingOk(s: State, id: Id) {
    && id in s.creating && id !in s.st.db
    && EntryOk(s, id, s.creating[id])
    && s.creating[id].offset == 0
    && (id in s.building ==> s.creating[id].kind.Final?)
  }

  /** A record read earlier: its session's file, if it still exists, has not shrunk below it,
      and holds what the session accepted even when the record is gone. */
  ghost predicate SeenOk(s: State, r: Session) {
    && r.tempPath == Upload(r.id) && r.id in s.used && 0 <= r.offset
    && (Upload(r.id) in s.st.files ==> r.offset <= |s.st.files[Upload(r.id)]|)
    && (!r.kind.Final? ==>
          r.id !in s.building && FileOk(s.st.files, s.accepted, s.torn, s.writer, r.id))
  }

  /** No piece is shorter than the length its partial was recorded with. */
  ghost predicate Covered(partials: seq<Session>, pieces: seq<Bytes>) {
    |pieces| <= |partials| && forall m | 0 <= m < |pieces| :: partials[m].length <= |pieces[m]|
  }

  /** The final's file is what was copied into it so far. */
  ghost predicate BuildOk(s: State, id: Id, b: Build) {
    && id in s.used
    && Covered(b.partials, b.pieces)
    && (forall p :: p in b.partials ==> p in s.seen && p.length == p.offset && p.kind.Partial?)
    && (Upload(id) in s.st.files ==> s.st.files[Upload(id)] == Concat(b.pieces))
    && (id in s.st.db ==> s.st.db[id].kind.Final?)
    && (id in s.creating ==> b.pieces == [])
  }

  ghost predicate RecordsOk(s: State) {
    && (forall id :: id in s.st.db ==> EntryOk(s, id, s.st.db[id]))
    && (forall id :: id in s.creating ==> CreatingOk(s, id))
  }

  ghost predicate NamesOk(s: State) {
    && (forall p :: p in s.st.files ==> p.id in s.used)
    && s.torn <= s.used
    && (forall p :: p in s.doomed ==> p.id in s.used && p.id !in s.st.db && p.id !in s.creating)
    && (forall id :: id in s.purging || id in s.scanning ==> id in s.used && id !in s.creating)
  }

  ghost predicate SeensOk(s: State) { forall r :: r in s.seen ==> SeenOk(s, r) }

  ghost predicate BuildsOk(s: State) { forall id :: id in s.building ==> BuildOk(s, id, s.building[id]) }

  ghost predicate Inv(s: State) {
    RecordsOk(s) && NamesOk(s) && SeensOk(s) && BuildsOk(s) && WriterOk(s)
  }

  // ----- records come and go

  lemma DropOk(s: State, ids: set<Id>)
    requires Inv(s) && ids <= s.st.db.Keys && s.writer.None?
    ensures Inv(DropRecords(s, ids))
  {
  }

  lemma StartedRecords(s: State, r: Session)
    requires Inv(s) && r.id !in s.used && r.tempPath == Upload(r.id) && r.offset == 0 && r.updatedAt <= s.now
    ensures RecordsOk(Started(s, r))
  {
  }

  lemma StartedOk(s: State, r: Session)
    requires Inv(s) && r.id !in s.used && r.tempPath == Upload(r.id) && r.offset == 0 && r.updatedAt <= s.now
    ensures Inv(Started(s, r))
  {
    StartedRecords(s, r);
    StartedSeens(s, r);
  }

  lemma StartedSeens(s: State, r: Session)
    requires Inv(s) && r.id !in s.used && r.tempPath == Upload(r.id)
    ensures SeensOk(Started(s, r))
  {
  }

  lemma BuildOpenedOk(s: State, id: Id, partials: seq<Session>)
    requires Inv(s) && id in s.creating && s.creating[id].kind.Final? && s.st.files[Upload(id)] == []
    requires forall p :: p in partials ==> p in s.seen && p.length == p.offset && p.kind.Partial?
    requires forall r :: r in s.seen ==> r.id != id
    ensures Inv(s.(building := s.building[id := Build(partials, [])]))
  {
    assert CreatingOk(s, id);
  }

  lemma FinalStartedOk(s: State, id: Id, hash: Hash, checksum: string, partials: seq<Session>, checked: Time,
                       expiration: Time)
    requires Inv(s) && Enabled(s, BeginFinal(id, hash, checksum, partials, checked))
    ensures Inv(FinalStarted(s, id, hash, checksum, partials, expiration))
  {
    var r := NewSession(id, hash, checksum, Final, TotalLength(partials), Ids(partials), s.now, expiration);
    StartedOk(s, r);
    assert forall p :: p in partials ==> PartialProblem(p, hash, checksum, checked).None?;
    forall q | q in s.seen
      ensures q.id != id
    {
      assert SeenOk(s, q);
    }
    BuildOpenedOk(Started(s, r), id, partials);
  }

  lemma CreatedOk(s: State, id: Id)
    requires Inv(s) && id in s.creating && s.writer.None?
    ensures Inv(Created(s, id))
  {
    assert CreatingOk(s, id);
  }

  lemma CreateAbandonedOk(s: State, id: Id)
    requires Inv(s) && id in s.creating
    ensures Inv(CreateAbandoned(s, id))
  {
    assert CreatingOk(s, id);
  }

  // ----- appends

  lemma JoinedAppend(chunks: seq<Chunk>, last: Chunk)
    ensures Joined(chunks + [last]) == Joined(chunks) + last.data
    ensures Tiles(chunks, last.offset) ==> Tiles(chunks + [last], last.offset + |last.data|)
  {
    assert (chunks + [last])[..|chunks|] == chunks;
  }

  lemma BegunOk(s: State, id: Id, offset: int)
    requires Inv(s) && Enabled(s, BeginAppend(id, offset))
    ensures Inv(s.(writer := Some(Writing(id, s.now, offset, []))))
  {
    var s' := s.(writer := Some(Writing(id, s.now, offset, [])));
    assert forall i :: Uncommitted(s'.writer, i) == [] == Uncommitted(s.writer, i);
  }

  lemma CopiedRecords(s: State, data: Bytes)
    requires Inv(s) && CanWrite(s)
    ensures RecordsOk(ChunkCopied(s, data))
  {
    var id := s.writer.value.id;
    assert EntryOk(s, id, s.st.db[id]);
    if id in s.accepted { CopiedAssoc(Joined(s.accepted[id]), s.writer.value.copied, data); }
  }

  lemma CopiedSeens(s: State, data: Bytes)
    requires Inv(s) && CanWrite(s)
    ensures SeensOk(ChunkCopied(s, data))
  {
    var id := s.writer.value.id;
    assert EntryOk(s, id, s.st.db[id]);
    CopiedAssoc(Joined(s.accepted[id]), s.writer.value.copied, data);
  }

  lemma CopiedAssoc(a: Bytes, b: Bytes, c: Bytes)
    ensures a + b + c == a + (b + c)
  {
  }

  lemma CopiedOk(s: State, data: Bytes)
    requires Inv(s) && CanWrite(s)
    ensures Inv(ChunkCopied(s, data))
  {
    var id := s.writer.value.id;
    assert EntryOk(s, id, s.st.db[id]);
    CopiedRecords(s, data);
    CopiedSeens(s, data);
  }

  lemma CommittedRecords(s: State, stamp: Time, expiration: Time)
    requires Inv(s) && Enabled(s, CommitAppend(stamp))
    ensures RecordsOk(AppendCommitted(s, stamp, expiration))
  {
    var w := s.writer.value;
    assert EntryOk(s, w.id, s.st.db[w.id]);
    JoinedAppend(s.accepted[w.id], Chunk(w.offset, w.copied));
    assert Joined(s.accepted[w.id]) + w.copied + [] == Joined(s.accepted[w.id]) + w.copied;
    TilesLength(s.accepted[w.id], w.offset);
  }

  lemma CommittedSeens(s: State, stamp: Time, expiration: Time)
    requires Inv(s) && Enabled(s, CommitAppend(stamp))
    ensures SeensOk(AppendCommitted(s, stamp, expiration))
  {
    var w := s.writer.value;
    assert EntryOk(s, w.id, s.st.db[w.id]);
    JoinedAppend(s.accepted[w.id], Chunk(w.offset, w.copied));
    assert Joined(s.accepted[w.id]) + w.copied + [] == Joined(s.accepted[w.id]) + w.copied;
  }

  lemma CommittedOk(s: State, stamp: Time, expiration: Time)
    requires Inv(s) && Enabled(s, CommitAppend(stamp))
    ensures Inv(AppendCommitted(s, stamp, expiration))
  {
    CommittedRecords(s, stamp, expiration);
    CommittedSeens(s, stamp, expiration);
  }

  lemma {:induction false} TilesLength(chunks: seq<Chunk>, end: int)
    requires Tiles(chunks, end)
    ensures |Joined(chunks)| == end
  {
    if chunks != [] { TilesLength(chunks[..|chunks| - 1], chunks[|chunks| - 1].offset); }
  }

  lemma FailedRecords(s: State)
    requires Inv(s)
    ensures RecordsOk(AppendFailed(s))
  {
    if s.writer.Some? {
      var w := s.writer.value;
      assert EntryOk(s, w.id, s.st.db[w.id]);
      TilesLength(s.accepted[w.id], w.offset);
    }
  }

  lemma FailedOk(s: State)
    requires Inv(s)
    ensures Inv(AppendFailed(s))
  {
    FailedRecords(s);
    if s.writer.Some? { assert EntryOk(s, s.writer.value.id, s.st.db[s.writer.value.id]); }
  }

  // ----- builds

  lemma PartialCopiedBuilds(s: State, id: Id)
    requires Inv(s) && CanCopy(s, id)
    ensures BuildsOk(PartialCopied(s, id))
  {
    var b := s.building[id];
    assert BuildOk(s, id, b);
    var p := b.partials[|b.pieces|];
    assert p in b.partials && SeenOk(s, p);
    ConcatAppend(b.pieces, NextPiece(s, id));
  }

  lemma PartialCopiedRecords(s: State, id: Id)
    requires Inv(s) && CanCopy(s, id)
    ensures RecordsOk(PartialCopied(s, id))
  {
    assert BuildOk(s, id, s.building[id]);
  }

  lemma PartialCopiedSeens(s: State, id: Id)
    requires Inv(s) && CanCopy(s, id)
    ensures SeensOk(PartialCopied(s, id))
  {
    assert BuildOk(s, id, s.building[id]);
  }

  lemma PartialCopiedOk(s: State, id: Id)
    requires Inv(s) && CanCopy(s, id)
    ensures Inv(PartialCopied(s, id))
  {
    assert BuildOk(s, id, s.building[id]);
    PartialCopiedRecords(s, id);
    PartialCopiedSeens(s, id);
    PartialCopiedBuilds(s, id);
  }

  lemma ClosedOk(s: State, id: Id)
    requires Inv(s)
    ensures Inv(Closed(s, id))
  {
  }

  lemma LengthenedOk(s: State, id: Id, extra: Bytes)
    requires Inv(s) && Upload(id) in s.st.files && id !in s.creating && id !in s.building
    requires id in s.st.db ==> s.st.db[id].kind.Final?
    requires forall r :: r in s.seen && r.id == id ==> r.kind.Final?
    ensures Inv(Lengthened(s, id, extra))
  {
  }

  lemma BuildStoppedOk(s: State, id: Id, written: nat)
    requires Inv(s) && id in s.building && id !in s.creating
    ensures Inv(BuildStopped(s, id, written))
  {
    ClosedOk(s, id);
    if CanCopy(s, id) {
      assert BuildOk(s, id, s.building[id]);
      forall r | r in s.seen && r.id == id
        ensures r.kind.Final?
      {
        assert SeenOk(s, r);
      }
      var piece := NextPiece(s, id);
      LengthenedOk(Closed(s, id), id, if written <= |piece| then piece[..written] else piece);
    }
  }

  /** The copied contents are as long as the recorded lengths together exactly when each piece
      is as long as its own. */
  lemma {:induction false} CoveredTotal(partials: seq<Session>, pieces: seq<Bytes>)
    requires Covered(partials, pieces)
    ensures TotalLength(partials[..|pieces|]) <= |Concat(pieces)|
    ensures TotalLength(partials[..|pieces|]) == |Concat(pieces)|
            <==> forall m | 0 <= m < |pieces| :: partials[m].length == |pieces[m]|
  {
    if pieces != [] {
      var n := |pieces| - 1;
      var front := pieces[..n];
      assert Covered(partials, front);
      CoveredTotal(partials, front);
      ConcatAppend(front, pieces[n]);
      assert pieces == front + [pieces[n]];
      assert partials[..n + 1][..n] == partials[..n];
      assert forall m | 0 <= m < n :: front[m] == pieces[m];
    }
  }

  lemma {:induction false} TotalNonNegative(partials: seq<Session>)
    requires forall p :: p in partials ==> 0 <= p.length
    ensures 0 <= TotalLength(partials)
  {
    if partials != [] { TotalNonNegative(partials[..|partials| - 1]); }
  }

  /** The finished file is at least as long as the offset the final is given. */
  lemma TotalFits(s: State, id: Id)
    requires Inv(s) && BuildDone(s, id) && id in s.st.db
    ensures s.st.db[id].kind.Final? && Upload(id) in s.st.files
    ensures 0 <= TotalLength(s.building[id].partials) <= |s.st.files[Upload(id)]|
  {
    var b := s.building[id];
    assert BuildOk(s, id, b) && EntryOk(s, id, s.st.db[id]);
    CoveredTotal(b.partials, b.pieces);
    assert b.partials[..|b.pieces|] == b.partials;
    forall p | p in b.partials
      ensures 0 <= p.length
    {
      assert SeenOk(s, p);
    }
    TotalNonNegative(b.partials);
  }

  lemma RefreshedRecords(s: State, id: Id, stamp: Time, expiration: Time)
    requires Inv(s) && CanRefresh(s, id, stamp)
    ensures RecordsOk(Refreshed(s, id, stamp, expiration))
  {
    if id in s.st.db {
      TotalFits(s, id);
      assert EntryOk(s, id, s.st.db[id]);
    }
  }

  lemma RefreshedOk(s: State, id: Id, stamp: Time, expiration: Time)
    requires Inv(s) && CanRefresh(s, id, stamp)
    ensures Inv(Refreshed(s, id, stamp, expiration))
  {
    assert id in s.st.db ==> EntryOk(s, id, s.st.db[id]);
    assert BuildOk(s, id, s.building[id]);
    RefreshedRecords(s, id, stamp, expiration);
  }

  // ----- the rest

  lemma FileRemovedOk(s: State, path: Path, removed: bool)
    requires Inv(s) && path in s.doomed
    ensures Inv(FileRemoved(s, path, removed))
  {
  }

  lemma TickOk(s: State, time: Time)
    requires Inv(s) && s.now <= time
    ensures Inv(s.(now := time))
  {
  }

  lemma ScanBegunOk(s: State)
    requires Inv(s)
    ensures Inv(s.(scanning := s.st.db))
  {
    assert forall id :: id in s.creating ==> CreatingOk(s, id);
    assert forall id :: id in s.st.db ==> EntryOk(s, id, s.st.db[id]);
  }

  lemma ScanFinishedOk(s: State)
    requires Inv(s)
    ensures Inv(ScanFinished(s))
  {
  }

  lemma LookOk(s: State, id: Id)
    requires Inv(s) && id in s.st.db
    ensures Inv(s.(seen := s.seen + {s.st.db[id]}))
  {
    assert EntryOk(s, id, s.st.db[id]);
    if id in s.building { assert BuildOk(s, id, s.building[id]); }
  }

  lemma CrashOk(s: State)
    requires Inv(s)
    ensures Inv(Crashed(s))
  {
    FailedOk(s);
  }

  /** The steps of an append. */
  lemma WritingOk(s: State, a: Action, expiration: Time)
    requires Inv(s) && Enabled(s, a) && (a.BeginAppend? || a.CopyChunk? || a.CommitAppend? || a.FailAppend?)
    ensures Inv(Do(s, a, expiration))
  {
    match a
    case BeginAppend(id, offset) => BegunOk(s, id, offset);
    case CopyChunk(data) => CopiedOk(s, data);
    case CommitAppend(stamp) => CommittedOk(s, stamp, expiration);
    case FailAppend => FailedOk(s);
  }

  /** The steps of creations and builds. */
  lemma CreationOk(s: State, a: Action, expiration: Time)
    requires Inv(s) && Enabled(s, a)
    requires a.BeginCreate? || a.BeginFinal? || a.FinishCreate? || a.AbandonCreate? || a.CopyPartial?
             || a.StopBuild? || a.Refresh?
    ensures Inv(Do(s, a, expiration))
  {
    match a
    case BeginCreate(id, hash, checksum, kind, length) =>
      StartedOk(s, NewSession(id, hash, checksum, kind, length, [], s.now, expiration));
    case BeginFinal(id, hash, checksum, partials, checked) =>
      FinalStartedOk(s, id, hash, checksum, partials, checked, expiration);
    case FinishCreate(id) => CreatedOk(s, id);
    case AbandonCreate(id) => CreateAbandonedOk(s, id);
    case CopyPartial(id) => PartialCopiedOk(s, id);
    case StopBuild(id, written) => BuildStoppedOk(s, id, written);
    case Refresh(id, stamp) => RefreshedOk(s, id, stamp, expiration);
  }

  /** The steps that delete records and files, and the clean-up's. */
  lemma DeletionOk(s: State, a: Action, expiration: Time)
    requires Inv(s) && Enabled(s, a)
    requires a.Complete? || a.Terminate? || a.Purge? || a.BeginScan? || a.FinishScan? || a.RemoveFile?
    ensures Inv(Do(s, a, expiration))
  {
    match a
    case Complete(id) => DropOk(s, CompletionTargets(s.st.db, id));
    case Terminate(id) => DropOk(s, {id});
    case BeginScan => ScanBegunOk(s);
    case FinishScan => ScanFinishedOk(s);
    case Purge(id) => if id in s.st.db { DropOk(s, {id}); }
    case RemoveFile(path, removed) => FileRemovedOk(s, path, removed);
  }

  /** Every step keeps the invariant: so does every crash between two steps. */
  lemma DoOk(s: State, a: Action, expiration: Time)
    requires Inv(s) && Enabled(s, a)
    ensures Inv(Do(s, a, expiration))
  {
    if a.BeginAppend? || a.CopyChunk? || a.CommitAppend? || a.FailAppend? {
      WritingOk(s, a, expiration);
    } else if a.Tick? {
      TickOk(s, a.time);
    } else if a.Look? {
      LookOk(s, a.id);
    } else if a.Crash? {
      CrashOk(s);
    } else if a.Complete? || a.Terminate? || a.Purge? || a.BeginScan? || a.FinishScan? || a.RemoveFile? {
      DeletionOk(s, a, expiration);
    } else {
      CreationOk(s, a, expiration);
    }
  }
}
