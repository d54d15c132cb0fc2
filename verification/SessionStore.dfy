/** The session store of internal/uploadsession/store.go as it is called by one request at a
    time: its methods update the record bucket and the temp directory in place. */
module SessionStore {
  import opened Base
  import opened Sessions

  ghost function FilesOf(files: map<Path, Bytes>, partials: seq<Session>): seq<Bytes>
    requires forall p :: p in partials ==> p.tempPath in files
  {
    if partials == [] then []
    else FilesOf(files, partials[..|partials| - 1]) + [files[partials[|partials| - 1].tempPath]]
  }

  ghost predicate AllOpen(files: map<Path, Bytes>, partials: seq<Session>) {
    forall p :: p in partials ==> p.tempPath in files
  }

  ghost predicate Avoids(partials: seq<Session>, path: Path) {
    forall p :: p in partials ==> p.tempPath != path
  }

  ghost predicate NoProblem(hash: Hash, checksum: string, partials: seq<Session>, now: Time) {
    forall p :: p in partials ==> PartialProblem(p, hash, checksum, now).None?
  }

  /** All partials' files are copied. */
  ghost predicate Filled(files: map<Path, Bytes>, partials: seq<Session>, fault: SessionFault) {
    AllOpen(files, partials) && !(fault.CopyBreaks? && fault.at <= |partials|)
  }

  /** A new temp file does not change what the partials' files are. */
  lemma {:induction false} FilesUnaffected(files: map<Path, Bytes>, id: Id, partials: seq<Session>)
    requires Upload(id) !in files && Avoids(partials, Upload(id))
    ensures AllOpen(files[Upload(id) := []], partials) <==> AllOpen(files, partials)
    ensures AllOpen(files, partials) ==> FilesOf(files[Upload(id) := []], partials) == FilesOf(files, partials)
  {
    if partials != [] { FilesUnaffected(files, id, partials[..|partials| - 1]); }
  }

  /** Each record is stored under its id and has its own file. */
  ghost predicate Consistent(st: Store) {
    forall id :: id in st.db ==> st.db[id].id == id && st.db[id].tempPath == Upload(id) && Upload(id) in st.files
  }

  /** The store without those sessions and their files. */
  ghost function Minus(st: Store, ids: set<Id>): Store
    requires ids <= st.db.Keys
  {
    Store(st.db - ids, st.files - PathsOf(st.db, ids))
  }

  lemma MinusStep(st: Store, ids: set<Id>, id: Id)
    requires Consistent(st) && ids <= st.db.Keys && id in st.db
    ensures Minus(st, ids + {id}) == Store(Minus(st, ids).db - {id}, Minus(st, ids).files - {Upload(id)})
  {
    assert PathsOf(st.db, ids + {id}) == PathsOf(st.db, ids) + {Upload(id)};
  }

  const DEFAULT_EXPIRATION: Time := 86_400_000_000_000

  class SessionStore {
    var db: map<Id, Session>
    var files: map<Path, Bytes>
    const expiration: Time

    ghost function Contents(): Store
      reads this
    {
      Store(db, files)
    }

    ghost predicate Valid()
      reads this
    {
      Consistent(Contents())
    }

    constructor (expiration: Time)
      ensures Valid() && Contents() == Store(map[], map[])
      ensures this.expiration == if expiration <= 0 then DEFAULT_EXPIRATION else expiration
    {
      db, files := map[], map[];
      this.expiration := if expiration <= 0 then DEFAULT_EXPIRATION else expiration;
    }

    /** id is the random identifier newID draws; putFails says that the temp file or the record
        cannot be written. */
    method Create(id: Id, hash: Hash, checksum: string, kind: Kind, length: int, refs: seq<Id>,
                  now: Time, putFails: bool) returns (r: Result<Session, Error>)
      requires Valid() && id !in db && Upload(id) !in files
      modifies this
      ensures Valid()
      ensures putFails ==> r == Err(IO) && Contents() == old(Contents())
      ensures !putFails ==>
                && r == Ok(NewSession(id, hash, checksum, kind, length, refs, now, expiration))
                && Contents() == Store(old(db)[id := r.value], old(files)[Upload(id) := []])
    {
      files := files[Upload(id) := []];
      var session := NewSession(id, hash, checksum, kind, length, refs, now, expiration);
      if putFails {
        files := files - {Upload(id)};
        return Err(IO);
      }
      db := db[id := session];
      return Ok(session);
    }

    method Get(id: Id, now: Time) returns (r: Result<Session, Error>)
      ensures r.Ok? <==>
                id in db && db[id].completedAt.None? && db[id].terminatedAt.None? && now <= db[id].expiresAt
      ensures r.Ok? ==> r.value == db[id]
      ensures r.Err? ==> r.error == if id !in db then NotFound else Inactive(db[id], now).value
    {
      if id !in db { return Err(NotFound); }
      var inactive := Inactive(db[id], now);
      if inactive.Some? { return Err(inactive.value); }
      return Ok(db[id]);
    }

    method Append(id: Id, offset: int, chunk: Bytes, now: Time, later: Time, outcome: Outcome)
      returns (r: Result<Session, Error>)
      requires Valid()
      modifies this
      ensures Valid()
      ensures (Contents(), r) == AppendTx(old(Contents()), id, offset, chunk, now, later, expiration, outcome)
      ensures r.Ok? <==>
                && id in old(db) && old(db)[id].completedAt.None? && old(db)[id].terminatedAt.None?
                && now <= old(db)[id].expiresAt && !old(db)[id].kind.Final? && old(db)[id].offset == offset
                && outcome.Copied?
      ensures r.Ok? ==>
                && r.value == old(db)[id].(offset := offset + |chunk|, updatedAt := later,
                                           expiresAt := later + expiration)
                && Contents() == Store(old(db)[id := r.value],
                                       old(files)[Upload(id) := old(files)[Upload(id)] + chunk])
      ensures id in old(db) && old(db)[id].offset != offset ==> r.Err? && Contents() == old(Contents())
    {
      if id !in db { return Err(NotFound); }
      var current := db[id];
      var inactive := Inactive(current, now);
      if inactive.Some? { return Err(inactive.value); }
      if current.kind.Final? { return Err(InvalidState); }
      if current.offset != offset { return Err(OffsetMismatch); }
      if current.tempPath !in files { return Err(IO); }
      files := files[current.tempPath := files[current.tempPath] + Written(chunk, outcome)];
      if outcome.CopyFailed? { return Err(IO); }
      current := current.(offset := current.offset + |chunk|, updatedAt := later, expiresAt := later + expiration);
      if outcome.CommitFailed? { return Err(IO); }
      db := db[id := current];
      return Ok(current);
    }

    /** Deletes the session, and for a final every listed partial that still exists (a ref
        may be listed twice), with their files; no other session is touched. */
    method MarkCompleted(id: Id, now: Time, fails: bool) returns (r: Result<Session, Error>)
      requires Valid()
      modifies this
      ensures Valid()
      ensures id !in old(db) ==> r == Err(NotFound) && Contents() == old(Contents())
      ensures id in old(db) && fails ==> r == Err(IO) && Contents() == old(Contents())
      ensures id in old(db) && !fails ==>
                && r == Ok(old(db)[id].(completedAt := Some(now), updatedAt := now))
                && Contents() == Minus(old(Contents()), CompletionTargets(old(db), id))
      ensures r.Ok? ==>
                forall i :: i in db <==>
                            i in old(db) && i != id && !(old(db)[id].kind.Final? && i in old(db)[id].refs)
    {
      if id !in db { return Err(NotFound); }
      var session := db[id].(completedAt := Some(now), updatedAt := now);
      var tx, partialTempPaths := db, {};
      if session.kind.Final? {
        tx, partialTempPaths := DeleteListed(session.refs);
      }
      if fails { return Err(IO); }
      ghost var gone := CompletionTargets(db, id);
      assert db - gone == tx - {id};
      assert PathsOf(db, gone) == {session.tempPath} + partialTempPaths;
      db := tx - {id};
      files := files - {session.tempPath} - partialTempPaths;
      return Ok(session);
    }

    /** The loop over a final's refs: the records without them, and the files they named. */
    method DeleteListed(refs: seq<Id>) returns (tx: map<Id, Session>, paths: set<Path>)
      ensures var listed := set r | r in refs && r in db;
              tx == db - listed && paths == PathsOf(db, listed)
    {
      tx, paths := db, {};
      ghost var listed: set<Id> := {};
      for i := 0 to |refs|
        invariant listed == set r | r in refs[..i] && r in db
        invariant tx == db - listed
        invariant paths == PathsOf(db, listed)
      {
        var ref := refs[i];
        assert refs[..i + 1] == refs[..i] + [ref];
        if ref in tx {
          paths := paths + {tx[ref].tempPath};
          tx := tx - {ref};
          listed := listed + {ref};
        }
      }
      assert refs[..|refs|] == refs;
    }

    method Terminate(id: Id)
      requires Valid()
      modifies this
      ensures Valid()
      ensures id in old(db) ==> Contents() == Store(old(db) - {id}, old(files) - {Upload(id)})
      ensures id !in old(db) ==> Contents() == old(Contents())
    {
      if id in db {
        var tempPath := db[id].tempPath;
        db := db - {id};
        files := files - {tempPath};
      }
    }

    /** The ordered concatenation of the partials' files becomes a new final session, with
        Offset = Length = the sum of their lengths. A problem of a partial, a failing creation
        or a broken copy changes nothing; a failing refresh leaves the final with its whole
        file, but with Offset 0 and the expiry it was created with. */
    method BuildFinalFromPartials(id: Id, hash: Hash, checksum: string, partials: seq<Session>,
                                  now: Time, later: Time, fault: SessionFault)
      returns (r: Result<Session, Error>)
      requires Valid() && id !in db && Upload(id) !in files
      requires Avoids(partials, Upload(id))
      modifies this
      ensures Valid()
      ensures r.Ok? <==> NoProblem(hash, checksum, partials, now) && !fault.CreateFails?
                         && Filled(old(files), partials, fault) && !fault.RefreshFails?
      ensures !(NoProblem(hash, checksum, partials, now) && !fault.CreateFails?
                && Filled(old(files), partials, fault)) ==>
                Contents() == old(Contents())
      ensures NoProblem(hash, checksum, partials, now) && Filled(old(files), partials, fault) && fault.RefreshFails? ==>
                Contents() == Store(old(db)[id := NewSession(id, hash, checksum, Final, TotalLength(partials),
                                                             Ids(partials), now, expiration)],
                                    old(files)[Upload(id) := Concat(FilesOf(old(files), partials))])
      ensures r.Ok? ==>
                && r.value == NewSession(id, hash, checksum, Final, TotalLength(partials), Ids(partials), now,
                                         expiration)
                              .(offset := TotalLength(partials), updatedAt := later, expiresAt := later + expiration)
                && Contents() == Store(old(db)[id := r.value],
                                       old(files)[Upload(id) := Concat(FilesOf(old(files), partials))])
    {
      var problem := FirstProblem(hash, checksum, partials, now);
      if problem.Some? { return Err(problem.value); }
      var refs, total := RefsAndTotal(partials);
      r := CreateAndFill(NewSession(id, hash, checksum, Final, total, refs, now, expiration), partials, now, later,
                         fault);
    }

    /** Creates the final session and fills its file. */
    method CreateAndFill(final: Session, partials: seq<Session>, now: Time, later: Time, fault: SessionFault)
      returns (r: Result<Session, Error>)
      requires Valid() && final.id !in db && Upload(final.id) !in files
      requires Avoids(partials, Upload(final.id))
      requires final == NewSession(final.id, final.hash, final.checksum, Final, final.length, final.refs, now,
                                   expiration)
      modifies this
      ensures Valid()
      ensures r.Ok? <==> !fault.CreateFails? && Filled(old(files), partials, fault) && !fault.RefreshFails?
      ensures fault.CreateFails? || !Filled(old(files), partials, fault) ==> Contents() == old(Contents())
      ensures Filled(old(files), partials, fault) && fault.RefreshFails? ==>
                Contents() == Store(old(db)[final.id := final],
                                    old(files)[Upload(final.id) := Concat(FilesOf(old(files), partials))])
      ensures r.Ok? ==>
                && r.value == final.(offset := final.length, updatedAt := later, expiresAt := later + expiration)
                && Contents() == Store(old(db)[final.id := r.value],
                                       old(files)[Upload(final.id) := Concat(FilesOf(old(files), partials))])
    {
      var created := Create(final.id, final.hash, final.checksum, Final, final.length, final.refs, now,
                            fault.CreateFails?);
      if created.Err? { return Err(created.error); }
      FilesUnaffected(old(files), final.id, partials);
      r := Assemble(final.id, partials, final.length, later, fault);
      if Filled(old(files), partials, fault) {
        assert files == old(files)[Upload(final.id) := Concat(FilesOf(old(files), partials))];
        assert db == old(db)[final.id := if r.Ok? then r.value else final];
      } else {
        assert db == old(db) && files == old(files);
      }
    }

    /** Copies the partials' files into the new final and sets its offset. A final whose copy
        breaks is terminated; one whose offset cannot be set stays. */
    method Assemble(id: Id, partials: seq<Session>, total: int, later: Time, fault: SessionFault)
      returns (r: Result<Session, Error>)
      requires Valid() && id in db && Avoids(partials, Upload(id))
      modifies this
      ensures Valid()
      ensures r.Ok? <==> Filled(old(files), partials, fault) && !fault.RefreshFails?
      ensures !Filled(old(files), partials, fault) ==> Contents() == Store(old(db) - {id}, old(files) - {Upload(id)})
      ensures Filled(old(files), partials, fault) && fault.RefreshFails? ==>
                Contents() == Store(old(db), old(files)[Upload(id) := Concat(FilesOf(old(files), partials))])
      ensures r.Ok? ==>
                && r.value == old(db)[id].(offset := total, updatedAt := later, expiresAt := later + expiration)
                && Contents() == Store(old(db)[id := r.value],
                                       old(files)[Upload(id) := Concat(FilesOf(old(files), partials))])
    {
      var copied := CopyPartials(id, partials, fault);
      if !copied {
        Terminate(id);
        return Err(IO);
      }
      r := RefreshOffset(id, total, later, fault.RefreshFails?);
    }

    static method FirstProblem(hash: Hash, checksum: string, partials: seq<Session>, now: Time)
      returns (r: Option<Error>)
      ensures r.None? <==> NoProblem(hash, checksum, partials, now)
      ensures r.None? <==>
                forall p :: p in partials ==>
                              && p.kind.Partial? && p.offset == p.length && p.hash == hash && p.checksum == checksum
                              && p.completedAt.None? && p.terminatedAt.None? && now <= p.expiresAt
    {
      for i := 0 to |partials|
        invariant NoProblem(hash, checksum, partials[..i], now)
      {
        var problem := PartialProblem(partials[i], hash, checksum, now);
        if problem.Some? { return problem; }
        assert partials[..i + 1] == partials[..i] + [partials[i]];
      }
      assert partials[..|partials|] == partials;
      return None;
    }

    static method RefsAndTotal(partials: seq<Session>) returns (refs: seq<Id>, total: int)
      ensures refs == Ids(partials) && total == TotalLength(partials)
    {
      refs, total := [], 0;
      for i := 0 to |partials|
        invariant refs == Ids(partials)[..i] && total == TotalLength(partials[..i])
      {
        assert partials[..i + 1][..i] == partials[..i];
        refs := refs + [partials[i].id];
        total := total + partials[i].length;
      }
      assert partials[..|partials|] == partials;
    }

    /** The copy loop into the final's truncated file; a broken copy leaves what it wrote. */
    method CopyPartials(id: Id, partials: seq<Session>, fault: SessionFault) returns (copied: bool)
      requires Valid() && Upload(id) in files
      requires Avoids(partials, Upload(id))
      modifies this`files
      ensures Valid()
      ensures copied <==> Filled(old(files), partials, fault)
      ensures copied ==> files == old(files)[Upload(id) := Concat(FilesOf(old(files), partials))]
      ensures files - {Upload(id)} == old(files) - {Upload(id)} && Upload(id) in files
    {
      files := files[Upload(id) := []];
      for i := 0 to |partials|
        invariant forall p :: p in partials[..i] ==> p.tempPath in old(files)
        invariant files == old(files)[Upload(id) := Concat(FilesOf(old(files), partials[..i]))]
        invariant fault.CopyBreaks? ==> i <= fault.at
      {
        var partial := partials[i];
        if partial.tempPath !in files { return false; }
        var content := files[partial.tempPath];
        if fault.CopyBreaks? && fault.at == i {
          files := files[Upload(id) := files[Upload(id)]
                                       + content[..if fault.written <= |content| then fault.written else |content|]];
          return false;
        }
        assert partials[..i + 1][..i] == partials[..i];
        ConcatAppend(FilesOf(old(files), partials[..i]), content);
        files := files[Upload(id) := files[Upload(id)] + content];
      }
      assert partials[..|partials|] == partials;
      return !(fault.CopyBreaks? && fault.at == |partials|);
    }

    method RefreshOffset(id: Id, offset: int, now: Time, fails: bool) returns (r: Result<Session, Error>)
      requires Valid()
      modifies this
      ensures Valid()
      ensures id !in old(db) ==> r == Err(NotFound) && Contents() == old(Contents())
      ensures id in old(db) && fails ==> r == Err(IO) && Contents() == old(Contents())
      ensures id in old(db) && !fails ==>
                && r == Ok(old(db)[id].(offset := offset, updatedAt := now, expiresAt := now + expiration))
                && Contents() == Store(old(db)[id := r.value], old(files))
    {
      if id !in db { return Err(NotFound); }
      var current := db[id].(offset := offset, updatedAt := now, expiresAt := now + expiration);
      if fails { return Err(IO); }
      db := db[id := current];
      return Ok(current);
    }

    /** Exactly the inactive sessions go, in whatever order the bucket lists them. */
    method CleanupExpired(now: Time)
      requires Valid()
      modifies this
      ensures Valid()
      ensures Contents() == Minus(old(Contents()), set i | i in old(db) && Inactive(old(db)[i], now).Some?)
      ensures forall i :: i in db <==>
                            && i in old(db) && old(db)[i].completedAt.None? && old(db)[i].terminatedAt.None?
                            && now <= old(db)[i].expiresAt
    {
      var toPurge := set i | i in db && Purgeable(db[i], now);
      ghost var gone := set i | i in db && Inactive(db[i], now).Some?;
      assert toPurge == gone by {
        forall i | i in db { PurgeableIffInactive(db[i], now); }
      }
      ghost var purged: set<Id> := {};
      while toPurge != {}
        invariant Valid()
        invariant purged <= gone && toPurge == gone - purged
        invariant Contents() == Minus(old(Contents()), purged)
        decreases toPurge
      {
        var i :| i in toPurge;
        Terminate(i);
        MinusStep(old(Contents()), purged, i);
        toPurge, purged := toPurge - {i}, purged + {i};
      }
      assert purged == gone;
    }

    method OpenTemp(id: Id, now: Time) returns (r: Result<(Bytes, Session), Error>)
      requires Valid()
      ensures r.Ok? <==>
                id in db && db[id].completedAt.None? && db[id].terminatedAt.None? && now <= db[id].expiresAt
      ensures r.Ok? ==> r.value == (files[Upload(id)], db[id])
    {
      var session := Get(id, now);
      if session.Err? { return Err(session.error); }
      if session.value.tempPath !in files { return Err(IO); }
      return Ok((files[session.value.tempPath], session.value));
    }
  }

  /** The lengths of the first m partials' files together. */
  ghost function Before(files: map<Path, Bytes>, partials: seq<Session>, m: nat): nat
    requires AllOpen(files, partials) && m <= |partials|
  {
    if m == 0 then 0 else Before(files, partials, m - 1) + |files[partials[m - 1].tempPath]|
  }

  lemma {:induction false} BeforePrefix(files: map<Path, Bytes>, partials: seq<Session>, n: nat, m: nat)
    requires AllOpen(files, partials) && m <= n <= |partials|
    ensures Before(files, partials[..n], m) == Before(files, partials, m)
  {
    if m > 0 { BeforePrefix(files, partials, n, m - 1); }
  }

  /** A final's file is its partials' files one after the other, in the order given: partial
      m's bytes lie right after those of the partials before it. */
  lemma {:induction false} FinalHoldsPartial(files: map<Path, Bytes>, partials: seq<Session>, m: nat)
    requires AllOpen(files, partials) && m < |partials|
    ensures var file, from := Concat(FilesOf(files, partials)), Before(files, partials, m);
            var piece := files[partials[m].tempPath];
            && |file| == Before(files, partials, |partials|)
            && from + |piece| <= |file| && file[from..from + |piece|] == piece
    decreases |partials|
  {
    var n := |partials| - 1;
    var front, last := partials[..n], files[partials[n].tempPath];
    ConcatAppend(FilesOf(files, front), last);
    BeforePrefix(files, partials, n, n);
    BeforePrefix(files, partials, n, m);
    if n == 0 {
      assert Concat(FilesOf(files, front)) == [];
    } else {
      FinalHoldsPartial(files, front, if m < n then m else 0);
    }
  }

  lemma {:induction false} FilesLength(files: map<Path, Bytes>, partials: seq<Session>)
    requires forall p :: p in partials ==> p.tempPath in files && p.length == |files[p.tempPath]|
    ensures |Concat(FilesOf(files, partials))| == TotalLength(partials)
  {
    if partials != [] {
      var front, last := partials[..|partials| - 1], partials[|partials| - 1];
      FilesLength(files, front);
      ConcatAppend(FilesOf(files, front), files[last.tempPath]);
    }
  }

  /** Built from current records whose files are as long as their offsets, a final's file is
      as long as its Offset and Length, the ordered concatenation of the partial files. */
  lemma FinalIsComplete(st: Store, partials: seq<Session>, hash: Hash, checksum: string, now: Time)
    requires Consistent(st)
    requires forall p :: p in partials ==>
               p.id in st.db && st.db[p.id] == p && p.offset == |st.files[p.tempPath]|
               && PartialProblem(p, hash, checksum, now).None?
    ensures AllOpen(st.files, partials)
    ensures |Concat(FilesOf(st.files, partials))| == TotalLength(partials)
  {
    FilesLength(st.files, partials);
  }

  /** Completing a final just built from those partials restores the store to what it was
      without any of them. */
  lemma CompletingFinalRemovesPartials(st: Store, final: Session, content: Bytes, partials: seq<Session>)
    requires Consistent(st) && final.kind.Final? && final.tempPath == Upload(final.id)
    requires final.id !in st.db && Upload(final.id) !in st.files && final.refs == Ids(partials)
    requires forall p :: p in partials ==> p.id in st.db
    ensures var db := st.db[final.id := final];
            var files := st.files[Upload(final.id) := content];
            var gone := CompletionTargets(db, final.id);
            var ids := set p | p in partials :: p.id;
            Minus(Store(db, files), gone) == Minus(st, ids)
  {
    var db := st.db[final.id := final];
    var gone := CompletionTargets(db, final.id);
    var ids := set p | p in partials :: p.id;
    assert forall i | 0 <= i < |partials| :: Ids(partials)[i] == partials[i].id;
    assert forall p | p in partials :: p.id in Ids(partials) by {
      forall p | p in partials
        ensures p.id in Ids(partials)
      {
        var i :| 0 <= i < |partials| && partials[i] == p;
        assert Ids(partials)[i] == p.id;
      }
    }
    assert gone == {final.id} + ids;
    assert PathsOf(db, gone) == {Upload(final.id)} + PathsOf(st.db, ids);
  }
}
