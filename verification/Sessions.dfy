/** Upload sessions (internal/uploadsession/store.go): records, temp files and the effect of
    each database transaction. */
module Sessions {
  import opened Base

  type Id = string
  type Time = int

  datatype Kind = Regular | Partial | Final

  /** filepath.Join(tempDir, id + ".upload") */
  datatype Path = Upload(id: Id)

  datatype Session = Session(
    id: Id,
    hash: Hash,
    checksum: string,
    kind: Kind,
    length: int,
    offset: int,
    tempPath: Path,
    refs: seq<Id>,
    updatedAt: Time,
    expiresAt: Time,
    completedAt: Option<Time>,
    terminatedAt: Option<Time>)

  datatype Error =
    | NotFound | Expired | Terminated | OffsetMismatch | Completed | InvalidState
    | NotPartial | Incomplete | IdentityMismatch | IO

  /** The call on the sessions that fails in an operation, if any. CreateFails: the temp file or
      the record cannot be written. CopyBreaks: copying partial number `at`, counted from zero,
      breaks after some bytes, or, when there is none, closing the final's file fails.
      RefreshFails and CompleteFails: the transaction of refreshOffset or MarkCompleted fails.
      OpenFails: the file of an upload that is to be pushed cannot be opened. */
  datatype SessionFault =
    | NoSessionFault
    | CreateFails
    | CopyBreaks(at: nat, written: nat)
    | RefreshFails
    | CompleteFails
    | OpenFails

  /** The session bucket and the temp directory. */
  datatype Store = Store(db: map<Id, Session>, files: map<Path, Bytes>)

  function NewSession(id: Id, hash: Hash, checksum: string, kind: Kind, length: int, refs: seq<Id>,
                      now: Time, expiration: Time): Session {
    Session(id, hash, checksum, kind, length, 0, Upload(id), refs, now, now + expiration, None, None)
  }

  /** ensureActiveLocked */
  function Inactive(s: Session, now: Time): Option<Error> {
    if s.terminatedAt.Some? then Some(Terminated)
    else if s.completedAt.Some? then Some(Completed)
    else if now > s.expiresAt then Some(Expired)
    else None
  }

  /** How far the copy into the temp file and the commit of one Append get. */
  datatype Outcome = Copied | CopyFailed(written: nat) | CommitFailed

  /** Why Append refuses, before it touches the file. */
  function AppendProblem(st: Store, id: Id, offset: int, now: Time): Option<Error> {
    if id !in st.db then Some(NotFound)
    else if Inactive(st.db[id], now).Some? then Inactive(st.db[id], now)
    else if st.db[id].kind.Final? then Some(InvalidState)
    else if st.db[id].offset != offset then Some(OffsetMismatch)
    else if st.db[id].tempPath !in st.files then Some(IO)
    else None
  }

  /** The bytes of the chunk that reach the file. */
  function Written(chunk: Bytes, outcome: Outcome): Bytes {
    match outcome
    case CopyFailed(written) => if written <= |chunk| then chunk[..written] else chunk
    case _ => chunk
  }

  /** The transaction of Append. The clock is read when the session is checked and again
      after the copy; a failed copy or commit leaves bytes in the file but not in Offset. */
  function AppendTx(st: Store, id: Id, offset: int, chunk: Bytes, now: Time, later: Time,
                    expiration: Time, outcome: Outcome): (Store, Result<Session, Error>) {
    var problem := AppendProblem(st, id, offset, now);
    if problem.Some? then (st, Err(problem.value))
    else
      var current := st.db[id];
      var files := st.files[current.tempPath := st.files[current.tempPath] + Written(chunk, outcome)];
      if outcome.Copied? then
        var next := current.(offset := current.offset + |chunk|, updatedAt := later, expiresAt := later + expiration);
        (Store(st.db[id := next], files), Ok(next))
      else (Store(st.db, files), Err(IO))
  }

  /** The sessions MarkCompleted(id) deletes: id and, for a final, the partials it lists
      that still exist. */
  function CompletionTargets(db: map<Id, Session>, id: Id): set<Id>
    requires id in db
  {
    {id} + if db[id].kind.Final? then set r | r in db[id].refs && r in db else {}
  }

  ghost function PathsOf(db: map<Id, Session>, ids: set<Id>): set<Path>
    requires ids <= db.Keys
  {
    set i | i in ids :: db[i].tempPath
  }

  /** CleanupExpired's scan condition. */
  predicate Purgeable(s: Session, now: Time) {
    s.terminatedAt.Some? || s.completedAt.Some? || now > s.expiresAt
  }

  lemma PurgeableIffInactive(s: Session, now: Time)
    ensures Purgeable(s, now) <==> Inactive(s, now).Some?
  {
  }

  /** BuildFinalFromPartials' check of one partial. */
  function PartialProblem(p: Session, hash: Hash, checksum: string, now: Time): Option<Error> {
    if !p.kind.Partial? then Some(NotPartial)
    else if p.completedAt.None? && p.offset != p.length then Some(Incomplete)
    else if Inactive(p, now).Some? then Inactive(p, now)
    else if p.hash != hash || p.checksum != checksum then Some(IdentityMismatch)
    else None
  }

  function TotalLength(partials: seq<Session>): int {
    if partials == [] then 0 else TotalLength(partials[..|partials| - 1]) + partials[|partials| - 1].length
  }

  function Ids(partials: seq<Session>): seq<Id> {
    seq(|partials|, i requires 0 <= i < |partials| => partials[i].id)
  }
}
