/** The steps of session operations. The database has one writer at a time, while readers see
    the last committed records; an append is a write transaction that checks its session,
    copies into its file, stamps the record and commits, and other operations' reads, clock
    readings and file operations come in between. */
module SessionSteps {
  import opened Base
  import opened Sessions

  /** An accepted chunk, with the offset its client sent. */
  datatype Chunk = Chunk(offset: int, data: Bytes)

  /** A BuildFinalFromPartials in flight: the records it was given and, for the specification,
      the contents copied so far. */
  datatype Build = Build(partials: seq<Session>, pieces: seq<Bytes>)

  /** An append in flight: when it found its session active, the offset its client sent, and
      the bytes it has copied. */
  datatype Writing = Writing(id: Id, began: Time, offset: int, copied: Bytes)

  /** The persistent store and the operations in flight: the append that holds the writer, the
      records a clean-up has read but not judged yet, the sessions it will delete, and so on.
      used, seen, accepted and torn record history: the ids given out, the records read so
      far, the chunks each session accepted, and the sessions into whose file a failed copy
      or commit left bytes. */
  datatype State = State(
    st: Store,
    now: Time,
    writer: Option<Writing>,
    scanning: map<Id, Session>,
    creating: map<Id, Session>,
    doomed: set<Path>,
    purging: set<Id>,
    building: map<Id, Build>,
    used: set<Id>,
    seen: set<Session>,
    accepted: map<Id, seq<Chunk>>,
    torn: set<Id>)

  /** CommitAppend and Refresh carry the clock reading that stamps the record, which may be
      older than the commit; BeginFinal the one its partials were checked at. FailAppend is a
      failed copy or commit. StopBuild is a copy that breaks after some bytes, or a refresh
      that fails; a Terminate of the final may or may not follow it. */
  datatype Action =
    | Tick(time: Time)
    | Look(id: Id)
    | BeginCreate(id: Id, hash: Hash, checksum: string, kind: Kind, length: int)
    | BeginFinal(id: Id, hash: Hash, checksum: string, partials: seq<Session>, checked: Time)
    | FinishCreate(id: Id)
    | AbandonCreate(id: Id)
    | BeginAppend(id: Id, offset: int)
    | CopyChunk(data: Bytes)
    | CommitAppend(stamp: Time)
    | FailAppend
    | Complete(id: Id)
    | Terminate(id: Id)
    | BeginScan
    | FinishScan
    | Purge(id: Id)
    | RemoveFile(path: Path, removed: bool)
    | CopyPartial(id: Id)
    | StopBuild(id: Id, written: nat)
    | Refresh(id: Id, stamp: Time)
    | Crash

  /** An append to the session is between its check and its commit. */
  predicate InFlight(s: State, id: Id) { s.writer.Some? && s.writer.value.id == id }

  /** The bytes an append in flight has put into the session's file. */
  function Uncommitted(writer: Option<Writing>, id: Id): Bytes {
    if writer.Some? && writer.value.id == id then writer.value.copied else []
  }

  ghost function DropRecords(s: State, ids: set<Id>): State
    requires ids <= s.st.db.Keys
  {
    s.(st := s.st.(db := s.st.db - ids), doomed := s.doomed + PathsOf(s.st.db, ids))
  }

  /** The temp file is created (empty) before the record is written. */
  ghost function Started(s: State, session: Session): State {
    s.(st := s.st.(files := s.st.files[session.tempPath := []]),
       creating := s.creating[session.id := session],
       used := s.used + {session.id},
       accepted := s.accepted[session.id := []])
  }

  /** Every partial has been copied. */
  ghost predicate BuildDone(s: State, id: Id) {
    id in s.building && id !in s.creating && |s.building[id].pieces| == |s.building[id].partials|
  }

  /** The file of the next partial can be copied into the final's. */
  ghost predicate CanCopy(s: State, id: Id) {
    && id in s.building && id !in s.creating && |s.building[id].pieces| < |s.building[id].partials|
    && Upload(id) in s.st.files
    && s.building[id].partials[|s.building[id].pieces|].tempPath in s.st.files
  }

  ghost function NextPiece(s: State, id: Id): Bytes
    requires CanCopy(s, id)
  {
    s.st.files[s.building[id].partials[|s.building[id].pieces|].tempPath]
  }

  ghost predicate Enabled(s: State, a: Action) {
    match a
    case Tick(time) => s.now <= time
    case Look(id) => id in s.st.db
    case BeginCreate(id, _, _, kind, _) => id !in s.used && !kind.Final?
    case BeginFinal(id, hash, checksum, partials, checked) =>
      id !in s.used && checked <= s.now
      && forall p :: p in partials ==> p in s.seen && PartialProblem(p, hash, checksum, checked).None?
    case FinishCreate(id) => id in s.creating && s.writer.None?
    case AbandonCreate(id) => id in s.creating
    case BeginAppend(id, offset) => s.writer.None? && AppendProblem(s.st, id, offset, s.now).None?
    case CopyChunk(_) => CanWrite(s)
    case CommitAppend(stamp) => CanWrite(s) && s.writer.value.began <= stamp <= s.now
    case FailAppend => CanWrite(s)
    case Complete(id) => id in s.st.db && s.writer.None?
    case Terminate(id) => id in s.st.db && s.writer.None?
    case BeginScan => true
    case FinishScan => true
    case Purge(id) => id in s.purging && s.writer.None?
    case RemoveFile(path, _) => path in s.doomed
    case CopyPartial(id) => CanCopy(s, id)
    case StopBuild(id, _) => id in s.building && id !in s.creating
    case Refresh(id, stamp) => CanRefresh(s, id, stamp)
    case Crash => true
  }

  ghost predicate CanWrite(s: State) {
    s.writer.Some? && s.writer.value.id in s.st.db && s.st.db[s.writer.value.id].tempPath in s.st.files
  }

  /** The final can be given its offset, with a clock reading no older than the last one. */
  ghost predicate CanRefresh(s: State, id: Id, stamp: Time) {
    && BuildDone(s, id) && s.writer.None? && stamp <= s.now
    && (id in s.st.db ==> s.st.db[id].updatedAt <= stamp)
  }

  ghost function FinalStarted(s: State, id: Id, hash: Hash, checksum: string, partials: seq<Session>,
                              expiration: Time): State {
    Started(s, NewSession(id, hash, checksum, Final, TotalLength(partials), Ids(partials), s.now, expiration))
    .(building := s.building[id := Build(partials, [])])
  }

  ghost function Created(s: State, id: Id): State
    requires id in s.creating
  {
    s.(st := s.st.(db := s.st.db[id := s.creating[id]]), creating := s.creating - {id})
  }

  /** The record could not be written: the file is removed. */
  ghost function CreateAbandoned(s: State, id: Id): State {
    s.(st := s.st.(files := s.st.files - {Upload(id)}), creating := s.creating - {id}, building := s.building - {id})
  }

  ghost function ChunkCopied(s: State, data: Bytes): State
    requires CanWrite(s)
  {
    var w := s.writer.value;
    var path := s.st.db[w.id].tempPath;
    s.(st := s.st.(files := s.st.files[path := s.st.files[path] + data]),
       writer := Some(w.(copied := w.copied + data)))
  }

  ghost function AppendCommitted(s: State, stamp: Time, expiration: Time): State
    requires CanWrite(s)
  {
    var w := s.writer.value;
    var r := s.st.db[w.id];
    s.(st := s.st.(db := s.st.db[w.id := r.(offset := r.offset + |w.copied|, updatedAt := stamp,
                                            expiresAt := stamp + expiration)]),
       writer := None,
       accepted := s.accepted[w.id := (if w.id in s.accepted then s.accepted[w.id] else [])
                                      + [Chunk(w.offset, w.copied)]])
  }

  ghost function AppendFailed(s: State): State {
    s.(writer := None,
       torn := if s.writer.Some? && s.writer.value.copied != [] then s.torn + {s.writer.value.id} else s.torn)
  }

  ghost function ScanFinished(s: State): State {
    s.(scanning := map[], purging := s.purging + set i | i in s.scanning && Purgeable(s.scanning[i], s.now))
  }

  ghost function FileRemoved(s: State, path: Path, removed: bool): State {
    s.(st := if removed then s.st.(files := s.st.files - {path}) else s.st, doomed := s.doomed - {path})
  }

  ghost function PartialCopied(s: State, id: Id): State
    requires CanCopy(s, id)
  {
    var b, piece := s.building[id], NextPiece(s, id);
    s.(st := s.st.(files := s.st.files[Upload(id) := s.st.files[Upload(id)] + piece]),
       building := s.building[id := b.(pieces := b.pieces + [piece])])
  }

  ghost function Closed(s: State, id: Id): State { s.(building := s.building - {id}) }

  ghost function Lengthened(s: State, id: Id, extra: Bytes): State
    requires Upload(id) in s.st.files
  {
    s.(st := s.st.(files := s.st.files[Upload(id) := s.st.files[Upload(id)] + extra]))
  }

  ghost function BuildStopped(s: State, id: Id, written: nat): State
    requires id in s.building
  {
    if CanCopy(s, id) then
      var piece := NextPiece(s, id);
      Lengthened(Closed(s, id), id, if written <= |piece| then piece[..written] else piece)
    else Closed(s, id)
  }

  /** refreshOffset: it sets Offset and a new expiry without asking whether the session is
      still active. */
  ghost function Refreshed(s: State, id: Id, stamp: Time, expiration: Time): State
    requires id in s.building
  {
    if id !in s.st.db then Closed(s, id)
    else FinalSet(Closed(s, id), id, TotalLength(s.building[id].partials), stamp, stamp + expiration)
  }

  ghost function FinalSet(s: State, id: Id, offset: int, updatedAt: Time, expiresAt: Time): State
    requires id in s.st.db
  {
    s.(st := s.st.(db := s.st.db[id := s.st.db[id].(offset := offset, updatedAt := updatedAt, expiresAt := expiresAt)]))
  }

  ghost function Crashed(s: State): State {
    AppendFailed(s).(scanning := map[], creating := map[], doomed := {}, purging := {}, building := map[])
  }

  ghost function Do(s: State, a: Action, expiration: Time): State
    requires Enabled(s, a)
  {
    match a
    case Tick(time) => s.(now := time)
    case Look(id) => s.(seen := s.seen + {s.st.db[id]})
    case BeginCreate(id, hash, checksum, kind, length) =>
      Started(s, NewSession(id, hash, checksum, kind, length, [], s.now, expiration))
    case BeginFinal(id, hash, checksum, partials, _) => FinalStarted(s, id, hash, checksum, partials, expiration)
    case FinishCreate(id) => Created(s, id)
    case AbandonCreate(id) => CreateAbandoned(s, id)
    case BeginAppend(id, offset) => s.(writer := Some(Writing(id, s.now, offset, [])))
    case CopyChunk(data) => ChunkCopied(s, data)
    case CommitAppend(stamp) => AppendCommitted(s, stamp, expiration)
    case FailAppend => AppendFailed(s)
    case Complete(id) => DropRecords(s, CompletionTargets(s.st.db, id))
    case Terminate(id) => DropRecords(s, {id})
    case BeginScan => s.(scanning := s.st.db)
    case FinishScan => ScanFinished(s)
    case Purge(id) => if id in s.st.db then DropRecords(s, {id}) else s
    case RemoveFile(path, removed) => FileRemoved(s, path, removed)
    case CopyPartial(id) => PartialCopied(s, id)
    case StopBuild(id, written) => BuildStopped(s, id, written)
    case Refresh(id, stamp) => Refreshed(s, id, stamp, expiration)
    case Crash => Crashed(s)
  }

  // ----- an append whose steps follow one another

  /** Begin, copy and commit, or fail, are together the transaction of Append: it is refused
      exactly when it cannot begin, and what a commit or a failure leaves is what the
      transaction does. */
  lemma AppendStepsAreTx(s: State, id: Id, offset: int, chunk: Bytes, later: Time, outcome: Outcome, expiration: Time)
    requires s.writer.None? && s.now <= later
    ensures AppendProblem(s.st, id, offset, s.now).Some? <==> !Enabled(s, BeginAppend(id, offset))
    ensures AppendProblem(s.st, id, offset, s.now).Some? ==>
              AppendTx(s.st, id, offset, chunk, s.now, later, expiration, outcome)
              == (s.st, Err(AppendProblem(s.st, id, offset, s.now).value))
    ensures Enabled(s, BeginAppend(id, offset)) ==>
              var begun := Do(s, BeginAppend(id, offset), expiration);
              var copied := Do(begun, CopyChunk(Written(chunk, outcome)), expiration);
              var last := Do(copied, Tick(later), expiration);
              var tx := AppendTx(s.st, id, offset, chunk, s.now, later, expiration, outcome);
              if outcome.Copied?
              then Enabled(last, CommitAppend(later)) && Do(last, CommitAppend(later), expiration).st == tx.0
                 && tx.1.Ok?
              else Enabled(last, FailAppend) && Do(last, FailAppend, expiration).st == tx.0 && tx.1.Err?
  {
    if AppendProblem(s.st, id, offset, s.now).None? { assert [] + Written(chunk, outcome) == Written(chunk, outcome); }
  }
}
