/** The durable write and read protocol of internal/httpapi (storage.go, handler.go and
    payload_pull.go), one step per store call, over any number of interleaved requests. */
module Durable {
  import opened Base
  import Ranges

  type ETag = nat
  type Rid = nat

  /** What the protocol does not compute itself: the CRC32C and the object store's ETag as
      functions of the bytes, the hashes whose object was stored before CRC checksums
      existed, and the payloads that occur in the initial stores or are pushed in the run. */
  datatype Env = Env(crc: Bytes -> Checksum, etag: Bytes -> Option<ETag>, legacy: iset<Hash>, payloads: iset<Bytes>)

  function HexValue(c: char): nat {
    if '0' <= c <= '9' then c as int - '0' as int
    else if 'a' <= c <= 'f' then c as int - 'a' as int + 10
    else if 'A' <= c <= 'F' then c as int - 'A' as int + 10
    else 0
  }

  /** The index of the lock a push takes: the first two hex digits of the hash. */
  function Shard(h: Hash): nat {
    if |h| < 2 then 0 else 16 * HexValue(h[0]) + HexValue(h[1])
  }

  predicate LowerHex(c: char) { '0' <= c <= '9' || 'a' <= c <= 'f' }

  /** There are 256 locks, and two hashes in lower case share one exactly when they begin with
      the same two digits. */
  lemma ShardIff(a: Hash, b: Hash)
    requires |a| >= 2 && |b| >= 2 && LowerHex(a[0]) && LowerHex(a[1]) && LowerHex(b[0]) && LowerHex(b[1])
    ensures Shard(a) < 256
    ensures Shard(a) == Shard(b) <==> a[0] == b[0] && a[1] == b[1]
  {
  }

  // ----- the stores

  /** The checksum metadata of a stored object: a legacy digest only, or a CRC. */
  datatype Form = Legacy | Checked(crc: Checksum)

  datatype Object = Object(form: Form, size: nat, data: Bytes)

  /** objectstore.Info */
  datatype Remote = Remote(hash: Hash, form: Form, size: nat, etag: Option<ETag>)

  /** metadata.Payload; an absent checksum is the empty string of the source */
  datatype Record = Record(hash: Hash, etag: Option<ETag>, checksum: Option<Checksum>, size: nat, cached: bool)

  /** blobstore.Info of a staged payload; the bytes are kept for the specification */
  datatype Info = Info(checksum: Checksum, size: nat, etag: Option<ETag>, created: bool, payload: Bytes)

  datatype Stores = Stores(
    objects: map<Hash, Object>,
    meta: map<Hash, Record>,
    disk: map<Hash, Bytes>,
    mem: map<Hash, Bytes>,
    locks: map<nat, Rid>)

  ghost function RemoteOf(env: Env, h: Hash, o: Object): Remote {
    Remote(h, o.form, o.size, env.etag(o.data))
  }

  function FormChecksum(form: Form): Option<Checksum> {
    match form
    case Legacy => None
    case Checked(crc) => Some(crc)
  }

  function OrElse<T>(a: Option<T>, b: Option<T>): Option<T> {
    if a.Some? then a else b
  }

  ghost function WithObject(st: Stores, h: Hash, crc: Checksum, size: nat, data: Bytes): Stores {
    st.(objects := st.objects[h := Object(Checked(crc), size, data)])
  }

  ghost function WithRecord(st: Stores, rec: Record): Stores {
    st.(meta := st.meta[rec.hash := rec])
  }

  ghost predicate SubMap(small: map<Hash, Bytes>, big: map<Hash, Bytes>) {
    forall h :: h in small ==> h in big && small[h] == big[h]
  }

  /** validateRemotePayload returns nil */
  predicate Validates(rec: Record, remote: Remote) {
    && remote.hash == rec.hash
    && FormChecksum(remote.form) == rec.checksum
    && remote.size == rec.size
    && (rec.etag.Some? ==> remote.etag == rec.etag)
  }

  // ----- requests

  /** Who called payloadRecord. */
  datatype Caller =
    | ForExists
    | ForOpen(header: Option<string>)
    | ForDiskOrRemote(header: Option<string>)
    | ForRange(text: string)

  /** Who called reconcileLegacyObject. */
  datatype After =
    | AfterPush(payload: Bytes, etag: Option<ETag>)
    | AfterExisting(rec: Record, remote: Remote, caller: Caller)
    | AfterNew(remote: Remote, caller: Caller)

  // The program counter of a request, by the piece of code it is in, with its live variables;
  // the store call named by the constructor comes next.

  /** putPayloadDurably */
  datatype PushPc =
    | PushStage(payload: Bytes, checksum: Checksum)
    | PushLock(payload: Bytes)
    | PushHead(payload: Bytes)
    | PushPut(payload: Bytes)
    | PushPublish(payload: Bytes, created: bool, etag: Option<ETag>)
    | PushUnlock(result: Option<Info>)

  /** commitPayloadMetadata */
  datatype CommitPc =
    | CommitExists(info: Info)
    | CommitGet(info: Info, cached: bool)
    | CommitPut(info: Info, rec: Record)

  /** reconcileLegacyObject */
  datatype ReconcilePc =
    | ReconcileOpen(expected: Option<Checksum>, after: After)
    | ReconcileReopen(sum: Checksum, size: nat, after: After)
    | ReconcilePut(sum: Checksum, size: nat, data: Bytes, after: After)

  /** payloadRecord */
  datatype RecordPc =
    | RecordGet(caller: Caller)
    | RecordHead(rec: Record, caller: Caller)
    | RecordPut(rec: Record, caller: Caller)
    | RecordHeadMissing(caller: Caller)

  /** openRemoteRange */
  datatype RangePc =
    | RangeStat(text: string)
    | RangeHead(rec: Record, range: Ranges.ByteRange, text: string)
    | RangeGet(rec: Record, remote: Remote, range: Ranges.ByteRange, text: string)
    | RangeETag(rec: Record, body: Bytes, text: string, data: Bytes)

  /** openDiskOrRemote */
  datatype OpenPc =
    | OpenStat(rec: Record, header: Option<string>)
    | OpenDisk(header: Option<string>)
    | OpenHead(rec: Record, header: Option<string>)
    | OpenETag(rec: Record, remote: Remote, header: Option<string>)
    | OpenRemote(remote: Remote, header: Option<string>)

  /** getPullPayload, the older GET route and markCached */
  datatype PullPc =
    | LegacyRouteGet
    | LegacyRouteMem
    | PullMem(header: Option<string>)
    | CacheAdd(body: Bytes, header: Option<string>, data: Bytes)
    | MarkGet(body: Bytes, header: Option<string>, data: Bytes)
    | MarkPut(rec: Record, body: Bytes, header: Option<string>, data: Bytes)

  datatype Pc =
    | Pushing(push: PushPc)
    | Committing(commit: CommitPc)
    | Reconciling(reconcile: ReconcilePc)
    | Recording(record: RecordPc)
    | Stating(known: Record)
    | Ranging(range: RangePc)
    | Opening(opener: OpenPc)
    | Pulling(pull: PullPc)
    | PushDone(info: Info)
    | ExistsDone(found: bool, size: nat)
    | PullDone(body: Bytes, header: Option<string>, data: Bytes)
    | Failed

  predicate Terminal(pc: Pc) { pc.PushDone? || pc.PullDone? || pc.ExistsDone? || pc.Failed? }

  /** The request is between Lock and Unlock of its hash's shard. */
  predicate Holds(pc: Pc) {
    match pc
    case Pushing(p) => !p.PushStage? && !p.PushLock?
    case Reconciling(p) => p.after.AfterPush?
    case _ => false
  }

  /** An error return; the deferred Unlock runs when the lock is held. */
  function Abort(pc: Pc): Pc { if Holds(pc) then Pushing(PushUnlock(None)) else Failed }

  /** The requests a client can make: push, pull (with an optional Range), the older GET
      route, and one hash of an existence check. */
  ghost predicate Initial(env: Env, pc: Pc) {
    match pc
    case Pushing(p) => p.PushStage? && p.payload in env.payloads
    case Pulling(p) => p.PullMem? || p.LegacyRouteGet?
    case Recording(p) => p.RecordGet? && p.caller.ForExists?
    case _ => false
  }

  /** The range part of a reply, cut from data that the opener said has this size. */
  function Reply(header: Option<string>, size: nat, data: Bytes): Option<Bytes> {
    match header
    case None => Some(data)
    case Some(text) =>
      match Ranges.ParseSingleRangeHeader(text, size)
      case Err(_) => None
      case Ok(r) => if 0 <= r.start <= r.end + 1 <= |data| then Some(Ranges.Cut(data, r)) else None
  }

  function Serve(header: Option<string>, size: nat, data: Bytes): Pc {
    match Reply(header, size, data)
    case None => Failed
    case Some(body) => Pulling(CacheAdd(body, header, data))
  }

  /** payloadRecord returns rec to its caller. */
  function Resume(caller: Caller, rec: Record): Pc {
    match caller
    case ForExists => Stating(rec)
    case ForOpen(header) => Recording(RecordGet(ForDiskOrRemote(header)))
    case ForDiskOrRemote(header) => Opening(OpenStat(rec, header))
    case ForRange(text) =>
      match Ranges.ParseSingleRangeHeader(text, rec.size)
      case Err(_) => Failed
      case Ok(r) => Ranging(RangeHead(rec, r, text))
  }

  /** reconcileLegacyObject returns (sum, etag) to its caller. */
  function Reconciled(after: After, sum: Checksum, etag: Option<ETag>): Pc {
    match after
    case AfterPush(payload, headETag) => Pushing(PushPublish(payload, false, OrElse(etag, headETag)))
    case AfterExisting(rec, remote, caller) =>
      Recording(RecordPut(rec.(checksum := Some(sum), etag := OrElse(OrElse(etag, rec.etag), remote.etag)), caller))
    case AfterNew(remote, caller) =>
      Recording(RecordPut(Record(remote.hash, OrElse(etag, remote.etag), Some(sum), remote.size, false), caller))
  }

  // ----- steps of one request: its next store call and where it goes from there

  ghost predicate PushStep(env: Env, r: Rid, h: Hash, st: Stores, p: PushPc, st': Stores, pc': Pc) {
    match p
    case PushStage(payload, checksum) =>
      st' == st && pc' == if env.crc(payload) == checksum then Pushing(PushLock(payload)) else Failed
    case PushLock(payload) =>
      Shard(h) !in st.locks && st' == st.(locks := st.locks[Shard(h) := r]) && pc' == Pushing(PushHead(payload))
    case PushHead(payload) =>
      && st' == st
      && pc' == if h !in st.objects then Pushing(PushPut(payload))
                else
                  var remote := RemoteOf(env, h, st.objects[h]);
                  if remote.form.Legacy? then
                    Reconciling(ReconcileOpen(Some(env.crc(payload)), AfterPush(payload, remote.etag)))
                  else if remote.form.crc != env.crc(payload) || remote.size != |payload| then
                    Pushing(PushUnlock(None))
                  else Pushing(PushPublish(payload, false, remote.etag))
    case PushPut(payload) =>
      && st' == WithObject(st, h, env.crc(payload), |payload|, payload)
      && (pc' == Pushing(PushPublish(payload, true, env.etag(payload))) || pc' == Pushing(PushUnlock(None)))
    case PushPublish(payload, created, etag) =>
      && (st' == st || (h !in st.disk && SubMap(st'.disk, st.disk[h := payload]) && st' == st.(disk := st'.disk)))
      && pc' == Pushing(PushUnlock(Some(Info(env.crc(payload), |payload|, etag, created, payload))))
    case PushUnlock(result) =>
      && st' == st.(locks := st.locks - {Shard(h)})
      && pc' == if result.Some? then Committing(CommitExists(result.value)) else Failed
  }

  ghost predicate CommitStep(h: Hash, st: Stores, p: CommitPc, st': Stores, pc': Pc) {
    match p
    case CommitExists(info) =>
      st' == st && pc' == Committing(CommitGet(info, h in st.disk))
    case CommitGet(info, cached) =>
      && st' == st
      && pc' == if h !in st.meta then
                  Committing(CommitPut(info, Record(h, info.etag, Some(info.checksum), info.size, cached)))
                else
                  var rec := st.meta[h];
                  if rec.checksum.Some? && (rec.checksum.value != info.checksum || rec.size != info.size) then Failed
                  else Committing(CommitPut(info, rec.(checksum := Some(info.checksum), size := info.size,
                                            etag := OrElse(info.etag, rec.etag), cached := cached)))
    case CommitPut(info, rec) =>
      st' == WithRecord(st, rec) && (pc' == PushDone(info) || pc' == Failed)
  }

  ghost predicate ReconcileStep(env: Env, h: Hash, st: Stores, p: ReconcilePc, st': Stores, pc': Pc) {
    match p
    case ReconcileOpen(expected, after) =>
      && st' == st
      && h in st.objects
      && var o := st.objects[h];
         pc' == if |o.data| != o.size then Abort(Reconciling(p))
                else if expected.Some? && env.crc(o.data) != expected.value then Abort(Reconciling(p))
                else Reconciling(ReconcileReopen(env.crc(o.data), |o.data|, after))
    case ReconcileReopen(sum, size, after) =>
      st' == st && h in st.objects && pc' == Reconciling(ReconcilePut(sum, size, st.objects[h].data, after))
    case ReconcilePut(sum, size, data, after) =>
      && st' == WithObject(st, h, sum, size, data)
      && (pc' == Reconciled(after, sum, env.etag(data)) || pc' == Abort(Reconciling(p)))
  }

  ghost predicate RecordStep(env: Env, h: Hash, st: Stores, p: RecordPc, st': Stores, pc': Pc) {
    match p
    case RecordGet(caller) =>
      && st' == st
      && pc' == if h !in st.meta then Recording(RecordHeadMissing(caller))
                else if st.meta[h].checksum.None? then Recording(RecordHead(st.meta[h], caller))
                else Resume(caller, st.meta[h])
    case RecordHead(rec, caller) =>
      && st' == st
      && h in st.objects
      && var remote := RemoteOf(env, h, st.objects[h]);
         pc' == (match remote.form
                 case Checked(crc) =>
                   Recording(RecordPut(rec.(checksum := Some(crc), etag := OrElse(rec.etag, remote.etag)), caller))
                 case Legacy => Reconciling(ReconcileOpen(None, AfterExisting(rec, remote, caller))))
    case RecordPut(rec, caller) =>
      st' == WithRecord(st, rec) && (pc' == Resume(caller, rec) || pc' == Failed)
    case RecordHeadMissing(caller) =>
      && st' == st
      && pc' == if h !in st.objects then (if caller.ForExists? then ExistsDone(false, 0) else Failed)
                else
                  var remote := RemoteOf(env, h, st.objects[h]);
                  (match remote.form
                   case Checked(crc) =>
                     Recording(RecordPut(Record(h, remote.etag, Some(crc), remote.size, false), caller))
                   case Legacy => Reconciling(ReconcileOpen(None, AfterNew(remote, caller))))
  }

  ghost predicate ExistsStep(h: Hash, st: Stores, rec: Record, st': Stores, pc': Pc) {
    && st' == st
    && pc' == if h !in st.disk then ExistsDone(true, rec.size)
              else if |st.disk[h]| != rec.size then Failed
              else ExistsDone(true, |st.disk[h]|)
  }

  ghost predicate RangeStep(env: Env, h: Hash, st: Stores, p: RangePc, st': Stores, pc': Pc) {
    match p
    case RangeStat(text) =>
      st' == st && pc' == Recording(RecordGet(if h in st.disk then ForOpen(Some(text)) else ForRange(text)))
    case RangeHead(rec, range, text) =>
      && st' == st
      && h in st.objects
      && var remote := RemoteOf(env, h, st.objects[h]);
         pc' == if range.start < 0 || range.end < range.start || range.end >= remote.size then Failed
                else Ranging(RangeGet(rec, remote, range, text))
    case RangeGet(rec, remote, range, text) =>
      && st' == st
      && h in st.objects
      && var data := st.objects[h].data;
         pc' == if !(0 <= range.start <= range.end + 1 <= |data|) || !Validates(rec, remote) then Failed
                else if rec.etag.None? && remote.etag.Some? then
                  Ranging(RangeETag(rec.(etag := remote.etag), Ranges.Cut(data, range), text, data))
                else PullDone(Ranges.Cut(data, range), Some(text), data)
    case RangeETag(rec, body, text, data) =>
      st' == WithRecord(st, rec) && (pc' == PullDone(body, Some(text), data) || pc' == Failed)
  }

  ghost predicate OpenStep(env: Env, h: Hash, st: Stores, p: OpenPc, st': Stores, pc': Pc) {
    match p
    case OpenStat(rec, header) =>
      && st' == st
      && pc' == if h !in st.disk then Opening(OpenHead(rec, header))
                else if |st.disk[h]| != rec.size then Failed
                else Opening(OpenDisk(header))
    case OpenDisk(header) =>
      st' == st && pc' == if h in st.disk then Serve(header, |st.disk[h]|, st.disk[h]) else Failed
    case OpenHead(rec, header) =>
      && st' == st
      && h in st.objects
      && var remote := RemoteOf(env, h, st.objects[h]);
         pc' == if !Validates(rec, remote) then Failed
                else if rec.etag.None? && remote.etag.Some? then
                  Opening(OpenETag(rec.(etag := remote.etag), remote, header))
                else Opening(OpenRemote(remote, header))
    case OpenETag(rec, remote, header) =>
      st' == WithRecord(st, rec) && (pc' == Opening(OpenRemote(remote, header)) || pc' == Failed)
    case OpenRemote(remote, header) =>
      && st' == st
      && h in st.objects
      && pc' == if env.etag(st.objects[h].data) != remote.etag then Failed
                else Serve(header, remote.size, st.objects[h].data)
  }

  ghost predicate PullStep(h: Hash, st: Stores, p: PullPc, st': Stores, pc': Pc) {
    match p
    case LegacyRouteGet =>
      st' == st && pc' == if h in st.meta then Pulling(LegacyRouteMem) else Failed
    case LegacyRouteMem =>
      && st' == st
      && pc' == if h in st.mem then PullDone(st.mem[h], None, st.mem[h])
                else Recording(RecordGet(ForDiskOrRemote(None)))
    case PullMem(header) =>
      && st' == st
      && pc' == if h in st.mem then
                  (match Reply(header, |st.mem[h]|, st.mem[h])
                   case None => Failed
                   case Some(body) => PullDone(body, header, st.mem[h]))
                else
                  (match header
                   case None => Recording(RecordGet(ForOpen(None)))
                   case Some(text) => Ranging(RangeStat(text)))
    case CacheAdd(body, header, data) =>
      || (st' == st && pc' == PullDone(body, header, data))
      || (SubMap(st'.mem, st.mem[h := data]) && st' == st.(mem := st'.mem)
          && pc' == Pulling(MarkGet(body, header, data)))
    case MarkGet(body, header, data) =>
      && st' == st
      && pc' == if h in st.meta then Pulling(MarkPut(st.meta[h].(cached := true), body, header, data))
                else PullDone(body, header, data)
    case MarkPut(rec, body, header, data) =>
      (st' == st || st' == WithRecord(st, rec)) && pc' == PullDone(body, header, data)
  }

  /** The next store call answers, with or without an error. */
  ghost predicate Proceeds(env: Env, r: Rid, h: Hash, st: Stores, pc: Pc, st': Stores, pc': Pc) {
    match pc
    case Pushing(p) => PushStep(env, r, h, st, p, st', pc')
    case Committing(p) => CommitStep(h, st, p, st', pc')
    case Reconciling(p) => ReconcileStep(env, h, st, p, st', pc')
    case Recording(p) => RecordStep(env, h, st, p, st', pc')
    case Stating(rec) => ExistsStep(h, st, rec, st', pc')
    case Ranging(p) => RangeStep(env, h, st, p, st', pc')
    case Opening(p) => OpenStep(env, h, st, p, st', pc')
    case Pulling(p) => PullStep(h, st, p, st', pc')
    case _ => false
  }

  /** The next call fails without effect; taking and releasing a lock cannot fail. */
  ghost predicate CallFails(st: Stores, pc: Pc, st': Stores, pc': Pc) {
    && !Terminal(pc)
    && !(pc.Pushing? && (pc.push.PushLock? || pc.push.PushUnlock?))
    && st' == st && pc' == Abort(pc)
  }

  /** One step of request r for hash h. */
  ghost predicate Act(env: Env, r: Rid, h: Hash, st: Stores, pc: Pc, st': Stores, pc': Pc) {
    CallFails(st, pc, st', pc') || Proceeds(env, r, h, st, pc, st', pc')
  }

  // ----- the whole system

  datatype Proc = Proc(hash: Hash, pc: Pc)

  /** Finished requests stay in procs with their result. */
  datatype System = System(st: Stores, procs: map<Rid, Proc>)

  ghost predicate Spawn(env: Env, s: System, s': System, r: Rid, p: Proc) {
    r !in s.procs && Initial(env, p.pc) && s' == s.(procs := s.procs[r := p])
  }

  ghost predicate Move(env: Env, s: System, s': System, r: Rid, pc': Pc) {
    && r in s.procs
    && Act(env, r, s.procs[r].hash, s.st, s.procs[r].pc, s'.st, pc')
    && s'.procs == s.procs[r := s.procs[r].(pc := pc')]
  }

  /** The process dies and restarts: the object store, the metadata and the disk cache stay. */
  ghost predicate Crash(s: System, s': System) {
    && s'.st == s.st.(mem := map[], locks := map[])
    && s'.procs == map r | r in s.procs ::
                     if Terminal(s.procs[r].pc) then s.procs[r] else s.procs[r].(pc := Failed)
  }

  ghost predicate Next(env: Env, s: System, s': System) {
    || (exists r, p :: Spawn(env, s, s', r, p))
    || (exists r, pc' :: Move(env, s, s', r, pc'))
    || Crash(s, s')
  }
}
