/** What every step of the durable protocol keeps, by rely-guarantee: each request keeps the
    stores and its own knowledge correct and promises the others never to disturb theirs. */
module DurableInvariant {
  import opened Base
  import opened Durable
  import Ranges

  // ----- what every step keeps

  ghost predicate ObjectOk(env: Env, h: Hash, o: Object) {
    && o.size == |o.data|
    && o.data in env.payloads
    && match o.form
       case Legacy => h in env.legacy
       case Checked(crc) => crc == env.crc(o.data)
  }

  /** b may be served for h: it has the CRC of h's object, and the object's size unless the
      object was stored before CRC checksums existed. */
  ghost predicate BytesOk(env: Env, objects: map<Hash, Object>, h: Hash, b: Bytes) {
    && h in objects
    && b in env.payloads
    && env.crc(b) == env.crc(objects[h].data)
    && (h !in env.legacy ==> |b| == |objects[h].data|)
  }

  ghost predicate ETagOk(env: Env, objects: map<Hash, Object>, h: Hash, etag: Option<ETag>) {
    h in objects && (etag.Some? ==> etag == env.etag(objects[h].data))
  }

  ghost predicate RecordOk(env: Env, objects: map<Hash, Object>, h: Hash, rec: Record) {
    && rec.hash == h
    && ETagOk(env, objects, h, rec.etag)
    && (rec.checksum.Some? ==> objects[h].form == Checked(rec.checksum.value))
    && (h !in env.legacy ==> rec.size == objects[h].size)
  }

  ghost predicate RemoteOk(env: Env, objects: map<Hash, Object>, h: Hash, remote: Remote) {
    && remote.hash == h
    && h in objects
    && remote.size == objects[h].size
    && remote.etag == env.etag(objects[h].data)
    && match remote.form
       case Legacy => h in env.legacy
       case Checked(_) => remote.form == objects[h].form
  }

  ghost predicate InfoOk(env: Env, objects: map<Hash, Object>, h: Hash, info: Info) {
    && BytesOk(env, objects, h, info.payload)
    && info.checksum == env.crc(info.payload)
    && info.size == |info.payload|
    && objects[h].form == Checked(info.checksum)
    && ETagOk(env, objects, h, info.etag)
  }

  ghost predicate StoresOk(env: Env, st: Stores) {
    && (forall h :: h in st.objects ==> ObjectOk(env, h, st.objects[h]))
    && (forall h :: h in st.meta ==> RecordOk(env, st.objects, h, st.meta[h]))
    && (forall h :: h in st.disk ==> BytesOk(env, st.objects, h, st.disk[h]))
    && (forall h :: h in st.mem ==> BytesOk(env, st.objects, h, st.mem[h]))
  }

  /** A record whose checksum is known, as payloadRecord returns it. */
  ghost predicate KnownRecord(env: Env, objects: map<Hash, Object>, h: Hash, rec: Record) {
    RecordOk(env, objects, h, rec) && rec.checksum.Some?
  }

  ghost predicate AfterOk(env: Env, objects: map<Hash, Object>, h: Hash, sum: Option<Checksum>, after: After) {
    match after
    case AfterPush(payload, etag) =>
      && h in env.legacy && payload in env.payloads
      && ETagOk(env, objects, h, etag)
      && sum == Some(env.crc(payload))
    case AfterExisting(rec, remote, _) =>
      RecordOk(env, objects, h, rec) && RemoteOk(env, objects, h, remote)
    case AfterNew(remote, _) => RemoteOk(env, objects, h, remote)
  }

  ghost predicate ServedOk(env: Env, objects: map<Hash, Object>, h: Hash, body: Bytes, header: Option<string>,
                           data: Bytes) {
    BytesOk(env, objects, h, data) && Ranges.Body(header, data) == Some(body)
  }

  // What a request at pc knows, whatever the other requests do.

  ghost predicate PushKnows(env: Env, objects: map<Hash, Object>, h: Hash, p: PushPc) {
    match p
    case PushStage(payload, _) => payload in env.payloads
    case PushLock(payload) => payload in env.payloads
    case PushHead(payload) => payload in env.payloads
    case PushPut(payload) => payload in env.payloads && h !in objects
    case PushPublish(payload, created, etag) =>
      InfoOk(env, objects, h, Info(env.crc(payload), |payload|, etag, created, payload))
    case PushUnlock(result) => result.Some? ==> InfoOk(env, objects, h, result.value)
  }

  ghost predicate CommitKnows(env: Env, objects: map<Hash, Object>, h: Hash, p: CommitPc) {
    && InfoOk(env, objects, h, p.info)
    && (p.CommitPut? ==>
          && RecordOk(env, objects, h, p.rec)
          && p.rec.checksum == Some(p.info.checksum) && p.rec.size == p.info.size)
  }

  ghost predicate ReconcileKnows(env: Env, objects: map<Hash, Object>, h: Hash, p: ReconcilePc) {
    && h in objects
    && match p
       case ReconcileOpen(expected, after) => AfterOk(env, objects, h, expected, after)
       case ReconcileReopen(sum, size, after) =>
         && sum == env.crc(objects[h].data) && size == |objects[h].data|
         && AfterOk(env, objects, h, Some(sum), after)
       case ReconcilePut(sum, size, data, after) =>
         && data == objects[h].data && sum == env.crc(data) && size == |data|
         && AfterOk(env, objects, h, Some(sum), after)
  }

  ghost predicate RecordKnows(env: Env, objects: map<Hash, Object>, h: Hash, p: RecordPc) {
    match p
    case RecordGet(_) => true
    case RecordHead(rec, _) => RecordOk(env, objects, h, rec)
    case RecordPut(rec, _) => KnownRecord(env, objects, h, rec)
    case RecordHeadMissing(_) => true
  }

  ghost predicate RangeKnows(env: Env, objects: map<Hash, Object>, h: Hash, p: RangePc) {
    match p
    case RangeStat(_) => true
    case RangeHead(rec, range, text) =>
      KnownRecord(env, objects, h, rec) && Ranges.ParseSingleRangeHeader(text, rec.size) == Ok(range)
    case RangeGet(rec, remote, range, text) =>
      && KnownRecord(env, objects, h, rec) && RemoteOk(env, objects, h, remote) && remote.form.Checked?
      && Ranges.ParseSingleRangeHeader(text, rec.size) == Ok(range)
    case RangeETag(rec, body, text, data) =>
      RecordOk(env, objects, h, rec) && ServedOk(env, objects, h, body, Some(text), data)
  }

  ghost predicate OpenKnows(env: Env, objects: map<Hash, Object>, h: Hash, p: OpenPc) {
    match p
    case OpenStat(rec, _) => KnownRecord(env, objects, h, rec)
    case OpenDisk(_) => true
    case OpenHead(rec, _) => KnownRecord(env, objects, h, rec)
    case OpenETag(rec, remote, _) => RecordOk(env, objects, h, rec) && RemoteOk(env, objects, h, remote)
    case OpenRemote(remote, _) => RemoteOk(env, objects, h, remote)
  }

  ghost predicate PullKnows(env: Env, objects: map<Hash, Object>, h: Hash, p: PullPc) {
    match p
    case CacheAdd(body, header, data) => ServedOk(env, objects, h, body, header, data)
    case MarkGet(body, header, data) => ServedOk(env, objects, h, body, header, data)
    case MarkPut(rec, body, header, data) =>
      RecordOk(env, objects, h, rec) && ServedOk(env, objects, h, body, header, data)
    case _ => true
  }

  ghost predicate Local(env: Env, objects: map<Hash, Object>, h: Hash, pc: Pc) {
    match pc
    case Pushing(p) => PushKnows(env, objects, h, p)
    case Committing(p) => CommitKnows(env, objects, h, p)
    case Reconciling(p) => ReconcileKnows(env, objects, h, p)
    case Recording(p) => RecordKnows(env, objects, h, p)
    case Stating(rec) => KnownRecord(env, objects, h, rec)
    case Ranging(p) => RangeKnows(env, objects, h, p)
    case Opening(p) => OpenKnows(env, objects, h, p)
    case Pulling(p) => PullKnows(env, objects, h, p)
    case PushDone(info) => InfoOk(env, objects, h, info)
    case ExistsDone(found, size) =>
      found ==> h in objects && (h !in env.legacy ==> size == |objects[h].data|)
    case PullDone(body, header, data) => ServedOk(env, objects, h, body, header, data)
    case Failed => true
  }

  ghost predicate Held(locks: map<nat, Rid>, h: Hash, r: Rid) {
    Shard(h) in locks && locks[Shard(h)] == r
  }

  ghost predicate Created(pc: Pc) {
    match pc
    case Pushing(PushPublish(_, created, _)) => created
    case Pushing(PushUnlock(result)) => result.Some? && result.value.created
    case Committing(p) => p.info.created
    case PushDone(info) => info.created
    case _ => false
  }

  /** Objects are only added, never change their bytes, and go from legacy to CRC form. */
  ghost predicate Evolves(env: Env, objects: map<Hash, Object>, objects': map<Hash, Object>) {
    forall h :: h in objects ==>
      && h in objects'
      && objects'[h].data == objects[h].data
      && objects'[h].size == objects[h].size
      && (objects'[h].form == objects[h].form
          || (objects[h].form.Legacy? && objects'[h].form == Checked(env.crc(objects[h].data))))
  }

  /** What a step of r promises the other requests. */
  ghost predicate Guarantee(env: Env, r: Rid, st: Stores, st': Stores) {
    && Evolves(env, st.objects, st'.objects)
    && (forall h :: h in st'.objects && h !in st.objects ==> Held(st.locks, h, r))
    && OthersLocks(r, st.locks, st'.locks)
  }

  /** Only r's own locks differ. */
  ghost predicate OthersLocks(r: Rid, locks: map<nat, Rid>, locks': map<nat, Rid>) {
    && (forall k :: k in locks && locks[k] != r ==> k in locks' && locks'[k] == locks[k])
    && (forall k :: k in locks' && locks'[k] != r ==> k in locks && locks'[k] == locks[k])
  }

  /** r holds its shard's lock exactly while its program counter says so, and no other lock. */
  ghost predicate LocksOk(locks: map<nat, Rid>, r: Rid, p: Proc) {
    && (Holds(p.pc) ==> Held(locks, p.hash, r))
    && (forall k :: k in locks && locks[k] == r ==> k == Shard(p.hash) && Holds(p.pc))
  }

  ghost predicate ProcOk(env: Env, st: Stores, r: Rid, p: Proc) {
    Local(env, st.objects, p.hash, p.pc) && LocksOk(st.locks, r, p)
  }

  ghost predicate OneCreator(procs: map<Rid, Proc>) {
    forall q, r | q in procs && r in procs && procs[q].hash == procs[r].hash
                  && Created(procs[q].pc) && Created(procs[r].pc) :: q == r
  }

  ghost predicate Inv(env: Env, s: System) {
    && StoresOk(env, s.st)
    && (forall r :: r in s.procs ==> ProcOk(env, s.st, r, s.procs[r]))
    && (forall k :: k in s.st.locks ==> s.st.locks[k] in s.procs)
    && OneCreator(s.procs)
  }

  // ----- one step keeps what it should: the stores, by what is written

  lemma RecordWriteOk(env: Env, r: Rid, h: Hash, st: Stores, rec: Record)
    requires StoresOk(env, st) && RecordOk(env, st.objects, h, rec)
    ensures StoresOk(env, WithRecord(st, rec)) && Guarantee(env, r, st, WithRecord(st, rec))
  {
  }

  /** A Put adds an object under the shard lock, or repeats the bytes that are there. */
  lemma ObjectWriteOk(env: Env, r: Rid, h: Hash, st: Stores, data: Bytes)
    requires StoresOk(env, st) && data in env.payloads
    requires h in st.objects ==> st.objects[h].data == data
    requires h !in st.objects ==> Held(st.locks, h, r)
    ensures var st' := WithObject(st, h, env.crc(data), |data|, data);
            StoresOk(env, st') && Guarantee(env, r, st, st')
  {
  }

  lemma DiskWriteOk(env: Env, r: Rid, h: Hash, st: Stores, data: Bytes, disk: map<Hash, Bytes>)
    requires StoresOk(env, st) && BytesOk(env, st.objects, h, data) && SubMap(disk, st.disk[h := data])
    ensures StoresOk(env, st.(disk := disk)) && Guarantee(env, r, st, st.(disk := disk))
  {
  }

  lemma MemWriteOk(env: Env, r: Rid, h: Hash, st: Stores, data: Bytes, mem: map<Hash, Bytes>)
    requires StoresOk(env, st) && BytesOk(env, st.objects, h, data) && SubMap(mem, st.mem[h := data])
    ensures StoresOk(env, st.(mem := mem)) && Guarantee(env, r, st, st.(mem := mem))
  {
  }

  lemma PushStores(env: Env, r: Rid, h: Hash, st: Stores, p: PushPc, st': Stores, pc': Pc)
    requires StoresOk(env, st) && ProcOk(env, st, r, Proc(h, Pushing(p)))
    requires PushStep(env, r, h, st, p, st', pc')
    ensures StoresOk(env, st') && Guarantee(env, r, st, st')
  {
    match p
    case PushPut(payload) => ObjectWriteOk(env, r, h, st, payload);
    case PushPublish(payload, _, _) =>
      if st' != st { DiskWriteOk(env, r, h, st, payload, st'.disk); }
    case _ =>
  }

  lemma ReconcileStores(env: Env, r: Rid, h: Hash, st: Stores, p: ReconcilePc, st': Stores, pc': Pc)
    requires StoresOk(env, st) && ProcOk(env, st, r, Proc(h, Reconciling(p)))
    requires ReconcileStep(env, h, st, p, st', pc')
    ensures StoresOk(env, st') && Guarantee(env, r, st, st')
  {
    if p.ReconcilePut? { ObjectWriteOk(env, r, h, st, p.data); }
  }

  lemma CommitStores(env: Env, r: Rid, h: Hash, st: Stores, p: CommitPc, st': Stores, pc': Pc)
    requires StoresOk(env, st) && ProcOk(env, st, r, Proc(h, Committing(p)))
    requires CommitStep(h, st, p, st', pc')
    ensures StoresOk(env, st') && Guarantee(env, r, st, st')
  {
    if p.CommitPut? { RecordWriteOk(env, r, h, st, p.rec); }
  }

  lemma RecordStores(env: Env, r: Rid, h: Hash, st: Stores, p: RecordPc, st': Stores, pc': Pc)
    requires StoresOk(env, st) && ProcOk(env, st, r, Proc(h, Recording(p)))
    requires RecordStep(env, h, st, p, st', pc')
    ensures StoresOk(env, st') && Guarantee(env, r, st, st')
  {
    if p.RecordPut? { RecordWriteOk(env, r, h, st, p.rec); }
  }

  lemma RangeStores(env: Env, r: Rid, h: Hash, st: Stores, p: RangePc, st': Stores, pc': Pc)
    requires StoresOk(env, st) && ProcOk(env, st, r, Proc(h, Ranging(p)))
    requires RangeStep(env, h, st, p, st', pc')
    ensures StoresOk(env, st') && Guarantee(env, r, st, st')
  {
    if p.RangeETag? { RecordWriteOk(env, r, h, st, p.rec); }
  }

  lemma OpenStores(env: Env, r: Rid, h: Hash, st: Stores, p: OpenPc, st': Stores, pc': Pc)
    requires StoresOk(env, st) && ProcOk(env, st, r, Proc(h, Opening(p)))
    requires OpenStep(env, h, st, p, st', pc')
    ensures StoresOk(env, st') && Guarantee(env, r, st, st')
  {
    if p.OpenETag? { RecordWriteOk(env, r, h, st, p.rec); }
  }

  lemma PullStores(env: Env, r: Rid, h: Hash, st: Stores, p: PullPc, st': Stores, pc': Pc)
    requires StoresOk(env, st) && ProcOk(env, st, r, Proc(h, Pulling(p)))
    requires PullStep(h, st, p, st', pc')
    ensures StoresOk(env, st') && Guarantee(env, r, st, st')
  {
    match p
    case CacheAdd(_, _, data) =>
      if st' != st { MemWriteOk(env, r, h, st, data, st'.mem); }
    case MarkPut(rec, _, _, _) => RecordWriteOk(env, r, h, st, rec);
    case _ =>
  }

  // ----- one step keeps what it should: the knowledge of the request itself

  lemma ResumeOk(env: Env, objects: map<Hash, Object>, h: Hash, caller: Caller, rec: Record)
    requires KnownRecord(env, objects, h, rec)
    ensures var pc := Resume(caller, rec);
            Local(env, objects, h, pc) && !Holds(pc) && !Created(pc)
  {
  }

  /** Serving data of the stated size sends the requested part of it. */
  lemma ServeOk(env: Env, objects: map<Hash, Object>, h: Hash, header: Option<string>, data: Bytes)
    requires BytesOk(env, objects, h, data)
    ensures var pc := Serve(header, |data|, data);
            Local(env, objects, h, pc) && !Holds(pc) && !Created(pc)
    ensures var reply := Reply(header, |data|, data);
            reply.Some? ==> ServedOk(env, objects, h, reply.value, header, data)
  {
  }

  lemma CommitLocal(env: Env, r: Rid, h: Hash, st: Stores, p: CommitPc, st': Stores, pc': Pc)
    requires StoresOk(env, st) && ProcOk(env, st, r, Proc(h, Committing(p)))
    requires CommitStep(h, st, p, st', pc')
    ensures Local(env, st'.objects, h, pc') && LocksOk(st'.locks, r, Proc(h, pc'))
    ensures Created(pc') ==> Created(Committing(p))
  {
  }

  lemma RecordLocal(env: Env, r: Rid, h: Hash, st: Stores, p: RecordPc, st': Stores, pc': Pc)
    requires StoresOk(env, st) && ProcOk(env, st, r, Proc(h, Recording(p)))
    requires RecordStep(env, h, st, p, st', pc')
    ensures Local(env, st'.objects, h, pc') && LocksOk(st'.locks, r, Proc(h, pc'))
    ensures Created(pc') ==> Created(Recording(p))
  {
    match p
    case RecordGet(caller) =>
      if h in st.meta && st.meta[h].checksum.Some? { ResumeOk(env, st.objects, h, caller, st.meta[h]); }
    case RecordPut(rec, caller) => ResumeOk(env, st.objects, h, caller, rec);
    case _ =>
  }

  lemma RangeLocal(env: Env, r: Rid, h: Hash, st: Stores, p: RangePc, st': Stores, pc': Pc)
    requires StoresOk(env, st) && ProcOk(env, st, r, Proc(h, Ranging(p)))
    requires RangeStep(env, h, st, p, st', pc')
    ensures Local(env, st'.objects, h, pc') && LocksOk(st'.locks, r, Proc(h, pc'))
    ensures Created(pc') ==> Created(Ranging(p))
  {
  }

  lemma OpenLocal(env: Env, r: Rid, h: Hash, st: Stores, p: OpenPc, st': Stores, pc': Pc)
    requires StoresOk(env, st) && ProcOk(env, st, r, Proc(h, Opening(p)))
    requires OpenStep(env, h, st, p, st', pc')
    ensures Local(env, st'.objects, h, pc') && LocksOk(st'.locks, r, Proc(h, pc'))
    ensures Created(pc') ==> Created(Opening(p))
  {
    match p
    case OpenDisk(header) =>
      if h in st.disk { ServeOk(env, st.objects, h, header, st.disk[h]); }
    case OpenRemote(_, header) => ServeOk(env, st.objects, h, header, st.objects[h].data);
    case _ =>
  }

  lemma PullLocal(env: Env, r: Rid, h: Hash, st: Stores, p: PullPc, st': Stores, pc': Pc)
    requires StoresOk(env, st) && ProcOk(env, st, r, Proc(h, Pulling(p)))
    requires PullStep(h, st, p, st', pc')
    ensures Local(env, st'.objects, h, pc') && LocksOk(st'.locks, r, Proc(h, pc'))
    ensures Created(pc') ==> Created(Pulling(p))
  {
    if p.PullMem? && h in st.mem { ServeOk(env, st.objects, h, p.header, st.mem[h]); }
  }

  lemma PushLocal(env: Env, r: Rid, h: Hash, st: Stores, p: PushPc, st': Stores, pc': Pc)
    requires StoresOk(env, st) && ProcOk(env, st, r, Proc(h, Pushing(p)))
    requires PushStep(env, r, h, st, p, st', pc')
    ensures Local(env, st'.objects, h, pc')
  {
  }

  lemma PushLocks(env: Env, r: Rid, h: Hash, st: Stores, p: PushPc, st': Stores, pc': Pc)
    requires StoresOk(env, st) && ProcOk(env, st, r, Proc(h, Pushing(p)))
    requires PushStep(env, r, h, st, p, st', pc')
    ensures LocksOk(st'.locks, r, Proc(h, pc'))
    ensures Created(pc') && !Created(Pushing(p)) ==> h !in st.objects
  {
  }

  lemma ReconcileLocal(env: Env, r: Rid, h: Hash, st: Stores, p: ReconcilePc, st': Stores, pc': Pc)
    requires StoresOk(env, st) && ProcOk(env, st, r, Proc(h, Reconciling(p)))
    requires ReconcileStep(env, h, st, p, st', pc')
    ensures Local(env, st'.objects, h, pc')
  {
  }

  lemma ReconcileLocks(env: Env, r: Rid, h: Hash, st: Stores, p: ReconcilePc, st': Stores, pc': Pc)
    requires StoresOk(env, st) && ProcOk(env, st, r, Proc(h, Reconciling(p)))
    requires ReconcileStep(env, h, st, p, st', pc')
    ensures LocksOk(st'.locks, r, Proc(h, pc'))
    ensures Created(pc') && !Created(Reconciling(p)) ==> h !in st.objects
  {
  }

  ghost predicate StepOk(env: Env, r: Rid, h: Hash, st: Stores, pc: Pc, st': Stores, pc': Pc) {
    && StoresOk(env, st') && Guarantee(env, r, st, st')
    && ProcOk(env, st', r, Proc(h, pc'))
    && (Created(pc') && !Created(pc) ==> h !in st.objects)
  }

  lemma PushOk(env: Env, r: Rid, h: Hash, st: Stores, p: PushPc, st': Stores, pc': Pc)
    requires StoresOk(env, st) && ProcOk(env, st, r, Proc(h, Pushing(p)))
    requires PushStep(env, r, h, st, p, st', pc')
    ensures StepOk(env, r, h, st, Pushing(p), st', pc')
  {
    PushStores(env, r, h, st, p, st', pc');
    PushLocal(env, r, h, st, p, st', pc');
    PushLocks(env, r, h, st, p, st', pc');
  }

  lemma CommitOk(env: Env, r: Rid, h: Hash, st: Stores, p: CommitPc, st': Stores, pc': Pc)
    requires StoresOk(env, st) && ProcOk(env, st, r, Proc(h, Committing(p)))
    requires CommitStep(h, st, p, st', pc')
    ensures StepOk(env, r, h, st, Committing(p), st', pc')
  {
    CommitStores(env, r, h, st, p, st', pc');
    CommitLocal(env, r, h, st, p, st', pc');
  }

  lemma ReconcileOk(env: Env, r: Rid, h: Hash, st: Stores, p: ReconcilePc, st': Stores, pc': Pc)
    requires StoresOk(env, st) && ProcOk(env, st, r, Proc(h, Reconciling(p)))
    requires ReconcileStep(env, h, st, p, st', pc')
    ensures StepOk(env, r, h, st, Reconciling(p), st', pc')
  {
    ReconcileStores(env, r, h, st, p, st', pc');
    ReconcileLocal(env, r, h, st, p, st', pc');
    ReconcileLocks(env, r, h, st, p, st', pc');
  }

  lemma RecordingOk(env: Env, r: Rid, h: Hash, st: Stores, p: RecordPc, st': Stores, pc': Pc)
    requires StoresOk(env, st) && ProcOk(env, st, r, Proc(h, Recording(p)))
    requires RecordStep(env, h, st, p, st', pc')
    ensures StepOk(env, r, h, st, Recording(p), st', pc')
  {
    RecordStores(env, r, h, st, p, st', pc');
    RecordLocal(env, r, h, st, p, st', pc');
  }

  lemma RangeOk(env: Env, r: Rid, h: Hash, st: Stores, p: RangePc, st': Stores, pc': Pc)
    requires StoresOk(env, st) && ProcOk(env, st, r, Proc(h, Ranging(p)))
    requires RangeStep(env, h, st, p, st', pc')
    ensures StepOk(env, r, h, st, Ranging(p), st', pc')
  {
    RangeStores(env, r, h, st, p, st', pc');
    RangeLocal(env, r, h, st, p, st', pc');
  }

  lemma OpenOk(env: Env, r: Rid, h: Hash, st: Stores, p: OpenPc, st': Stores, pc': Pc)
    requires StoresOk(env, st) && ProcOk(env, st, r, Proc(h, Opening(p)))
    requires OpenStep(env, h, st, p, st', pc')
    ensures StepOk(env, r, h, st, Opening(p), st', pc')
  {
    OpenStores(env, r, h, st, p, st', pc');
    OpenLocal(env, r, h, st, p, st', pc');
  }

  lemma PullOk(env: Env, r: Rid, h: Hash, st: Stores, p: PullPc, st': Stores, pc': Pc)
    requires StoresOk(env, st) && ProcOk(env, st, r, Proc(h, Pulling(p)))
    requires PullStep(h, st, p, st', pc')
    ensures StepOk(env, r, h, st, Pulling(p), st', pc')
  {
    PullStores(env, r, h, st, p, st', pc');
    PullLocal(env, r, h, st, p, st', pc');
  }

  lemma ExistsOk(env: Env, r: Rid, h: Hash, st: Stores, rec: Record, st': Stores, pc': Pc)
    requires StoresOk(env, st) && ProcOk(env, st, r, Proc(h, Stating(rec)))
    requires ExistsStep(h, st, rec, st', pc')
    ensures StepOk(env, r, h, st, Stating(rec), st', pc')
  {
  }

  lemma FailureOk(env: Env, r: Rid, h: Hash, st: Stores, pc: Pc, st': Stores, pc': Pc)
    requires StoresOk(env, st) && ProcOk(env, st, r, Proc(h, pc))
    requires CallFails(st, pc, st', pc')
    ensures StepOk(env, r, h, st, pc, st', pc')
  {
  }

  lemma WritingOk(env: Env, r: Rid, h: Hash, st: Stores, pc: Pc, st': Stores, pc': Pc)
    requires StoresOk(env, st) && ProcOk(env, st, r, Proc(h, pc))
    requires (pc.Pushing? || pc.Committing? || pc.Reconciling? || pc.Recording?)
             && Proceeds(env, r, h, st, pc, st', pc')
    ensures StepOk(env, r, h, st, pc, st', pc')
  {
    match pc
    case Pushing(p) => PushOk(env, r, h, st, p, st', pc');
    case Committing(p) => CommitOk(env, r, h, st, p, st', pc');
    case Reconciling(p) => ReconcileOk(env, r, h, st, p, st', pc');
    case Recording(p) => RecordingOk(env, r, h, st, p, st', pc');
  }

  lemma ReadingOk(env: Env, r: Rid, h: Hash, st: Stores, pc: Pc, st': Stores, pc': Pc)
    requires StoresOk(env, st) && ProcOk(env, st, r, Proc(h, pc))
    requires (pc.Stating? || pc.Ranging? || pc.Opening? || pc.Pulling?) && Proceeds(env, r, h, st, pc, st', pc')
    ensures StepOk(env, r, h, st, pc, st', pc')
  {
    match pc
    case Stating(rec) => ExistsOk(env, r, h, st, rec, st', pc');
    case Ranging(p) => RangeOk(env, r, h, st, p, st', pc');
    case Opening(p) => OpenOk(env, r, h, st, p, st', pc');
    case Pulling(p) => PullOk(env, r, h, st, p, st', pc');
  }

  /** The rely-guarantee step: request r keeps the stores and its own knowledge correct,
      keeps its promise to the others, and claims a creation only of an absent object. */
  lemma ActOk(env: Env, r: Rid, h: Hash, st: Stores, pc: Pc, st': Stores, pc': Pc)
    requires StoresOk(env, st) && ProcOk(env, st, r, Proc(h, pc))
    requires Act(env, r, h, st, pc, st', pc')
    ensures StepOk(env, r, h, st, pc, st', pc')
  {
    if CallFails(st, pc, st', pc') {
      FailureOk(env, r, h, st, pc, st', pc');
    } else {
      if pc.Pushing? || pc.Committing? || pc.Reconciling? || pc.Recording? {
        WritingOk(env, r, h, st, pc, st', pc');
      } else {
        ReadingOk(env, r, h, st, pc, st', pc');
      }
    }
  }

  /** No step of r disturbs another request q. */
  lemma Undisturbed(env: Env, r: Rid, st: Stores, st': Stores, q: Rid, p: Proc)
    requires q != r && ProcOk(env, st, q, p) && Guarantee(env, r, st, st')
    ensures ProcOk(env, st', q, p)
  {
  }

  // ----- every step of the system

  lemma SpawnOk(env: Env, s: System, s': System, r: Rid, p: Proc)
    requires Inv(env, s) && Spawn(env, s, s', r, p)
    ensures Inv(env, s')
  {
  }

  lemma MoveOk(env: Env, s: System, s': System, r: Rid, pc': Pc)
    requires Inv(env, s) && Move(env, s, s', r, pc')
    ensures Inv(env, s') && Evolves(env, s.st.objects, s'.st.objects)
  {
    var p := s.procs[r];
    assert ProcOk(env, s.st, r, Proc(p.hash, p.pc));
    ActOk(env, r, p.hash, s.st, p.pc, s'.st, pc');
    forall q | q in s'.procs
      ensures ProcOk(env, s'.st, q, s'.procs[q])
    {
      if q != r { Undisturbed(env, r, s.st, s'.st, q, s.procs[q]); }
    }
    MoveOneCreator(env, s, s', r, pc');
  }

  /** A creation is claimed only of an absent object, and whoever claimed one has it present. */
  lemma MoveOneCreator(env: Env, s: System, s': System, r: Rid, pc': Pc)
    requires Inv(env, s) && r in s.procs
    requires s'.procs == s.procs[r := s.procs[r].(pc := pc')]
    requires Created(pc') && !Created(s.procs[r].pc) ==> s.procs[r].hash !in s.st.objects
    ensures OneCreator(s'.procs)
  {
    forall q | q in s.procs && Created(s.procs[q].pc)
      ensures s.procs[q].hash in s.st.objects
    {
      assert ProcOk(env, s.st, q, s.procs[q]);
    }
  }

  lemma CrashOk(env: Env, s: System, s': System)
    requires Inv(env, s) && Crash(s, s')
    ensures Inv(env, s') && Evolves(env, s.st.objects, s'.st.objects)
  {
    forall q | q in s'.procs
      ensures ProcOk(env, s'.st, q, s'.procs[q])
    {
      assert ProcOk(env, s.st, q, s.procs[q]);
    }
    forall q | q in s'.procs
      ensures s'.procs[q].hash == s.procs[q].hash && (Created(s'.procs[q].pc) ==> Created(s.procs[q].pc))
    {
    }
  }

  /** Objects evolve and finished requests keep their result. */
  ghost predicate Grows(env: Env, s: System, s': System) {
    && Evolves(env, s.st.objects, s'.st.objects)
    && forall r :: r in s.procs && Terminal(s.procs[r].pc) ==> r in s'.procs && s'.procs[r] == s.procs[r]
  }

  lemma GrowsTransitive(env: Env, s: System, t: System, u: System)
    requires Grows(env, s, t) && Grows(env, t, u)
    ensures Grows(env, s, u)
  {
  }

  lemma MoveGrows(env: Env, s: System, s': System, r: Rid, pc': Pc)
    requires Evolves(env, s.st.objects, s'.st.objects) && Move(env, s, s', r, pc')
    ensures Grows(env, s, s')
  {
  }

  lemma SpawnGrows(env: Env, s: System, s': System, r: Rid, p: Proc)
    requires Spawn(env, s, s', r, p)
    ensures Grows(env, s, s')
  {
  }

  lemma CrashGrows(env: Env, s: System, s': System)
    requires Crash(s, s')
    ensures Grows(env, s, s')
  {
  }

  lemma NextOk(env: Env, s: System, s': System)
    requires Inv(env, s) && Next(env, s, s')
    ensures Inv(env, s') && Grows(env, s, s')
  {
    if r, p :| Spawn(env, s, s', r, p) {
      SpawnOk(env, s, s', r, p);
      SpawnGrows(env, s, s', r, p);
    } else if r, pc' :| Move(env, s, s', r, pc') {
      MoveOk(env, s, s', r, pc');
      MoveGrows(env, s, s', r, pc');
    } else {
      CrashOk(env, s, s');
      CrashGrows(env, s, s');
    }
  }
}
