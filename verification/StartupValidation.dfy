/** The whole start-up validation of cmd/vaps/startup_check.go, and how much of the consistency
    that the durable protocol starts from it establishes. */
module StartupValidation {
  import opened Base
  import opened Durable
  import DurableInvariant
  import opened StartupPool
  import opened StartupCauses

  /** The pool over these payloads can return nil, leaving meta' of meta. */
  ghost predicate PoolReturnsNil(job: Job, meta: map<Hash, Record>, meta': map<Hash, Record>) {
    exists run: seq<Pool>, k: nat ::
      IsRun(job, run) && k < |run| && run[0].meta == meta && run[k].main == Returned(None, false)
         && run[k].meta == meta'
  }

  ghost predicate IsByHash(listing: seq<Listed>, byHash: map<Hash, Listed>) {
    && (forall h :: h in byHash ==> LastListed(listing, h, byHash[h]))
    && (forall k :: 0 <= k < |listing| ==> listing[k].hash in byHash)
  }

  /** The validation succeeds: with a listing, its pass accepts every payload, and the pool,
      which is started only if payloads without an ETag are left, accepts those; without one,
      the pool accepts every payload. */
  ghost predicate Succeeds(payloads: seq<Record>, listing: Option<seq<Listed>>, remotes: map<Hash, Remote>,
                           workers: nat,
                           meta: map<Hash, Record>, meta': map<Hash, Record>) {
    if payloads == [] then meta' == meta
    else
      match listing
      case None => PoolReturnsNil(Job(payloads, remotes, workers), meta, meta')
      case Some(l) =>
        exists byHash: map<Hash, Listed> ::
          && IsByHash(l, byHash)
          && (forall k | 0 <= k < |payloads| :: !ListProblem(payloads[k], byHash))
          && var missing := WithoutETag(payloads);
             if missing == [] then meta' == meta else PoolReturnsNil(Job(missing, remotes, workers), meta, meta')
  }

  /** payloads are the records of the database. */
  ghost predicate AllRecords(payloads: seq<Record>, meta: map<Hash, Record>) {
    && (forall p :: p in payloads ==> p.hash in meta && meta[p.hash] == p)
    && (forall h :: h in meta ==> meta[h].hash == h && meta[h] in payloads)
  }

  /** Head and List answer for the objects that are there. */
  ghost predicate Faithful(env: Env, objects: map<Hash, Object>, listing: Option<seq<Listed>>, remotes: map<Hash,
                           Remote>) {
    && (forall h :: h in remotes ==> h in objects && remotes[h] == RemoteOf(env, h, objects[h]))
    && (listing.Some? ==>
          forall k | 0 <= k < |listing.value| ::
            var l := listing.value[k];
            l.hash in objects && l.size == objects[l.hash].size && l.etag == env.etag(objects[l.hash].data))
  }

  /** The record has its object's size and its non-empty ETag. */
  ghost predicate Verified(env: Env, objects: map<Hash, Object>, h: Hash, rec: Record) {
    && rec.hash == h && h in objects && rec.size == objects[h].size
    && rec.etag.Some? && rec.etag == env.etag(objects[h].data)
  }

  /** The record's checksum, if known, is its object's. */
  ghost predicate ChecksumOk(objects: map<Hash, Object>, h: Hash, rec: Record) {
    rec.checksum.Some? ==> h in objects && objects[h].form == Checked(rec.checksum.value)
  }

  lemma PoolChecks(env: Env, objects: map<Hash, Object>, job: Job, meta: map<Hash, Record>, meta': map<Hash, Record>,
                   p: Record)
    requires PoolReturnsNil(job, meta, meta') && p in job.payloads
    requires forall h :: h in job.remotes ==> h in objects && job.remotes[h] == RemoteOf(env, h, objects[h])
    ensures p.hash in meta' && Verified(env, objects, p.hash, meta'[p.hash])
    ensures meta'[p.hash].checksum == p.checksum && ChecksumOk(objects, p.hash, p)
  {
    var run: seq<Pool>, k: nat :| IsRun(job, run) && k < |run| && run[0].meta == meta
                                 && run[k].main == Returned(None, false) && run[k].meta == meta';
    var i :| 0 <= i < |job.payloads| && job.payloads[i] == p;
    NilMeansAllGood(job, run, k, i);
  }

  lemma PoolKeeps(job: Job, meta: map<Hash, Record>, meta': map<Hash, Record>)
    requires PoolReturnsNil(job, meta, meta')
    ensures meta'.Keys == meta.Keys
    ensures forall h | h in meta && (forall p :: p in job.payloads ==> p.hash != h) :: meta'[h] == meta[h]
  {
    var run: seq<Pool>, k: nat :| IsRun(job, run) && k < |run| && run[0].meta == meta
                                 && run[k].main == Returned(None, false) && run[k].meta == meta';
    MetaFrame(job, run, k);
  }

  lemma ListChecks(env: Env, objects: map<Hash, Object>, l: seq<Listed>, byHash: map<Hash, Listed>, p: Record)
    requires Faithful(env, objects, Some(l), map[]) && IsByHash(l, byHash) && !ListProblem(p, byHash) && p.etag.Some?
    ensures Verified(env, objects, p.hash, p)
  {
    assert LastListed(l, p.hash, byHash[p.hash]);
  }

  /** The record of h after a successful validation. */
  lemma RecordChecked(env: Env, objects: map<Hash, Object>, payloads: seq<Record>, listing: Option<seq<Listed>>,
                      remotes: map<Hash, Remote>, workers: nat, meta: map<Hash, Record>, meta': map<Hash, Record>,
                      h: Hash)
    requires Succeeds(payloads, listing, remotes, workers, meta, meta')
    requires AllRecords(payloads, meta) && Faithful(env, objects, listing, remotes)
    requires h in meta
    ensures h in meta' && Verified(env, objects, h, meta'[h]) && meta'[h].checksum == meta[h].checksum
    ensures listing.None? || meta[h].etag.None? ==> ChecksumOk(objects, h, meta[h])
  {
    var p := meta[h];
    assert p in payloads;
    if listing.None? {
      PoolChecks(env, objects, Job(payloads, remotes, workers), meta, meta', p);
    } else {
      var l := listing.value;
      var missing := WithoutETag(payloads);
      var byHash: map<Hash, Listed> :|
        && IsByHash(l, byHash)
        && (forall k | 0 <= k < |payloads| :: !ListProblem(payloads[k], byHash))
        && if missing == [] then meta' == meta else PoolReturnsNil(Job(missing, remotes, workers), meta, meta');
      WithoutETagMembers(payloads, p);
      if p.etag.None? {
        PoolChecks(env, objects, Job(missing, remotes, workers), meta, meta', p);
      } else {
        ListChecks(env, objects, l, byHash, p);
        ListedKept(payloads, missing, remotes, workers, meta, meta', p);
      }
    }
  }

  /** The pool leaves the records that had an ETag. */
  lemma ListedKept(payloads: seq<Record>, missing: seq<Record>, remotes: map<Hash, Remote>, workers: nat,
                   meta: map<Hash, Record>, meta': map<Hash, Record>, p: Record)
    requires AllRecords(payloads, meta) && missing == WithoutETag(payloads) && p in payloads && p.etag.Some?
    requires if missing == [] then meta' == meta else PoolReturnsNil(Job(missing, remotes, workers), meta, meta')
    ensures p.hash in meta' && meta'[p.hash] == p
  {
    if missing != [] {
      PoolKeeps(Job(missing, remotes, workers), meta, meta');
      forall q | q in missing
        ensures q.hash != p.hash
      {
        WithoutETagMembers(payloads, q);
      }
    }
  }

  lemma VerifiedRecord(env: Env, objects: map<Hash, Object>, h: Hash, rec: Record)
    requires Verified(env, objects, h, rec)
    ensures DurableInvariant.RecordOk(env, objects, h, rec) <==> ChecksumOk(objects, h, rec)
  {
  }

  /** Every record has its object's size and ETag, and the checksum it had. */
  ghost predicate AllVerified(env: Env, objects: map<Hash, Object>, meta: map<Hash, Record>, meta': map<Hash, Record>) {
    && meta'.Keys == meta.Keys
    && forall h :: h in meta ==> Verified(env, objects, h, meta'[h]) && meta'[h].checksum == meta[h].checksum
  }

  lemma EveryRecordChecked(env: Env, objects: map<Hash, Object>, payloads: seq<Record>, listing: Option<seq<Listed>>,
                           remotes: map<Hash, Remote>, workers: nat, meta: map<Hash, Record>, meta': map<Hash, Record>)
    requires Succeeds(payloads, listing, remotes, workers, meta, meta')
    requires AllRecords(payloads, meta) && Faithful(env, objects, listing, remotes)
    ensures AllVerified(env, objects, meta, meta')
    ensures forall h :: h in meta && (listing.None? || meta[h].etag.None?) ==> ChecksumOk(objects, h, meta[h])
  {
    SameKeys(payloads, listing, remotes, workers, meta, meta');
    forall h | h in meta
      ensures h in meta' && Verified(env, objects, h, meta'[h]) && meta'[h].checksum == meta[h].checksum
      ensures listing.None? || meta[h].etag.None? ==> ChecksumOk(objects, h, meta[h])
    {
      RecordChecked(env, objects, payloads, listing, remotes, workers, meta, meta', h);
    }
  }

  /** What a successful validation establishes: the same hashes are recorded, and every record
      has its object's size and ETag. It is the metadata part of the consistency the durable
      protocol starts from if and only if the checksums are right that the listing pass does
      not look at, those of records that already had an ETag; without a listing it always is. */
  lemma ValidationEstablishes(env: Env, objects: map<Hash, Object>, payloads: seq<Record>, listing: Option<seq<Listed>>,
                              remotes: map<Hash, Remote>, workers: nat, meta: map<Hash, Record>,
                              meta': map<Hash, Record>)
    requires Succeeds(payloads, listing, remotes, workers, meta, meta')
    requires AllRecords(payloads, meta) && Faithful(env, objects, listing, remotes)
    ensures AllVerified(env, objects, meta, meta')
    ensures (forall h :: h in meta' ==> DurableInvariant.RecordOk(env, objects, h, meta'[h])) <==>
            (forall h :: h in meta && listing.Some? && meta[h].etag.Some? ==> ChecksumOk(objects, h, meta[h]))
  {
    EveryRecordChecked(env, objects, payloads, listing, remotes, workers, meta, meta');
    forall h | h in meta
      ensures DurableInvariant.RecordOk(env, objects, h, meta'[h]) <==> ChecksumOk(objects, h, meta[h])
    {
      VerifiedRecord(env, objects, h, meta'[h]);
    }
  }

  lemma SameKeys(payloads: seq<Record>, listing: Option<seq<Listed>>, remotes: map<Hash, Remote>, workers: nat,
                 meta: map<Hash, Record>, meta': map<Hash, Record>)
    requires Succeeds(payloads, listing, remotes, workers, meta, meta')
    ensures meta'.Keys == meta.Keys
  {
    if payloads != [] {
      if listing.None? {
        PoolKeeps(Job(payloads, remotes, workers), meta, meta');
      } else if WithoutETag(payloads) != [] {
        PoolKeeps(Job(WithoutETag(payloads), remotes, workers), meta, meta');
      }
    }
  }

  // ----- when the validation succeeds

  /** The last listing of the payload has its size and, if it has an ETag, that ETag. */
  ghost predicate ListedRight(listing: seq<Listed>, p: Record) {
    exists k ::
      && 0 <= k < |listing| && listing[k].hash == p.hash
      && (forall j | k < j < |listing| :: listing[j].hash != p.hash)
      && listing[k].size == p.size && (p.etag.Some? ==> listing[k].etag == p.etag)
  }

  ghost predicate NoRepeats(payloads: seq<Record>) {
    forall i, j :: 0 <= i < j < |payloads| ==> payloads[i].hash != payloads[j].hash
  }

  /** A pool over payloads of the database can return nil if and only if they all agree with
      their remote objects. */
  lemma PoolReturnsNilIff(job: Job, meta: map<Hash, Record>)
    requires job.workers >= 1 && NoRepeats(job.payloads)
    requires forall p :: p in job.payloads ==> p.hash in meta && meta[p.hash] == p
    ensures (exists meta' :: PoolReturnsNil(job, meta, meta')) <==>
            forall p :: p in job.payloads ==> Agrees(p, job.remotes)
  {
    if meta' :| PoolReturnsNil(job, meta, meta') {
      var run: seq<Pool>, k: nat :| IsRun(job, run) && k < |run| && run[0].meta == meta
                                    && run[k].main == Returned(None, false) && run[k].meta == meta';
      NilMeansAgree(job, run, k);
    }
    if forall p :: p in job.payloads ==> Agrees(p, job.remotes) {
      var first := Pool(Sending(0), seq(job.workers, i => Idle), false, false, false, None, 0, meta, [],
                        seq(|job.payloads|, i => 0));
      var run := CalmCompletes(job, [first]);
      PoolAcceptsIff(job, run, |run| - 1);
      assert PoolReturnsNil(job, meta, run[|run| - 1].meta);
    }
  }

  /** The map of the last listings. */
  lemma {:induction false} ByHashExists(listing: seq<Listed>) returns (byHash: map<Hash, Listed>)
    ensures IsByHash(listing, byHash)
  {
    if listing == [] { return map[]; }
    var n := |listing| - 1;
    var before := ByHashExists(listing[..n]);
    byHash := before[listing[n].hash := listing[n]];
    forall h | h in byHash
      ensures LastListed(listing, h, byHash[h])
    {
      if h != listing[n].hash {
        LaterListed(listing, n, h, byHash[h]);
        assert listing[..n + 1] == listing;
      }
    }
    forall k | 0 <= k < |listing|
      ensures listing[k].hash in byHash
    {
      if k < n { assert listing[..n][k].hash in before; }
    }
  }

  lemma ListProblemIff(listing: seq<Listed>, byHash: map<Hash, Listed>, p: Record)
    requires IsByHash(listing, byHash)
    ensures !ListProblem(p, byHash) <==> ListedRight(listing, p)
  {
    if p.hash in byHash { assert LastListed(listing, p.hash, byHash[p.hash]); }
  }

  lemma {:induction false} WithoutETagDistinct(payloads: seq<Record>)
    requires NoRepeats(payloads)
    ensures NoRepeats(WithoutETag(payloads))
  {
    if payloads != [] {
      var rest := payloads[..|payloads| - 1];
      WithoutETagDistinct(rest);
      forall i | 0 <= i < |WithoutETag(rest)|
        ensures WithoutETag(rest)[i].hash != payloads[|payloads| - 1].hash
      {
        WithoutETagMembers(rest, WithoutETag(rest)[i]);
      }
    }
  }

  /** The validation can succeed if and only if every record agrees with its remote object, or,
      with a listing, every record's last listing is right and every record without an ETag
      agrees with its remote object. */
  lemma SucceedsIff(payloads: seq<Record>, listing: Option<seq<Listed>>, remotes: map<Hash, Remote>, workers: nat,
                    meta: map<Hash, Record>)
    requires workers >= 1 && NoRepeats(payloads)
    requires forall p :: p in payloads ==> p.hash in meta && meta[p.hash] == p
    ensures (exists meta' :: Succeeds(payloads, listing, remotes, workers, meta, meta')) <==>
            forall p :: p in payloads ==>
                          && (listing.Some? ==> ListedRight(listing.value, p))
                          && (listing.None? || p.etag.None? ==> Agrees(p, remotes))
  {
    if payloads == [] {
      assert Succeeds(payloads, listing, remotes, workers, meta, meta);
    } else if listing.None? {
      var job := Job(payloads, remotes, workers);
      PoolReturnsNilIff(job, meta);
      if meta' :| PoolReturnsNil(job, meta, meta') {
        assert Succeeds(payloads, listing, remotes, workers, meta, meta');
      }
    } else {
      SucceedsWithListIff(payloads, listing.value, remotes, workers, meta);
    }
  }

  lemma SucceedsWithListIff(payloads: seq<Record>, listing: seq<Listed>, remotes: map<Hash, Remote>, workers: nat,
                            meta: map<Hash, Record>)
    requires payloads != [] && workers >= 1 && NoRepeats(payloads)
    requires forall p :: p in payloads ==> p.hash in meta && meta[p.hash] == p
    ensures (exists meta' :: Succeeds(payloads, Some(listing), remotes, workers, meta, meta')) <==>
            forall p :: p in payloads ==> ListedRight(listing, p) && (p.etag.None? ==> Agrees(p, remotes))
  {
    var missing := WithoutETag(payloads);
    var job := Job(missing, remotes, workers);
    forall p
      ensures p in missing <==> p in payloads && p.etag.None?
    {
      WithoutETagMembers(payloads, p);
    }
    WithoutETagDistinct(payloads);
    PoolReturnsNilIff(job, meta);
    var byHash := ByHashExists(listing);
    forall p, m | IsByHash(listing, m)
      ensures !ListProblem(p, m) <==> ListedRight(listing, p)
    {
      ListProblemIff(listing, m, p);
    }
    if meta' :| Succeeds(payloads, Some(listing), remotes, workers, meta, meta') {
      forall p | p in payloads
        ensures ListedRight(listing, p)
      {
        var k :| 0 <= k < |payloads| && payloads[k] == p;
      }
      assert missing == [] || PoolReturnsNil(job, meta, meta');
    }
    if forall p :: p in payloads ==> ListedRight(listing, p) && (p.etag.None? ==> Agrees(p, remotes)) {
      if missing == [] {
        assert Succeeds(payloads, Some(listing), remotes, workers, meta, meta);
      } else {
        var meta' :| PoolReturnsNil(job, meta, meta');
        assert Succeeds(payloads, Some(listing), remotes, workers, meta, meta');
      }
    }
  }

  // ----- a checksum the listing pass does not look at

  function SampleEnv(): Env {
    Env((b: Bytes) => SAMPLE_CHECKSUM, (b: Bytes) => Some(1), iset{SAMPLE_HASH}, iset{[0]})
  }

  /** A validation that succeeds and leaves a record that does not agree with its object: the
      object is a legacy one, the record has its size and ETag, and a checksum. */
  lemma WrongChecksumAccepted()
    ensures var objects := map[SAMPLE_HASH := Object(Legacy, 1, [0])];
            var rec := Record(SAMPLE_HASH, Some(1), Some("ffffffff"), 1, false);
            var listing := Some([Listed(SAMPLE_HASH, Some(1), 1)]);
            && DurableInvariant.ObjectOk(SampleEnv(), SAMPLE_HASH, objects[SAMPLE_HASH])
            && AllRecords([rec], map[SAMPLE_HASH := rec]) && Faithful(SampleEnv(), objects, listing, map[])
            && Succeeds([rec], listing, map[], 1, map[SAMPLE_HASH := rec], map[SAMPLE_HASH := rec])
            && !DurableInvariant.RecordOk(SampleEnv(), objects, SAMPLE_HASH, rec)
  {
    var rec := Record(SAMPLE_HASH, Some(1), Some("ffffffff"), 1, false);
    var l := [Listed(SAMPLE_HASH, Some(1), 1)];
    var byHash := map[SAMPLE_HASH := l[0]];
    assert LastListed(l, SAMPLE_HASH, l[0]);
    assert IsByHash(l, byHash);
    assert [rec][..0] == [] && WithoutETag([]) == [];
    assert WithoutETag([rec]) == [];
    assert forall k | 0 <= k < 1 :: !ListProblem([rec][k], byHash);
  }
}
