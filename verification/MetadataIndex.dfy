/** The payload records of internal/metadata/store.go: a database, an in-memory index beside
    it, and the filtered, sorted and paged queries the index answers. */
module MetadataIndex {
  import opened Base
  import opened Sorting

  /** Times are nanoseconds; cached is Status == StatusCached. */
  datatype Payload = Payload(
    hash: Hash,
    etag: string,
    checksum: Checksum,
    legacyChecksum: string,
    size: int,
    cached: bool,
    createdAt: Option<int>,
    lastAccessedAt: Option<int>)

  /** What a record looks like after a trip through JSON: LegacyChecksum is not written. */
  function Written(p: Payload): Payload { p.(legacyChecksum := "") }

  datatype Error = NotFound | DashboardBusy | SliceOutOfRange

  datatype Query = Query(
    hashContains: string,
    requireLocal: bool,
    requireCache: bool,
    backup: Option<bool>,
    minSize: Option<int>,
    maxSize: Option<int>,
    bySize: bool,
    ascending: bool,
    limit: int,
    offset: int)

  const INT64_MAX: int := 0x7fff_ffff_ffff_ffff

  predicate IsInt64(n: int) { -INT64_MAX - 1 <= n <= INT64_MAX }

  /** Go's wrapping int64 addition. */
  function Add64(a: int, b: int): int {
    var sum := a + b;
    if sum > INT64_MAX then sum - 2 * (INT64_MAX + 1)
    else if sum < -INT64_MAX - 1 then sum + 2 * (INT64_MAX + 1)
    else sum
  }

  datatype QueryResult = QueryResult(items: seq<Payload>, total: nat, limit: int, offset: int)

  datatype Stats = Stats(payloadCount: nat, totalBytes: int, cachedCount: nat)

  // ----- filter

  /** strings.Contains */
  predicate Contains(s: string, part: string) {
    exists i :: 0 <= i <= |s| - |part| && OccursAt(s, part, i)
  }

  predicate OccursAt(s: string, part: string, i: nat)
    requires i + |part| <= |s|
  {
    s[i..i + |part|] == part
  }

  predicate Matches(q: Query, p: Payload) {
    if q.hashContains != "" && !Contains(p.hash, q.hashContains) then false
    else if q.requireLocal && !p.cached then false
    else if q.requireCache && !p.cached then false
    else if q.backup.Some? && !q.backup.value then false
    else if q.minSize.Some? && p.size < q.minSize.value then false
    else if q.maxSize.Some? && p.size > q.maxSize.value then false
    else true
  }

  // ----- order

  predicate HashLess(ascending: bool, a: Payload, b: Payload) {
    if ascending then LexLess(a.hash, b.hash) else LexLess(b.hash, a.hash)
  }

  /** The comparator of sortPayloads: by size, or by creation time with missing times last. */
  predicate Less(bySize: bool, ascending: bool, a: Payload, b: Payload) {
    if bySize then
      if a.size != b.size then (if ascending then a.size < b.size else a.size > b.size)
      else HashLess(ascending, a, b)
    else if a.createdAt.None? != b.createdAt.None? then b.createdAt.None?
    else if a.createdAt.Some? && a.createdAt != b.createdAt then
      (if ascending then a.createdAt.value < b.createdAt.value else a.createdAt.value > b.createdAt.value)
    else HashLess(ascending, a, b)
  }

  function Comparator(q: Query): (Payload, Payload) -> bool {
    (a, b) => Less(q.bySize, q.ascending, a, b)
  }

  /** The comparator is a strict total order on records with different hashes. */
  lemma ComparatorOrders(q: Query)
    ensures StrictOrder(Comparator(q))
    ensures forall a: Payload, b: Payload :: a.hash != b.hash ==> Comparator(q)(a, b) || Comparator(q)(b, a)
    ensures forall a: Payload, b: Payload :: Comparator(q)(a, b) <==> Comparator(q)(Written(a), Written(b))
  {
    forall a: Payload
      ensures !Comparator(q)(a, a)
    {
      LexTrichotomy(a.hash, a.hash);
    }
    forall a: Payload, b: Payload, c: Payload | Comparator(q)(a, b) && Comparator(q)(b, c)
      ensures Comparator(q)(a, c)
    {
      LessTransitive(q.bySize, q.ascending, a, b, c);
    }
    forall a: Payload, b: Payload | a.hash != b.hash
      ensures Comparator(q)(a, b) || Comparator(q)(b, a)
    {
      LexTrichotomy(a.hash, b.hash);
    }
  }

  lemma LessTransitive(bySize: bool, ascending: bool, a: Payload, b: Payload, c: Payload)
    requires Less(bySize, ascending, a, b) && Less(bySize, ascending, b, c)
    ensures Less(bySize, ascending, a, c)
  {
    if HashLess(ascending, a, b) && HashLess(ascending, b, c) {
      if ascending { LexTransitive(a.hash, b.hash, c.hash); } else { LexTransitive(c.hash, b.hash, a.hash); }
    }
  }

  // ----- a scan of the database

  type Records = map<Hash, Payload>

  ghost function WrittenAll(items: seq<Payload>): seq<Payload> {
    seq(|items|, i requires 0 <= i < |items| => Written(items[i]))
  }

  /** full lists, in order, exactly the matching records of the database. */
  ghost predicate IsScan(db: Records, q: Query, full: seq<Payload>) {
    && Sorted(full, Comparator(q))
    && Elements(full) == set h | h in db && Matches(q, db[h]) :: Written(db[h])
  }

  /** The scan does not depend on the order in which the records are visited. */
  lemma ScanIsUnique(db: Records, q: Query, a: seq<Payload>, b: seq<Payload>)
    requires IsScan(db, q, a) && IsScan(db, q, b)
    ensures a == b
  {
    ComparatorOrders(q);
    SortedUnique(a, b, Comparator(q));
  }

  /** The order of a scan: by size, or by creation with missing times last, ascending or
      descending as asked, and at equal ones by hash in the same direction. */
  lemma ScanOrder(db: Records, q: Query, full: seq<Payload>, i: nat, j: nat)
    requires IsScan(db, q, full) && i < j < |full|
    ensures var a, b := full[i], full[j];
            && (q.bySize && q.ascending ==> a.size < b.size || (a.size == b.size && LexLess(a.hash, b.hash)))
            && (q.bySize && !q.ascending ==> a.size > b.size || (a.size == b.size && LexLess(b.hash, a.hash)))
            && (!q.bySize && a.createdAt.None? ==>
                  b.createdAt.None? && if q.ascending then LexLess(a.hash, b.hash) else LexLess(b.hash, a.hash))
            && (!q.bySize && a.createdAt.Some? && b.createdAt.Some? ==>
                  var s, t := a.createdAt.value, b.createdAt.value;
                  if q.ascending then s < t || (s == t && LexLess(a.hash, b.hash))
                  else s > t || (s == t && LexLess(b.hash, a.hash)))
  {
    ComparatorOrders(q);
    SortedPairs(full, Comparator(q), i, j);
  }

  ghost predicate SizesOrdered(items: seq<Payload>, ascending: bool) {
    forall i, j | 0 <= i < j < |items| ::
      if ascending then items[i].size <= items[j].size else items[i].size >= items[j].size
  }

  /** Records without a time are last. */
  ghost predicate TimesOrdered(items: seq<Payload>, ascending: bool) {
    forall i, j | 0 <= i < j < |items| ::
      var a, b := items[i].createdAt, items[j].createdAt;
      if a.None? || b.None? then b.None?
      else if ascending then a.value <= b.value else a.value >= b.value
  }

  lemma PageOrder(db: Records, q: Query, items: seq<Payload>, from: nat, to: nat)
    requires IsScan(db, q, WrittenAll(items)) && from <= to <= |items|
    ensures if q.bySize then SizesOrdered(items[from..to], q.ascending) else TimesOrdered(items[from..to], q.ascending)
  {
    var page := items[from..to];
    forall i, j | 0 <= i < j < |page|
      ensures Less(q.bySize, q.ascending, page[i], page[j])
    {
      OrderedAt(db, q, items, from + i, from + j);
    }
  }

  lemma OrderedAt(db: Records, q: Query, items: seq<Payload>, i: nat, j: nat)
    requires IsScan(db, q, WrittenAll(items)) && i < j < |items|
    ensures Less(q.bySize, q.ascending, items[i], items[j])
  {
    SortedPairs(WrittenAll(items), Comparator(q), i, j);
  }

  lemma ContainsIff(s: string, part: string)
    ensures Contains(s, part) <==> exists before, after :: s == before + part + after
  {
    if Contains(s, part) {
      var i :| 0 <= i <= |s| - |part| && OccursAt(s, part, i);
      assert s == s[..i] + part + s[i + |part|..];
    }
    if before, after :| s == before + part + after { assert OccursAt(s, part, |before|); }
  }

  /** What a scan lists: the records, as written, whose hash contains the given part and that
      are cached and of a size within the bounds if the query asks for it; there is none
      without a backup. */
  lemma ScanLists(db: Records, q: Query, full: seq<Payload>, p: Payload)
    requires IsScan(db, q, full) && forall h :: h in db ==> db[h].hash == h
    ensures p in full <==>
              && p.hash in db && p == db[p.hash].(legacyChecksum := "")
              && (exists before, after :: p.hash == before + q.hashContains + after)
              && (q.requireLocal || q.requireCache ==> p.cached)
              && q.backup != Some(false)
              && (q.minSize.Some? ==> q.minSize.value <= p.size)
              && (q.maxSize.Some? ==> p.size <= q.maxSize.value)
  {
    assert p in full <==> p in Elements(full);
    ContainsIff(p.hash, q.hashContains);
    if q.hashContains == "" { assert p.hash == "" + q.hashContains + p.hash; }
  }

  function Page(full: seq<Payload>, offset: nat, limit: int): seq<Payload> {
    if offset >= |full| then []
    else full[offset..if limit > 0 && offset + limit < |full| then offset + limit else |full|]
  }

  /** A page starts at the offset and ends after limit items, or, without a positive limit,
      with the list. */
  lemma PageAt(full: seq<Payload>, offset: nat, limit: int)
    ensures var page, rest := Page(full, offset, limit), if offset <= |full| then |full| - offset else 0;
            && |page| == (if 0 < limit < rest then limit else rest)
            && forall i :: 0 <= i < |page| ==> page[i] == full[offset + i]
  {
  }

  /** n consecutive pages from offset. */
  function Pages(full: seq<Payload>, offset: nat, limit: nat, n: nat): seq<Payload>
    decreases n
  {
    if n == 0 then [] else Page(full, offset, limit) + Pages(full, offset + limit, limit, n - 1)
  }

  /** Consecutive pages concatenate to the list they page through. */
  lemma {:induction false} PagesConcatenate(full: seq<Payload>, offset: nat, limit: nat, n: nat)
    requires limit > 0 && offset <= |full| && offset + n * limit >= |full|
    ensures Pages(full, offset, limit, n) == full[offset..]
    decreases n
  {
    if n > 0 {
      assert (n - 1) * limit == n * limit - limit;
      if offset + limit <= |full| {
        PagesConcatenate(full, offset + limit, limit, n - 1);
        PageThen(full, offset, offset + limit);
      } else {
        PagesBeyond(full, offset + limit, limit, n - 1);
      }
    }
  }

  lemma PageThen(full: seq<Payload>, from: nat, to: nat)
    requires from <= to <= |full|
    ensures full[from..to] + full[to..] == full[from..]
  {
  }

  lemma {:induction false} PagesBeyond(full: seq<Payload>, offset: nat, limit: nat, n: nat)
    requires offset >= |full|
    ensures Pages(full, offset, limit, n) == []
    decreases n
  {
    if n > 0 { PagesBeyond(full, offset + limit, limit, n - 1); }
  }

  // ----- sums over a scan

  ghost function TotalBytes(db: Records): int {
    if db == map[] then 0 else var h :| h in db; db[h].size + TotalBytes(db - {h})
  }

  ghost function CachedHashes(db: Records): set<Hash> { set h | h in db && db[h].cached }

  lemma {:induction false} TotalWithout(db: Records, h: Hash)
    requires h in db
    ensures TotalBytes(db) == db[h].size + TotalBytes(db - {h})
  {
    var k :| k in db && TotalBytes(db) == db[k].size + TotalBytes(db - {k});
    if k != h {
      TotalWithout(db - {k}, h);
      TotalWithout(db - {h}, k);
      assert db - {k} - {h} == db - {h} - {k};
    }
  }

  /** The index agrees with the database on everything but LegacyChecksum. */
  ghost predicate Mirrors(index: Records, db: Records) {
    index.Keys == db.Keys && forall h :: h in db ==> Written(index[h]) == Written(db[h]) && db[h].hash == h
  }

  lemma MirrorsWithout(index: Records, db: Records, h: Hash)
    requires Mirrors(index, db) && h in db
    ensures Mirrors(index - {h}, db - {h}) && index[h].size == db[h].size
  {
    assert Written(index[h]) == Written(db[h]);
    assert (index - {h}).Keys == (db - {h}).Keys;
  }

  lemma {:induction false} MirrorTotals(index: Records, db: Records)
    requires Mirrors(index, db)
    ensures TotalBytes(index) == TotalBytes(db)
    decreases |db|
  {
    if db == map[] {
      assert index == map[];
    } else {
      var h :| h in db;
      TotalWithout(db, h);
      TotalWithout(index, h);
      MirrorsWithout(index, db, h);
      MirrorTotals(index - {h}, db - {h});
    }
  }

  lemma MirrorCached(index: Records, db: Records)
    requires Mirrors(index, db)
    ensures CachedHashes(index) == CachedHashes(db)
  {
    forall h | h in db
      ensures index[h].cached == db[h].cached
    {
      assert Written(index[h]) == Written(db[h]);
    }
  }

  class Store {
    var db: Records
    var dashboard: Records
    var querying: bool

    ghost predicate Valid()
      reads this
    {
      Mirrors(dashboard, db)
    }

    /** Open an existing database, whose records may still carry a legacy checksum. */
    constructor (existing: Records)
      requires forall h :: h in existing ==> existing[h].hash == h
      ensures Valid() && db == existing && !querying
    {
      db, dashboard, querying := existing, map[], false;
      new;
      LoadDashboardIndex();
    }

    method LoadDashboardIndex()
      requires dashboard == map[] && forall h :: h in db ==> db[h].hash == h
      modifies this`dashboard
      ensures dashboard == db
    {
      var rest := db.Keys;
      while rest != {}
        invariant rest <= db.Keys
        invariant dashboard == map h | h in db && h !in rest :: db[h]
        decreases rest
      {
        var h :| h in rest;
        dashboard := dashboard[db[h].hash := db[h]];
        rest := rest - {h};
      }
    }

    method Reopen()
      requires Valid()
      modifies this
      ensures Valid() && db == old(db) && dashboard == db && !querying
    {
      dashboard, querying := map[], false;
      LoadDashboardIndex();
    }

    method PutPayload(p: Payload, fails: bool) returns (ok: bool)
      requires Valid()
      modifies this`db, this`dashboard
      ensures Valid() && ok == !fails
      ensures db == if ok then old(db)[p.hash := Written(p)] else old(db)
      ensures dashboard == if ok then old(dashboard)[p.hash := p] else old(dashboard)
    {
      if fails { return false; }
      db := db[p.hash := Written(p)];
      dashboard := dashboard[p.hash := p];
      return true;
    }

    method GetPayload(hash: Hash) returns (r: Result<Payload, Error>)
      ensures r == if hash in db then Ok(db[hash]) else Err(NotFound)
    {
      if hash !in db { return Err(NotFound); }
      return Ok(db[hash]);
    }

    /** The statistics are those of a scan of the database. */
    method GetStats() returns (stats: Stats)
      requires Valid()
      ensures stats == Stats(|db|, TotalBytes(db), |set h | h in db && db[h].cached|)
    {
      stats := Stats(0, 0, 0);
      var rest := dashboard;
      while rest != map[]
        invariant stats.payloadCount + |rest| == |dashboard|
        invariant stats.totalBytes + TotalBytes(rest) == TotalBytes(dashboard)
        invariant stats.cachedCount + |CachedHashes(rest)| == |CachedHashes(dashboard)|
        decreases |rest|
      {
        var h :| h in rest;
        TotalWithout(rest, h);
        Removed(rest, h);
        stats := Stats(stats.payloadCount + 1, stats.totalBytes + rest[h].size,
                       if rest[h].cached then stats.cachedCount + 1 else stats.cachedCount);
        rest := rest - {h};
      }
      MirrorTotals(dashboard, db);
      MirrorCached(dashboard, db);
      assert |dashboard.Keys| == |db.Keys|;
    }

    /** A query that is not refused as concurrent returns the requested page of the scan of
        the database and the size of the whole scan; it fails exactly when the page starts
        inside the scan and offset + limit does not fit an int64, which then wraps to a
        negative end of the slice. */
    method QueryPayloads(q: Query) returns (r: Result<QueryResult, Error>)
      requires Valid() && IsInt64(q.limit) && IsInt64(q.offset)
      modifies this`querying
      ensures querying == old(querying)
      ensures old(querying) ==> r == Err(DashboardBusy)
      ensures !old(querying) ==> exists full: seq<Payload> ::
                && IsScan(db, q, full)
                && var offset := if q.offset < 0 then 0 else q.offset;
                   if offset < |full| && q.limit > 0 && offset + q.limit > INT64_MAX then r == Err(SliceOutOfRange)
                   else r.Ok? && r.value.total == |full| && WrittenAll(r.value.items) == Page(full, offset, q.limit)
      ensures r.Ok? ==> if q.bySize then SizesOrdered(r.value.items, q.ascending)
                        else TimesOrdered(r.value.items, q.ascending)
    {
      var offset := if q.offset < 0 then 0 else q.offset;
      if querying { return Err(DashboardBusy); }
      querying := true;
      var matched := Matching(q);
      var sorted := SortPayloads(q, matched);
      assert |WrittenAll(sorted)| == |sorted|;
      if offset < |sorted| {
        var end := |sorted|;
        if q.limit > 0 && Add64(offset, q.limit) < end { end := Add64(offset, q.limit); }
        if end < offset {
          r := Err(SliceOutOfRange);
        } else {
          var items := sorted[offset..end];
          r := Ok(QueryResult(items, |sorted|, q.limit, offset));
          assert WrittenAll(items) == WrittenAll(sorted)[offset..end];
          PageOrder(db, q, sorted, offset, end);
        }
      } else {
        r := Ok(QueryResult([], |sorted|, q.limit, offset));
      }
      querying := false;
    }

    /** The matching records of the index, in whatever order the map yields them. */
    method Matching(q: Query) returns (matched: seq<Payload>)
      requires Valid()
      ensures forall i, j :: 0 <= i < j < |matched| ==> matched[i].hash != matched[j].hash
      ensures forall p :: p in matched <==> p.hash in dashboard && dashboard[p.hash] == p && Matches(q, p)
    {
      matched := [];
      var rest := dashboard.Keys;
      assert forall h :: h in dashboard ==> Written(dashboard[h]).hash == Written(db[h]).hash == h;
      while rest != {}
        invariant rest <= dashboard.Keys
        invariant forall i, j :: 0 <= i < j < |matched| ==> matched[i].hash != matched[j].hash
        invariant forall p :: p in matched <==> (p.hash in dashboard && p.hash !in rest && dashboard[p.hash] == p
                                                 && Matches(q, p))
        decreases rest
      {
        var h :| h in rest;
        var p := dashboard[h];
        if Matches(q, p) { matched := matched + [p]; }
        rest := rest - {h};
      }
    }

    method SortPayloads(q: Query, matched: seq<Payload>) returns (sorted: seq<Payload>)
      requires Valid()
      requires forall i, j :: 0 <= i < j < |matched| ==> matched[i].hash != matched[j].hash
      requires forall p :: p in matched <==> p.hash in dashboard && dashboard[p.hash] == p && Matches(q, p)
      ensures IsScan(db, q, WrittenAll(sorted))
    {
      var less := Comparator(q);
      ComparatorOrders(q);
      assert TotalOn(less, Elements(matched)) by {
        forall a, b | a in Elements(matched) && b in Elements(matched) && a != b
          ensures less(a, b) || less(b, a)
        {
          assert a.hash != b.hash;
        }
      }
      SortOk(matched, less);
      sorted := Sort(matched, less);
      WrittenSorted(q, sorted);
      ScanElements(dashboard, db, q, sorted);
    }
  }

  /** A record reads back as written: at once, after another put of it has failed, and after
      the store has been reopened; other records read as before. */
  method PutThenGet(store: Store, p: Payload, other: Hash)
    returns (ok: bool, mine: Result<Payload, Error>, theirs: Result<Payload, Error>)
    requires store.Valid()
    modifies store
    ensures store.Valid() && ok && mine.Ok?
    ensures mine.value.hash == p.hash && mine.value.etag == p.etag && mine.value.checksum == p.checksum
            && mine.value.size == p.size && mine.value.cached == p.cached && mine.value.createdAt == p.createdAt
            && mine.value.lastAccessedAt == p.lastAccessedAt && mine.value.legacyChecksum == ""
    ensures other != p.hash ==>
              theirs == if other in old(store.db) then Ok(old(store.db)[other]) else Err(NotFound)
    ensures other == p.hash ==> theirs == mine
  {
    ok := store.PutPayload(p, false);
    var failed := store.PutPayload(p.(size := p.size + 1), true);
    store.Reopen();
    mine := store.GetPayload(p.hash);
    theirs := store.GetPayload(other);
  }

  lemma Removed(m: Records, h: Hash)
    requires h in m
    ensures |m - {h}| == |m| - 1
    ensures |CachedHashes(m)| == |CachedHashes(m - {h})| + if m[h].cached then 1 else 0
  {
    assert (m - {h}).Keys == m.Keys - {h};
    assert CachedHashes(m) == CachedHashes(m - {h}) + if m[h].cached then {h} else {};
  }

  lemma {:induction false} WrittenSorted(q: Query, items: seq<Payload>)
    requires Sorted(items, Comparator(q))
    ensures Sorted(WrittenAll(items), Comparator(q))
  {
    if items != [] {
      ComparatorOrders(q);
      WrittenSorted(q, items[1..]);
      assert WrittenAll(items)[1..] == WrittenAll(items[1..]);
      forall b | b in WrittenAll(items[1..])
        ensures Comparator(q)(Written(items[0]), b)
      {
        var i :| 0 <= i < |items[1..]| && b == Written(items[1..][i]);
        assert items[1..][i] in items[1..];
      }
    }
  }

  lemma ScanElements(index: Records, db: Records, q: Query, items: seq<Payload>)
    requires Mirrors(index, db)
    requires forall p :: p in Elements(items) <==> p.hash in index && index[p.hash] == p && Matches(q, p)
    ensures Elements(WrittenAll(items)) == set h | h in db && Matches(q, db[h]) :: Written(db[h])
  {
    var scan := set h | h in db && Matches(q, db[h]) :: Written(db[h]);
    forall x
      ensures x in WrittenAll(items) <==> x in scan
    {
      if x in WrittenAll(items) {
        var i :| 0 <= i < |items| && x == Written(items[i]);
        assert items[i] in Elements(items);
        assert Written(index[items[i].hash]) == Written(db[items[i].hash]);
        MatchesWritten(q, items[i]);
        MatchesWritten(q, db[items[i].hash]);
      }
      if x in scan {
        var h :| h in db && Matches(q, db[h]) && x == Written(db[h]);
        MatchesWritten(q, index[h]);
        MatchesWritten(q, db[h]);
        assert Written(index[h]).hash == h;
        assert index[h] in Elements(items);
        var i :| 0 <= i < |items| && items[i] == index[h];
        assert WrittenAll(items)[i] == x;
      }
    }
  }

  lemma MatchesWritten(q: Query, p: Payload)
    ensures Matches(q, p) <==> Matches(q, Written(p))
  {
  }
}
