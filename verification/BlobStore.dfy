/** The bounded disk cache of internal/blobstore/store.go: staged files, publish-once and
    oldest-first eviction. The file system is a map of cache files and a map of staging files. */
module BlobStore {
  import opened Base
  import opened Sorting

  type Path = string
  type TmpId = nat

  /** modTime is set when the bytes are staged; linking keeps it. */
  datatype File = File(data: Bytes, modTime: int)

  type Files = map<Path, File>

  datatype Error = InvalidHash | InvalidChecksum | ChecksumMismatch | InvalidStaged | NotExist | IO

  datatype Info = Info(hash: Hash, checksum: Checksum, size: nat, created: bool)

  predicate IsHex(c: char) { '0' <= c <= '9' || 'a' <= c <= 'f' || 'A' <= c <= 'F' }

  predicate ValidHash(h: Hash) { |h| == 40 && forall c | c in h :: IsHex(c) }

  predicate ValidChecksum(c: Checksum) { |c| == 8 && forall d | d in c :: '0' <= d <= '9' || 'a' <= d <= 'f' }

  function RelativePath(h: Hash): Path
    requires ValidHash(h)
  {
    "blobs/" + h[..2] + "/" + h[2..4] + "/" + h + ".upayload"
  }

  /** Each hash has its own cache file. */
  lemma RelativePathInjective(a: Hash, b: Hash)
    requires ValidHash(a) && ValidHash(b) && RelativePath(a) == RelativePath(b)
    ensures a == b
  {
    assert RelativePath(a)[12..52] == a;
    assert RelativePath(b)[12..52] == b;
  }

  // ----- eviction

  datatype CacheFile = CacheFile(path: Path, size: nat, modTime: int)

  predicate Older(a: CacheFile, b: CacheFile) {
    if a.modTime != b.modTime then a.modTime < b.modTime else LexLess(a.path, b.path)
  }

  ghost function EntryAt(files: Files, p: Path): CacheFile
    requires p in files
  {
    CacheFile(p, |files[p].data|, files[p].modTime)
  }

  /** What WalkDir finds. */
  ghost function EntriesOf(files: Files): set<CacheFile> {
    set p | p in files :: EntryAt(files, p)
  }

  function Total(entries: seq<CacheFile>): nat {
    if entries == [] then 0 else entries[0].size + Total(entries[1..])
  }

  /** How many of the entries, first ones first, must go until the rest fits. */
  function Excess(entries: seq<CacheFile>, maxBytes: nat): nat {
    if Total(entries) <= maxBytes then 0 else 1 + Excess(entries[1..], maxBytes)
  }

  ghost function PathSet(entries: seq<CacheFile>): set<Path> { set e | e in entries :: e.path }

  /** How many are removed when removal number fails, counted from zero, fails. */
  function Removals(entries: seq<CacheFile>, maxBytes: nat, fails: Option<nat>): nat {
    var n := Excess(entries, maxBytes);
    if fails.Some? && fails.value < n then fails.value else n
  }

  /** after is before without the shortest oldest-first prefix whose removal brings the total
      within the limit, or without the part of it that went before a failure; a limit of zero
      or less keeps everything. */
  ghost predicate Evicts(before: Files, after: Files, maxBytes: int, fails: Option<nat>) {
    if maxBytes <= 0 then after == before
    else exists order :: EvictsInOrder(before, after, maxBytes, fails, order)
  }

  ghost predicate EvictsInOrder(before: Files, after: Files, maxBytes: nat, fails: Option<nat>, order: seq<CacheFile>) {
    && Sorted(order, Older)
    && Elements(order) == EntriesOf(before)
    && Removals(order, maxBytes, fails) <= |order|
    && after == before - PathSet(order[..Removals(order, maxBytes, fails)])
  }

  lemma OlderIsStrict()
    ensures StrictOrder(Older)
  {
    forall a: CacheFile
      ensures !Older(a, a)
    {
      LexTrichotomy(a.path, a.path);
    }
    forall a: CacheFile, b: CacheFile, c: CacheFile | Older(a, b) && Older(b, c)
      ensures Older(a, c)
    {
      if a.modTime == b.modTime && b.modTime == c.modTime { LexTransitive(a.path, b.path, c.path); }
    }
  }

  lemma OlderIsTotal(files: Files)
    ensures TotalOn(Older, EntriesOf(files))
  {
    forall a, b | a in EntriesOf(files) && b in EntriesOf(files) && a != b
      ensures Older(a, b) || Older(b, a)
    {
      LexTrichotomy(a.path, b.path);
    }
  }

  /** The outcome of an eviction does not depend on the order of the directory walk. */
  lemma EvictionIsDetermined(before: Files, a: Files, b: Files, maxBytes: int, fails: Option<nat>)
    requires Evicts(before, a, maxBytes, fails) && Evicts(before, b, maxBytes, fails)
    ensures a == b
  {
    if maxBytes > 0 {
      var x :| EvictsInOrder(before, a, maxBytes, fails, x);
      var y :| EvictsInOrder(before, b, maxBytes, fails, y);
      OlderIsStrict();
      SortedUnique(x, y, Older);
    }
  }

  lemma {:induction false} ExcessExact(entries: seq<CacheFile>, maxBytes: nat)
    ensures var n := Excess(entries, maxBytes);
            && n <= |entries|
            && Total(entries[n..]) <= maxBytes
            && forall k | 0 <= k < n :: Total(entries[k..]) > maxBytes
    decreases |entries|
  {
    if Total(entries) > maxBytes {
      ExcessExact(entries[1..], maxBytes);
      var n := Excess(entries, maxBytes);
      assert entries[1..][n - 1..] == entries[n..];
      forall k | 0 <= k < n
        ensures Total(entries[k..]) > maxBytes
      {
        if k > 0 { assert entries[1..][k - 1..] == entries[k..]; } else { assert entries[0..] == entries; }
      }
    } else {
      assert entries[0..] == entries;
    }
  }

  /** The bytes of all files together. */
  ghost function FilesSize(files: Files): nat {
    if files == map[] then 0 else var p :| p in files; |files[p].data| + FilesSize(files - {p})
  }

  lemma {:induction false} SizeWithout(files: Files, p: Path)
    requires p in files
    ensures FilesSize(files) == |files[p].data| + FilesSize(files - {p})
  {
    var q :| q in files && FilesSize(files) == |files[q].data| + FilesSize(files - {q});
    if q != p {
      SizeWithout(files - {q}, p);
      SizeWithout(files - {p}, q);
      assert files - {q} - {p} == files - {p} - {q};
    }
  }

  lemma EntryPaths(files: Files)
    ensures (set e | e in EntriesOf(files) :: e.path) == files.Keys
  {
    forall p | p in files
      ensures exists e :: e in EntriesOf(files) && e.path == p
    {
      assert EntryAt(files, p) in EntriesOf(files);
    }
  }

  lemma {:induction false} TotalIsSize(files: Files, order: seq<CacheFile>)
    requires Sorted(order, Older) && Elements(order) == EntriesOf(files)
    ensures Total(order) == FilesSize(files)
    decreases |order|
  {
    if order == [] {
      EntryPaths(files);
      assert EntriesOf(files) == {};
      assert files.Keys == {};
    } else {
      OlderIsStrict();
      assert order[0] in Elements(order);
      var p := order[0].path;
      SuffixSorted(order, 1);
      SuffixElements(files, order, 1);
      assert PathSet(order[..1]) == {p};
      TotalIsSize(files - {p}, order[1..]);
      SizeWithout(files, p);
    }
  }

  /** Unless a removal failed the files that are kept are within the limit together. */
  lemma EvictionFits(before: Files, after: Files, maxBytes: int)
    requires Evicts(before, after, maxBytes, None) && maxBytes > 0
    ensures FilesSize(after) <= maxBytes
  {
    var order: seq<CacheFile> :| EvictsInOrder(before, after, maxBytes, None, order);
    var n := Excess(order, maxBytes);
    ExcessExact(order, maxBytes);
    SuffixSize(before, order, n);
  }

  /** Nothing is dropped when everything fits, or without a limit. */
  lemma NoNeedlessEviction(before: Files, after: Files, maxBytes: int, fails: Option<nat>)
    requires Evicts(before, after, maxBytes, fails) && (maxBytes <= 0 || FilesSize(before) <= maxBytes)
    ensures after == before
  {
    if maxBytes > 0 {
      var order: seq<CacheFile> :| EvictsInOrder(before, after, maxBytes, fails, order);
      TotalIsSize(before, order);
      assert PathSet(order[..0]) == {};
    }
  }

  /** A published payload is in the cache when it is new and everything fits. */
  lemma PublishedIsCached(before: Files, after: Files, path: Path, file: File, maxBytes: int)
    requires PublishEffect(before, after, path, file, maxBytes, NoPublishFault) && path !in before
    requires maxBytes <= 0 || FilesSize(before[path := file]) <= maxBytes
    ensures after == before[path := file]
  {
    NoNeedlessEviction(before[path := file], after, maxBytes, None);
  }

  /** Where a file stands in the order: among the first n exactly when it is dropped with them. */
  lemma Position(before: Files, order: seq<CacheFile>, n: nat, p: Path) returns (i: nat)
    requires Sorted(order, Older) && Elements(order) == EntriesOf(before) && n <= |order| && p in before
    ensures i < |order| && order[i] == EntryAt(before, p)
    ensures i < n <==> p in PathSet(order[..n])
  {
    assert EntryAt(before, p) in Elements(order);
    i :| 0 <= i < |order| && order[i] == EntryAt(before, p);
    if i < n {
      assert order[..n][i] == order[i];
    } else if p in PathSet(order[..n]) {
      var k :| 0 <= k < n && order[k].path == p;
      assert order[k] in Elements(order);
      OlderIsStrict();
      SortedPairs(order, Older, k, i);
    }
  }

  /** The youngest file dropped could not have been kept: with it the limit would be exceeded. */
  lemma EvictionIsLeast(before: Files, after: Files, maxBytes: int, fails: Option<nat>) returns (youngest: Path)
    requires Evicts(before, after, maxBytes, fails) && after != before
    ensures youngest in before && youngest !in after
    ensures FilesSize(after[youngest := before[youngest]]) > maxBytes
    ensures forall p :: p in before && p !in after ==>
                          before[p].modTime <= before[youngest].modTime
                          && (before[p].modTime == before[youngest].modTime ==> p == youngest || LexLess(p, youngest))
  {
    var order: seq<CacheFile> :| EvictsInOrder(before, after, maxBytes, fails, order);
    var n := Removals(order, maxBytes, fails);
    assert PathSet(order[..0]) == {};
    youngest := LastRemoved(before, after, maxBytes, order, n);
    forall p | p in before && p !in after
      ensures p == youngest || Older(EntryAt(before, p), EntryAt(before, youngest))
    {
      var i := Position(before, order, n, p);
      if i < n - 1 { SortedPairs(order, Older, i, n - 1); }
    }
  }

  lemma LastRemoved(before: Files, after: Files, maxBytes: nat, order: seq<CacheFile>, n: nat) returns (p: Path)
    requires Sorted(order, Older) && Elements(order) == EntriesOf(before)
    requires 0 < n <= Excess(order, maxBytes) && n <= |order| && after == before - PathSet(order[..n])
    ensures p in before && p !in after && order[n - 1] == EntryAt(before, p)
    ensures FilesSize(after[p := before[p]]) > maxBytes
  {
    assert order[n - 1] in Elements(order);
    p := order[n - 1].path;
    LastStays(before, order, n);
    NextPath(order, n - 1);
    PutBack(before, PathSet(order[..n - 1]), p);
    SuffixSize(before, order, n - 1);
    ExcessExact(order, maxBytes);
  }

  lemma LastStays(before: Files, order: seq<CacheFile>, n: nat)
    requires Sorted(order, Older) && Elements(order) == EntriesOf(before) && 0 < n <= |order|
    ensures order[n - 1].path !in PathSet(order[..n - 1])
  {
    SuffixElements(before, order, n - 1);
    assert order[n - 1..][0] in Elements(order[n - 1..]);
  }

  lemma PutBack(before: Files, gone: set<Path>, p: Path)
    requires p in before && p !in gone
    ensures before - gone == (before - (gone + {p}))[p := before[p]]
  {}

  /** The size of what is left after the first n. */
  lemma SuffixSize(before: Files, order: seq<CacheFile>, n: nat)
    requires Sorted(order, Older) && Elements(order) == EntriesOf(before) && n <= |order|
    ensures FilesSize(before - PathSet(order[..n])) == Total(order[n..])
  {
    SuffixSorted(order, n);
    SuffixElements(before, order, n);
    TotalIsSize(before - PathSet(order[..n]), order[n..]);
  }

  /** No file is dropped while an older one is kept: files are dropped by their modification
      time, oldest first, and by their path at equal times. */
  lemma EvictionIsOldestFirst(before: Files, after: Files, maxBytes: int, fails: Option<nat>, dropped: Path, kept: Path)
    requires Evicts(before, after, maxBytes, fails)
    requires dropped in before && dropped !in after && kept in after
    ensures kept in before && after[kept] == before[kept]
    ensures before[dropped].modTime <= before[kept].modTime
    ensures before[dropped].modTime == before[kept].modTime ==> LexLess(dropped, kept)
  {
    var order: seq<CacheFile> :| EvictsInOrder(before, after, maxBytes, fails, order);
    var n := Removals(order, maxBytes, fails);
    var i := Position(before, order, n, dropped);
    var j := Position(before, order, n, kept);
    SortedPairs(order, Older, i, j);
  }

  // ----- the store

  /** A verified payload that is not yet published; Discard and Publish clear path. */
  class Staged {
    const hash: Hash
    const checksum: Checksum
    const size: nat
    var path: Option<TmpId>

    constructor (hash: Hash, checksum: Checksum, size: nat, path: TmpId)
      ensures this.hash == hash && this.checksum == checksum && this.size == size && this.path == Some(path)
    {
      this.hash, this.checksum, this.size, this.path := hash, checksum, size, Some(path);
    }
  }

  datatype StageFault = NoStageFault | BeforeTemp | AfterTemp(written: nat)

  /** LinkFails: the directory cannot be made, the link fails, or an existing file cannot be
      compared; SyncFails, WalkFails and EvictFails happen after the link, the last one at a
      removal. */
  datatype PublishFault = NoPublishFault | LinkFails | SyncFails | WalkFails | EvictFails(removal: nat)

  function FailingRemoval(fault: PublishFault): Option<nat> {
    if fault.EvictFails? then Some(fault.removal) else None
  }

  /** What Publish does to the cache files. */
  ghost predicate PublishEffect(before: Files, after: Files, path: Path, file: File, maxBytes: int,
                                fault: PublishFault) {
    if fault.LinkFails? || path in before then after == before
    else if fault.SyncFails? || fault.WalkFails? then after == before[path := file]
    else Evicts(before[path := file], after, maxBytes, FailingRemoval(fault))
  }

  /** Publish links the file and removes the staging file. */
  predicate Consumes(before: Files, path: Path, fault: PublishFault) {
    path !in before && !fault.LinkFails? && !fault.SyncFails?
  }

  /** The cache is within its limit, if it has one. */
  ghost predicate Fits(files: Files, maxBytes: int) { maxBytes <= 0 || FilesSize(files) <= maxBytes }

  /** Publish succeeds: an existing file has the payload's size and checksum, or the file was
      linked durably and the cache is within its limit again. */
  ghost predicate Published(crc: Bytes -> Checksum, before: Files, after: Files, path: Path, size: nat,
                            checksum: Checksum, maxBytes: int, fault: PublishFault) {
    && !fault.LinkFails?
    && if path in before then |before[path].data| == size && crc(before[path].data) == checksum
       else !fault.SyncFails? && !fault.WalkFails? && Fits(after, maxBytes)
  }

  class Store {
    const crc: Bytes -> Checksum
    const maxCacheBytes: int
    var blobs: Files
    var tmp: map<TmpId, File>

    constructor (crc: Bytes -> Checksum, maxCacheBytes: int)
      ensures this.crc == crc && this.maxCacheBytes == maxCacheBytes && blobs == map[] && tmp == map[]
    {
      this.crc, this.maxCacheBytes, blobs, tmp := crc, maxCacheBytes, map[], map[];
    }

    /** id is the name CreateTemp draws; every failure removes the staging file again. */
    method Stage(hash: Hash, checksum: Checksum, body: Bytes, id: TmpId, now: int, fault: StageFault)
      returns (r: Result<Staged, Error>)
      requires id !in tmp
      modifies this`tmp
      ensures r.Ok? <==> ValidHash(hash) && ValidChecksum(checksum) && fault.NoStageFault? && crc(body) == checksum
      ensures r.Ok? ==>
                && fresh(r.value) && r.value.hash == hash && r.value.checksum == checksum
                && r.value.size == |body| && r.value.path == Some(id)
                && tmp == old(tmp)[id := File(body, now)]
      ensures r.Err? ==> tmp == old(tmp)
    {
      if !ValidHash(hash) { return Err(InvalidHash); }
      if !ValidChecksum(checksum) { return Err(InvalidChecksum); }
      if fault.BeforeTemp? { return Err(IO); }
      tmp := tmp[id := File([], now)];
      if fault.AfterTemp? {
        tmp := tmp[id := File(body[..if fault.written <= |body| then fault.written else |body|], now)];
        tmp := tmp - {id};
        return Err(IO);
      }
      tmp := tmp[id := File(body, now)];
      if crc(body) != checksum {
        tmp := tmp - {id};
        return Err(ChecksumMismatch);
      }
      var staged := new Staged(hash, checksum, |body|, id);
      return Ok(staged);
    }

    /** Links the staged file once; an existing cache file is compared and left alone. */
    method Publish(staged: Staged, fault: PublishFault) returns (r: Result<Info, Error>)
      requires ValidHash(staged.hash)
      requires staged.path.Some? ==> staged.path.value in tmp
      modifies this, staged
      ensures old(staged.path).None? ==> r.Err? && blobs == old(blobs)
      ensures old(staged.path).Some? ==>
                PublishEffect(old(blobs), blobs, RelativePath(staged.hash), old(tmp)[old(staged.path).value],
                              maxCacheBytes, fault)
      ensures r.Ok? <==>
                && old(staged.path).Some?
                && Published(crc, old(blobs), blobs, RelativePath(staged.hash), staged.size, staged.checksum,
                             maxCacheBytes, fault)
      ensures r.Ok? ==>
                r.value == Info(staged.hash, staged.checksum, staged.size, RelativePath(staged.hash) !in old(blobs))
      ensures if old(staged.path).Some? && Consumes(old(blobs), RelativePath(staged.hash), fault)
              then staged.path.None? && tmp == old(tmp) - {old(staged.path).value}
              else staged.path == old(staged.path) && tmp == old(tmp)
    {
      if staged.path.None? { return Err(InvalidStaged); }
      var target := RelativePath(staged.hash);
      if fault.LinkFails? { return Err(IO); }
      if target in blobs {
        var cached := blobs[target].data;
        if |cached| != staged.size { return Err(ChecksumMismatch); }
        if crc(cached) != staged.checksum { return Err(ChecksumMismatch); }
        return Ok(Info(staged.hash, staged.checksum, |cached|, false));
      }
      blobs := blobs[target := tmp[staged.path.value]];
      if fault.SyncFails? { return Err(IO); }
      tmp := tmp - {staged.path.value};
      staged.path := None;
      if fault.WalkFails? { return Err(IO); }
      var evicted := Evict(FailingRemoval(fault));
      if !evicted { return Err(IO); }
      return Ok(Info(staged.hash, staged.checksum, staged.size, true));
    }

    /** Removes the staging file; safe to call repeatedly. */
    method Discard(staged: Staged)
      modifies this`tmp, staged
      ensures staged.path.None?
      ensures tmp == if old(staged.path).Some? then old(tmp) - {old(staged.path).value} else old(tmp)
    {
      if staged.path.None? { return; }
      tmp := tmp - {staged.path.value};
      staged.path := None;
    }

    /** Stage, then Publish, with the deferred Discard: no staging file is left behind. */
    method Put(hash: Hash, checksum: Checksum, body: Bytes, id: TmpId, now: int,
               stageFault: StageFault, publishFault: PublishFault) returns (r: Result<Info, Error>)
      requires id !in tmp
      modifies this
      ensures tmp == old(tmp)
      ensures r.Ok? <==>
                && ValidHash(hash) && ValidChecksum(checksum) && stageFault.NoStageFault? && crc(body) == checksum
                && Published(crc, old(blobs), blobs, RelativePath(hash), |body|, checksum, maxCacheBytes, publishFault)
      ensures r.Ok? ==> r.value == Info(hash, checksum, |body|, RelativePath(hash) !in old(blobs))
      ensures if ValidHash(hash) && ValidChecksum(checksum) && stageFault.NoStageFault? && crc(body) == checksum
              then PublishEffect(old(blobs), blobs, RelativePath(hash), File(body, now), maxCacheBytes, publishFault)
              else r.Err? && blobs == old(blobs)
    {
      var staged := Stage(hash, checksum, body, id, now, stageFault);
      if staged.Err? { return Err(staged.error); }
      r := Publish(staged.value, publishFault);
      Discard(staged.value);
      assert tmp == old(tmp);
    }

    method Exists(hash: Hash) returns (r: Result<Option<nat>, Error>)
      ensures r == if !ValidHash(hash) then Err(InvalidHash)
                   else Ok(if RelativePath(hash) in blobs then Some(|blobs[RelativePath(hash)].data|) else None)
    {
      if !ValidHash(hash) { return Err(InvalidHash); }
      var path := RelativePath(hash);
      if path !in blobs { return Ok(None); }
      return Ok(Some(|blobs[path].data|));
    }

    method Open(hash: Hash) returns (r: Result<Bytes, Error>)
      ensures r == if !ValidHash(hash) then Err(InvalidHash)
                   else if RelativePath(hash) in blobs then Ok(blobs[RelativePath(hash)].data) else Err(NotExist)
    {
      if !ValidHash(hash) { return Err(InvalidHash); }
      var path := RelativePath(hash);
      if path !in blobs { return Err(NotExist); }
      return Ok(blobs[path].data);
    }

    /** WalkDir: the cache files in some order, and their total size. */
    method Walk() returns (entries: seq<CacheFile>, total: nat)
      ensures Elements(entries) == EntriesOf(blobs) && total == Total(entries)
      ensures forall i, j :: 0 <= i < j < |entries| ==> entries[i] != entries[j]
    {
      entries, total := [], 0;
      var rest := blobs.Keys;
      while rest != {}
        invariant rest <= blobs.Keys
        invariant forall e :: e in entries <==> e.path in blobs && e.path !in rest && e == EntryAt(blobs, e.path)
        invariant total == Total(entries)
        invariant forall i, j :: 0 <= i < j < |entries| ==> entries[i] != entries[j]
        decreases rest
      {
        var p :| p in rest;
        var e := CacheFile(p, |blobs[p].data|, blobs[p].modTime);
        assert e !in entries;
        entries, total := [e] + entries, total + e.size;
        rest := rest - {p};
      }
    }

    method Evict(fails: Option<nat>) returns (ok: bool)
      modifies this`blobs
      ensures Evicts(old(blobs), blobs, maxCacheBytes, fails)
      ensures ok <==> Fits(blobs, maxCacheBytes)
      ensures fails.None? ==> ok
    {
      if maxCacheBytes <= 0 { return true; }
      var entries, total := Walk();
      OlderIsStrict();
      OlderIsTotal(blobs);
      SortOk(entries, Older);
      var order := Sort(entries, Older);
      SortTotal(entries);
      ok := RemoveExcess(order, total, fails);
      assert EvictsInOrder(old(blobs), blobs, maxCacheBytes, fails, order);
      RemainderFits(old(blobs), blobs, maxCacheBytes, order, Removals(order, maxCacheBytes, fails));
    }

    /** The removal loop of evict. */
    method RemoveExcess(order: seq<CacheFile>, total0: nat, fails: Option<nat>) returns (ok: bool)
      requires total0 == Total(order) && maxCacheBytes > 0
      modifies this`blobs
      ensures Removals(order, maxCacheBytes, fails) <= |order|
      ensures blobs == old(blobs) - PathSet(order[..Removals(order, maxCacheBytes, fails)])
      ensures ok <==> Removals(order, maxCacheBytes, fails) == Excess(order, maxCacheBytes)
    {
      var total, i := total0, 0;
      assert order[0..] == order;
      ExcessFrom(order, maxCacheBytes, 0);
      while total > maxCacheBytes
        invariant i <= Excess(order, maxCacheBytes) <= |order|
        invariant total > maxCacheBytes <==> i < Excess(order, maxCacheBytes)
        invariant fails.Some? ==> i <= fails.value
        invariant total == Total(order[i..])
        invariant blobs == old(blobs) - PathSet(order[..i])
        decreases |order| - i
      {
        if fails == Some(i) { return false; }
        NextPath(order, i);
        ExcessFrom(order, maxCacheBytes, i + 1);
        blobs := blobs - {order[i].path};
        total := total - order[i].size;
        i := i + 1;
      }
      ok := true;
    }
  }

  lemma {:induction false} SuffixSorted(order: seq<CacheFile>, n: nat)
    requires n <= |order| && Sorted(order, Older)
    ensures Sorted(order[n..], Older)
  {
    if n > 0 {
      SuffixSorted(order[1..], n - 1);
      assert order[1..][n - 1..] == order[n..];
    } else {
      assert order[0..] == order;
    }
  }

  /** The files after the removals are those not removed. */
  lemma SuffixElements(before: Files, order: seq<CacheFile>, n: nat)
    requires Sorted(order, Older) && Elements(order) == EntriesOf(before) && n <= |order|
    ensures Elements(order[n..]) == EntriesOf(before - PathSet(order[..n]))
  {
    OlderIsStrict();
    var after := before - PathSet(order[..n]);
    forall i | 0 <= i < |order|
      ensures order[i].path in before && order[i] == EntryAt(before, order[i].path)
      ensures order[i].path in PathSet(order[..n]) <==> i < n
    {
      assert order[i] in Elements(order);
      if i < n {
        assert order[..n][i] == order[i];
      } else if order[i].path in PathSet(order[..n]) {
        var e :| e in order[..n] && e.path == order[i].path;
        var k :| 0 <= k < n && order[k] == e;
        assert e in Elements(order);
        SortedPairs(order, Older, k, i);
      }
    }
    forall e
      ensures e in Elements(order[n..]) <==> e in EntriesOf(after)
    {
      if e in Elements(order[n..]) {
        var i :| n <= i < |order| && order[i] == e;
        assert e.path in after;
      }
      if e in EntriesOf(after) {
        assert e in EntriesOf(before);
        assert e in Elements(order);
        var i :| 0 <= i < |order| && order[i] == e;
        assert e == order[n..][i - n];
      }
    }
  }

  /** The cache is within its limit afterwards exactly when all of the excess went. */
  lemma RemainderFits(before: Files, after: Files, maxBytes: nat, order: seq<CacheFile>, n: nat)
    requires maxBytes > 0 && Sorted(order, Older) && Elements(order) == EntriesOf(before)
    requires n <= Excess(order, maxBytes) && n <= |order| && after == before - PathSet(order[..n])
    ensures Fits(after, maxBytes) <==> n == Excess(order, maxBytes)
  {
    ExcessFrom(order, maxBytes, n);
    SuffixSize(before, order, n);
  }

  /** What a successful Put leaves in the cache, if it is not evicted at once, is what Open
      then returns: bytes of the payload's size and checksum, the payload itself when the file
      is new. */
  method PutThenOpen(store: Store, hash: Hash, checksum: Checksum, body: Bytes, id: TmpId, now: int,
                     stageFault: StageFault, publishFault: PublishFault)
    returns (put: Result<Info, Error>, read: Result<Bytes, Error>)
    requires id !in store.tmp
    modifies store
    ensures put.Ok? ==> ValidHash(hash)
    ensures put.Ok? ==> (read.Ok? <==> RelativePath(hash) in store.blobs)
    ensures put.Ok? && read.Ok? ==> |read.value| == |body| && store.crc(read.value) == checksum
    ensures put.Ok? && read.Ok? && put.value.created ==> read.value == body
    ensures put.Ok? && !put.value.created ==> read.Ok?
  {
    put := store.Put(hash, checksum, body, id, now, stageFault, publishFault);
    read := store.Open(hash);
  }

  lemma NextPath(order: seq<CacheFile>, i: nat)
    requires i < |order|
    ensures PathSet(order[..i + 1]) == PathSet(order[..i]) + {order[i].path}
    ensures Total(order[i..]) == order[i].size + Total(order[i + 1..])
  {
    assert order[..i + 1] == order[..i] + [order[i]];
    assert order[i..][1..] == order[i + 1..];
  }

  lemma {:induction false} InsertTotal(s: seq<CacheFile>, x: CacheFile)
    ensures Total(Insert(s, x, Older)) == Total(s) + x.size
  {
    if s == [] || Older(x, s[0]) {
      assert ([x] + s)[1..] == s;
    } else {
      InsertTotal(s[1..], x);
      assert Insert(s, x, Older)[1..] == Insert(s[1..], x, Older);
    }
  }

  lemma {:induction false} SortTotal(items: seq<CacheFile>)
    ensures Total(Sort(items, Older)) == Total(items)
  {
    if items != [] {
      SortTotal(items[1..]);
      InsertTotal(Sort(items[1..], Older), items[0]);
    }
  }

  /** The loop stops exactly after Excess entries. */
  lemma ExcessFrom(entries: seq<CacheFile>, maxBytes: nat, i: nat)
    requires i <= Excess(entries, maxBytes) && i <= |entries|
    ensures Excess(entries, maxBytes) <= |entries|
    ensures Total(entries[i..]) > maxBytes <==> i < Excess(entries, maxBytes)
  {
    ExcessExact(entries, maxBytes);
  }
}
