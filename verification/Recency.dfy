/** The recency sequence that the memory cache of internal/cache/cache.go refines. */
module Recency {
  import opened Base

  type Key = string

  datatype Entry = Entry(key: Key, data: Bytes)

  /** Most recent entry first. */
  type Entries = seq<Entry>

  function Size(es: Entries): nat {
    if es == [] then 0 else |es[0].data| + Size(es[1..])
  }

  predicate Has(es: Entries, key: Key) { exists i :: 0 <= i < |es| && es[i].key == key }

  ghost predicate DistinctKeys(es: Entries) {
    es == [] || (!Has(es[1..], es[0].key) && DistinctKeys(es[1..]))
  }

  function Without(es: Entries, key: Key): Entries {
    if es == [] then []
    else if es[0].key == key then Without(es[1..], key)
    else [es[0]] + Without(es[1..], key)
  }

  /** Drop least recent entries until the rest fits. */
  function Trim(es: Entries, maxBytes: nat): Entries
    decreases |es|
  {
    if Size(es) <= maxBytes then es else Trim(es[..|es| - 1], maxBytes)
  }

  /** An entry added, evicting what no longer fits. */
  function Added(es: Entries, maxBytes: nat, e: Entry): Entries {
    Trim([e] + Without(es, e.key), maxBytes)
  }

  function Find(es: Entries, key: Key): (i: nat)
    requires Has(es, key)
    ensures i < |es| && es[i].key == key
  {
    if es[0].key == key then 0
    else
      assert Has(es[1..], key) by {
        var i :| 0 <= i < |es| && es[i].key == key;
        assert es[1..][i - 1].key == key;
      }
      1 + Find(es[1..], key)
  }

  /** An entry read. */
  function Touched(es: Entries, key: Key): Entries {
    if Has(es, key) then [es[Find(es, key)]] + Without(es, key) else es
  }

  // ----- sizes

  lemma {:induction false} SizeConcat(a: Entries, b: Entries)
    ensures Size(a + b) == Size(a) + Size(b)
  {
    if a == [] {
      assert a + b == b;
    } else {
      assert (a + b)[1..] == a[1..] + b;
      SizeConcat(a[1..], b);
    }
  }

  lemma SizePrefix(es: Entries, n: nat)
    requires n <= |es|
    ensures Size(es[..n]) <= Size(es)
  {
    assert es == es[..n] + es[n..];
    SizeConcat(es[..n], es[n..]);
  }

  // ----- eviction

  /** Trim keeps the longest prefix within the budget: eviction takes the fewest least recent
      entries, and none while an older one stays. */
  lemma {:induction false} TrimIsLongestPrefix(es: Entries, maxBytes: nat)
    ensures Trim(es, maxBytes) <= es
    ensures Size(Trim(es, maxBytes)) <= maxBytes
    ensures forall n | 0 <= n <= |es| :: Size(es[..n]) <= maxBytes <==> n <= |Trim(es, maxBytes)|
    decreases |es|
  {
    if Size(es) <= maxBytes {
      forall n | 0 <= n <= |es|
        ensures Size(es[..n]) <= maxBytes
      {
        SizePrefix(es, n);
      }
    } else {
      var shorter := es[..|es| - 1];
      TrimIsLongestPrefix(shorter, maxBytes);
      assert es[..|es|] == es;
      assert forall n | 0 <= n < |es| :: es[..n] == shorter[..n];
    }
  }

  lemma {:induction false} WithoutMembers(es: Entries, key: Key)
    ensures forall e :: e in Without(es, key) <==> e in es && e.key != key
  {
    if es != [] {
      WithoutMembers(es[1..], key);
      assert es == [es[0]] + es[1..];
    }
  }

  lemma HasMember(es: Entries, key: Key)
    ensures Has(es, key) <==> exists e :: e in es && e.key == key
  {
    if e :| e in es && e.key == key {
      var i :| 0 <= i < |es| && es[i] == e;
      assert es[i].key == key;
    }
  }

  lemma {:induction false} WithoutDistinct(es: Entries, key: Key)
    requires DistinctKeys(es)
    ensures DistinctKeys(Without(es, key))
  {
    if es != [] {
      var rest := es[1..];
      WithoutDistinct(rest, key);
      WithoutMembers(rest, key);
      HasMember(rest, es[0].key);
      HasMember(Without(rest, key), es[0].key);
      if es[0].key != key { assert Without(es, key)[1..] == Without(rest, key); }
    }
  }

  lemma {:induction false} PrefixDistinct(es: Entries, n: nat)
    requires DistinctKeys(es) && n <= |es|
    ensures DistinctKeys(es[..n])
  {
    if n > 0 {
      PrefixDistinct(es[1..], n - 1);
      assert es[..n][1..] == es[1..][..n - 1];
      assert forall i | 0 <= i < n - 1 :: es[..n][1..][i] == es[1..][i];
    }
  }

  lemma DistinctCons(e: Entry, es: Entries)
    requires DistinctKeys(es) && !Has(es, e.key)
    ensures DistinctKeys([e] + es)
  {
    assert ([e] + es)[1..] == es;
  }

  lemma {:induction false} KeyAt(es: Entries, i: nat)
    requires DistinctKeys(es) && i < |es|
    ensures Has(es, es[i].key) && Find(es, es[i].key) == i
  {
    assert es[i].key == es[i].key;
    if i > 0 {
      KeyAt(es[1..], i - 1);
      assert es[1..][i - 1].key == es[i].key;
      assert es[0].key != es[i].key;
    }
  }

  lemma {:induction false} WithoutAbsent(es: Entries, key: Key)
    requires !Has(es, key)
    ensures Without(es, key) == es
  {
    if es != [] {
      assert es[0].key != key;
      assert forall i | 0 <= i < |es[1..]| :: es[1..][i].key == es[i + 1].key != key;
      WithoutAbsent(es[1..], key);
    }
  }

  lemma WithoutOmits(es: Entries, key: Key)
    requires DistinctKeys(es)
    ensures DistinctKeys(Without(es, key)) && !Has(Without(es, key), key)
    ensures forall e :: e in Without(es, key) <==> e in es && e.key != key
    ensures !Has(es, key) ==> Without(es, key) == es
  {
    WithoutMembers(es, key);
    WithoutDistinct(es, key);
    HasMember(Without(es, key), key);
    if !Has(es, key) { WithoutAbsent(es, key); }
  }

  /** Adding an entry that fits keeps it in front, keeps keys distinct, stays within the
      budget and introduces nothing else. */
  lemma AddedOk(es: Entries, maxBytes: nat, e: Entry)
    requires DistinctKeys(es) && |e.data| <= maxBytes
    ensures var es' := Added(es, maxBytes, e);
            && es' != [] && es'[0] == e
            && Size(es') <= maxBytes
            && DistinctKeys(es')
            && forall x | x in es' :: x == e || (x in es && x.key != e.key)
    ensures Size([e] + Without(es, e.key)) <= maxBytes ==>
              Added(es, maxBytes, e) == [e] + Without(es, e.key)
  {
    var rest := Without(es, e.key);
    var full := [e] + rest;
    WithoutOmits(es, e.key);
    DistinctCons(e, rest);
    TrimIsLongestPrefix(full, maxBytes);
    PrefixDistinct(full, |Trim(full, maxBytes)|);
    assert Trim(full, maxBytes) == full[..|Trim(full, maxBytes)|];
    assert full[..1] == [e] && Size([e]) == |e.data| + Size([]);
  }

  // ----- inclusion

  /** The entries of a cache with limits maxBytes and maxObjectBytes admit this size. */
  predicate CanStore(maxBytes: int, maxObjectBytes: int, size: nat) {
    && maxBytes > 0 && size <= maxBytes
    && (maxObjectBytes <= 0 || size <= maxObjectBytes)
  }

  /** No entry is longer than the cache, or than the limit of one object when there is one. */
  ghost predicate Limited(es: Entries, maxBytes: int, maxObjectBytes: int) {
    forall e | e in es :: |e.data| <= maxBytes && (maxObjectBytes > 0 ==> |e.data| <= maxObjectBytes)
  }

  lemma AddedLimited(es: Entries, maxBytes: nat, maxObjectBytes: int, e: Entry)
    requires Limited(es, maxBytes, maxObjectBytes) && CanStore(maxBytes, maxObjectBytes, |e.data|)
    ensures Limited(Added(es, maxBytes, e), maxBytes, maxObjectBytes)
  {
    WithoutMembers(es, e.key);
    TrimIsLongestPrefix([e] + Without(es, e.key), maxBytes);
    assert forall x | x in Added(es, maxBytes, e) :: x in [e] + Without(es, e.key);
  }

  lemma TouchedMembers(es: Entries, key: Key)
    requires DistinctKeys(es)
    ensures forall e :: e in Touched(es, key) ==> e in es
  {
    WithoutMembers(es, key);
  }

  /** A GET pull of key whose payload is content(key): a hit refreshes the entry, a miss
      fetches and adds it. */
  function Pulled(es: Entries, maxBytes: nat, content: Key -> Bytes, key: Key): Entries {
    if Has(es, key) then Touched(es, key) else Added(es, maxBytes, Entry(key, content(key)))
  }

  /** The cache after the pulls, oldest first, starting empty. */
  function AfterPulls(pulls: seq<Key>, maxBytes: nat, content: Key -> Bytes): Entries {
    if pulls == [] then []
    else Pulled(AfterPulls(pulls[..|pulls| - 1], maxBytes, content), maxBytes, content, pulls[|pulls| - 1])
  }

  function Hits(pulls: seq<Key>, maxBytes: nat, content: Key -> Bytes): nat {
    if pulls == [] then 0
    else
      var before := pulls[..|pulls| - 1];
      Hits(before, maxBytes, content)
      + if Has(AfterPulls(before, maxBytes, content), pulls[|pulls| - 1]) then 1 else 0
  }

  ghost predicate Faithful(es: Entries, content: Key -> Bytes) {
    DistinctKeys(es) && forall e | e in es :: e.data == content(e.key)
  }

  lemma {:induction false} WithoutPrefix(a: Entries, b: Entries, key: Key)
    requires a <= b
    ensures Without(a, key) <= Without(b, key)
  {
    if a != [] {
      WithoutPrefix(a[1..], b[1..], key);
    }
  }

  lemma {:induction false} WithoutAbsentPrefix(a: Entries, b: Entries, key: Key)
    requires a <= b && !Has(a, key)
    ensures a <= Without(b, key)
  {
    if a != [] {
      assert a[0].key != key;
      forall i | 0 <= i < |a[1..]|
        ensures a[1..][i].key != key
      {
        assert a[i + 1].key != key;
      }
      WithoutAbsentPrefix(a[1..], b[1..], key);
    }
  }

  /** Trimming a prefix with a smaller budget gives a prefix of the larger trimming. */
  lemma TrimPrefix(a: Entries, b: Entries, small: nat, large: nat)
    requires a <= b && small <= large
    ensures Trim(a, small) <= Trim(b, large)
  {
    TrimIsLongestPrefix(a, small);
    TrimIsLongestPrefix(b, large);
    var n := |Trim(a, small)|;
    assert Trim(a, small) == a[..n] == b[..n];
  }

  lemma HasPrefix(a: Entries, b: Entries, key: Key)
    requires a <= b && Has(a, key)
    ensures Has(b, key)
  {
    assert b[Find(a, key)].key == key;
  }

  lemma PulledFaithful(es: Entries, maxBytes: nat, content: Key -> Bytes, key: Key)
    requires Faithful(es, content) && Size(es) <= maxBytes && |content(key)| <= maxBytes
    ensures var es' := Pulled(es, maxBytes, content, key);
            && Faithful(es', content) && Size(es') <= maxBytes
            && es' != [] && es'[0] == Entry(key, content(key))
  {
    if Has(es, key) {
      WithoutOmits(es, key);
      var rest := Without(es, key);
      var front := es[Find(es, key)];
      DistinctCons(front, rest);
      assert front in es;
      TouchedSize(es, key);
    } else {
      AddedOk(es, maxBytes, Entry(key, content(key)));
    }
  }

  lemma {:induction false} WithoutSize(es: Entries, i: nat)
    requires DistinctKeys(es) && i < |es|
    ensures Without(es, es[i].key) == es[..i] + es[i + 1..]
    ensures Size(Without(es, es[i].key)) + |es[i].data| == Size(es)
  {
    if i == 0 {
      WithoutAbsent(es[1..], es[0].key);
    } else {
      WithoutSize(es[1..], i - 1);
      assert es[1..][i - 1] == es[i];
      assert es[0].key != es[i].key;
      assert es[..i] + es[i + 1..] == [es[0]] + (es[1..][..i - 1] + es[1..][i..]);
    }
  }

  lemma TouchedSize(es: Entries, key: Key)
    requires DistinctKeys(es) && Has(es, key)
    ensures Size(Touched(es, key)) == Size(es)
  {
    var i := Find(es, key);
    WithoutSize(es, i);
    SizeConcat([es[i]], Without(es, key));
    assert Size([es[i]]) == |es[i].data| + Size([]);
  }

  /** One pull keeps the smaller cache a prefix of the larger one. */
  lemma PulledPrefix(a: Entries, b: Entries, small: nat, large: nat, content: Key -> Bytes, key: Key)
    requires a <= b && small <= large
    requires Faithful(a, content) && Faithful(b, content)
    requires Size(b) <= large && |content(key)| <= small
    ensures Pulled(a, small, content, key) <= Pulled(b, large, content, key)
  {
    var e := Entry(key, content(key));
    if Has(a, key) {
      KeyAt(b, Find(a, key));
      WithoutPrefix(a, b, key);
    } else if Has(b, key) {
      var i := Find(b, key);
      assert b[i] in b;
      assert b[i] == e;
      WithoutOmits(a, key);
      WithoutAbsentPrefix(a, b, key);
      TouchedSize(b, key);
      TrimPrefix([e] + a, Touched(b, key), small, large);
    } else {
      WithoutOmits(a, key);
      WithoutOmits(b, key);
      TrimPrefix([e] + a, [e] + b, small, large);
    }
  }

  /** LRU inclusion: over any run of pulls with fixed payloads that each fit the smaller
      budget, the smaller cache holds a prefix of the larger one's recency list, so a larger
      budget never loses a hit. */
  lemma {:induction false} Inclusion(pulls: seq<Key>, small: nat, large: nat, content: Key -> Bytes)
    requires small <= large
    requires forall k | k in pulls :: |content(k)| <= small
    ensures var a, b := AfterPulls(pulls, small, content), AfterPulls(pulls, large, content);
            && a <= b
            && Faithful(a, content) && Size(a) <= small
            && Faithful(b, content) && Size(b) <= large
    ensures Hits(pulls, small, content) <= Hits(pulls, large, content)
  {
    if pulls != [] {
      var before, key := pulls[..|pulls| - 1], pulls[|pulls| - 1];
      Inclusion(before, small, large, content);
      var a, b := AfterPulls(before, small, content), AfterPulls(before, large, content);
      PulledPrefix(a, b, small, large, content, key);
      PulledFaithful(a, small, content, key);
      PulledFaithful(b, large, content, key);
      if Has(a, key) { HasPrefix(a, b, key); }
    }
  }
}
