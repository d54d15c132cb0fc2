/** The memory cache of internal/cache/cache.go: a map of list elements and a doubly linked
    list in the heap, proved against the recency sequence. */
module LruCache {
  import opened Base
  import opened Recency

  /** A list element with its entry. */
  class Node {
    const key: Key
    const data: Bytes
    var prev: Node?
    var next: Node?

    constructor (key: Key, data: Bytes)
      ensures this.key == key && this.data == data && prev == null && next == null
    {
      this.key, this.data := key, data;
      prev, next := null, null;
    }
  }

  function EntryOf(n: Node): Entry { Entry(n.key, n.data) }

  ghost function EntriesOf(nodes: seq<Node>): (es: Entries)
    ensures |es| == |nodes|
  {
    if nodes == [] then [] else [EntryOf(nodes[0])] + EntriesOf(nodes[1..])
  }

  lemma {:induction false} EntryAt(nodes: seq<Node>, i: nat)
    requires i < |nodes|
    ensures EntriesOf(nodes)[i] == EntryOf(nodes[i])
  {
    if i > 0 { EntryAt(nodes[1..], i - 1); }
  }

  ghost predicate Apart(nodes: seq<Node>, i: nat, j: nat) {
    i < j < |nodes| ==> nodes[i] != nodes[j]
  }

  ghost predicate Distinct(nodes: seq<Node>) {
    forall i: nat, j: nat :: Apart(nodes, i, j)
  }

  lemma DistinctNodes(nodes: seq<Node>)
    requires Distinct(nodes)
    ensures forall i, j :: 0 <= i < j < |nodes| ==> nodes[i] != nodes[j]
  {
    forall i, j | 0 <= i < j < |nodes|
      ensures nodes[i] != nodes[j]
    {
      assert Apart(nodes, i, j);
    }
  }

  /** The doubly linked list (container/list), front first. */
  class List {
    var front: Node?
    var back: Node?
    ghost var nodes: seq<Node>
    ghost var repr: set<Node>  // every node ever linked

    ghost predicate Linked()
      reads this, repr
    {
      && (forall n :: n in nodes ==> n in repr)
      && (nodes == [] ==> front == null && back == null)
      && (nodes != [] ==> front == nodes[0] && back == nodes[|nodes| - 1]
                          && nodes[0].prev == null && nodes[|nodes| - 1].next == null)
      && (forall i {:trigger nodes[i].prev} :: 1 <= i < |nodes| ==> nodes[i].prev == nodes[i - 1])
      && (forall i {:trigger nodes[i].next} :: 0 <= i < |nodes| - 1 ==> nodes[i].next == nodes[i + 1])
      && Distinct(nodes)
    }

    constructor ()
      ensures Linked() && nodes == [] && fresh(repr)
    {
      front, back, nodes, repr := null, null, [], {};
    }

    method PushFront(n: Node)
      requires Linked() && n !in nodes
      modifies this, repr, n
      ensures Linked() && nodes == [n] + old(nodes) && repr == old(repr) + {n}
    {
      DistinctNodes(nodes);
      n.prev, n.next := null, front;
      if front == null {
        back := n;
      } else {
        front.prev := n;
      }
      front := n;
      nodes, repr := [n] + nodes, repr + {n};
    }

    method Remove(n: Node, ghost k: nat)
      requires Linked() && k < |nodes| && nodes[k] == n
      modifies this, repr
      ensures Linked() && nodes == old(nodes[..k] + nodes[k + 1..]) && repr == old(repr)
    {
      DistinctNodes(nodes);
      if n.prev == null {
        assert k == 0;
        front := n.next;
      } else {
        assert k > 0 && n.prev == nodes[k - 1];
        n.prev.next := n.next;
      }
      if n.next == null {
        assert k == |nodes| - 1;
        back := n.prev;
      } else {
        assert n.next == nodes[k + 1];
        n.next.prev := n.prev;
      }
      n.prev, n.next := null, null;
      nodes := nodes[..k] + nodes[k + 1..];
    }

    method MoveToFront(n: Node, ghost k: nat)
      requires Linked() && k < |nodes| && nodes[k] == n
      modifies this, repr
      ensures Linked() && nodes == [n] + old(nodes[..k] + nodes[k + 1..]) && repr == old(repr)
    {
      DistinctNodes(nodes);
      if front == n { return; }
      Remove(n, k);
      PushFront(n);
    }
  }

  /** The map from keys to the listed nodes. */
  ghost function IndexOf(nodes: seq<Node>): map<Key, Node> {
    if nodes == [] then map[] else IndexOf(nodes[1..])[nodes[0].key := nodes[0]]
  }

  /** The map holds exactly the listed nodes, by their keys, which differ. */
  ghost predicate Indexed(items: map<Key, Node>, nodes: seq<Node>) {
    items == IndexOf(nodes) && DistinctKeys(EntriesOf(nodes))
  }

  lemma {:induction false} Position(nodes: seq<Node>, key: Key) returns (k: nat)
    requires key in IndexOf(nodes)
    ensures k < |nodes| && nodes[k] == IndexOf(nodes)[key] && nodes[k].key == key
  {
    if nodes[0].key == key {
      k := 0;
    } else {
      k := Position(nodes[1..], key);
      k := k + 1;
    }
  }

  lemma {:induction false} IndexedAt(nodes: seq<Node>, k: nat)
    requires k < |nodes| && DistinctKeys(EntriesOf(nodes))
    ensures nodes[k].key in IndexOf(nodes) && IndexOf(nodes)[nodes[k].key] == nodes[k]
  {
    if k > 0 {
      assert EntriesOf(nodes)[1..] == EntriesOf(nodes[1..]);
      IndexedAt(nodes[1..], k - 1);
      EntryAt(nodes[1..], k - 1);
    }
  }

  lemma IndexedKey(items: map<Key, Node>, nodes: seq<Node>, key: Key)
    requires Indexed(items, nodes)
    ensures Has(EntriesOf(nodes), key) <==> key in items
  {
    if key in items {
      var k := Position(nodes, key);
      EntryAt(nodes, k);
    }
    if Has(EntriesOf(nodes), key) {
      var k := Find(EntriesOf(nodes), key);
      EntryAt(nodes, k);
      IndexedAt(nodes, k);
    }
  }

  lemma {:induction false} UnlinkedIndex(nodes: seq<Node>, k: nat)
    requires DistinctKeys(EntriesOf(nodes)) && k < |nodes|
    ensures IndexOf(nodes[..k] + nodes[k + 1..]) == IndexOf(nodes) - {nodes[k].key}
  {
    var first, tail, rest := nodes[0], nodes[1..], nodes[..k] + nodes[k + 1..];
    assert EntriesOf(nodes)[1..] == EntriesOf(tail);
    IndexedKey(IndexOf(tail), tail, first.key);
    if k == 0 {
      assert rest == tail;
    } else {
      assert rest[0] == first && rest[1..] == tail[..k - 1] + tail[k..];
      UnlinkedIndex(tail, k - 1);
      EntryAt(tail, k - 1);
    }
  }

  lemma {:induction false} SlicedEntries(nodes: seq<Node>, k: nat)
    requires k < |nodes|
    ensures var es := EntriesOf(nodes);
            es[k] == EntryOf(nodes[k]) && EntriesOf(nodes[..k] + nodes[k + 1..]) == es[..k] + es[k + 1..]
  {
    if k == 0 {
      assert nodes[..0] + nodes[1..] == nodes[1..];
    } else {
      SlicedEntries(nodes[1..], k - 1);
      assert (nodes[..k] + nodes[k + 1..])[1..] == nodes[1..][..k - 1] + nodes[1..][k..];
    }
  }

  /** Unlinking node k removes its key's entry. */
  lemma UnlinkedEntries(items: map<Key, Node>, nodes: seq<Node>, k: nat)
    requires Indexed(items, nodes) && k < |nodes|
    ensures var es, rest := EntriesOf(nodes), nodes[..k] + nodes[k + 1..];
            && EntriesOf(rest) == es[..k] + es[k + 1..] == Without(es, nodes[k].key)
            && Size(EntriesOf(rest)) + |nodes[k].data| == Size(es)
            && Indexed(items - {nodes[k].key}, rest)
            && Has(es, nodes[k].key) && Find(es, nodes[k].key) == k
  {
    var es, rest := EntriesOf(nodes), nodes[..k] + nodes[k + 1..];
    SlicedEntries(nodes, k);
    WithoutSize(es, k);
    KeyAt(es, k);
    WithoutDistinct(es, nodes[k].key);
    UnlinkedIndex(nodes, k);
  }

  /** Linking a new node in front adds its entry. */
  lemma LinkedEntries(items: map<Key, Node>, nodes: seq<Node>, n: Node)
    requires Indexed(items, nodes) && n.key !in items
    ensures Indexed(items[n.key := n], [n] + nodes)
    ensures EntriesOf([n] + nodes) == [EntryOf(n)] + EntriesOf(nodes)
    ensures Size(EntriesOf([n] + nodes)) == |n.data| + Size(EntriesOf(nodes))
    ensures n !in nodes
  {
    var nodes' := [n] + nodes;
    assert nodes'[1..] == nodes;
    if i :| 0 <= i < |nodes| && nodes[i] == n {
      EntryAt(nodes, i);
      assert Has(EntriesOf(nodes), n.key);
    }
    IndexedKey(items, nodes, n.key);
    DistinctCons(EntryOf(n), EntriesOf(nodes));
  }

  /** Moving node k to the front touches its key's entry. */
  lemma MovedEntries(items: map<Key, Node>, nodes: seq<Node>, k: nat)
    requires Indexed(items, nodes) && k < |nodes|
    ensures var es, nodes' := EntriesOf(nodes), [nodes[k]] + (nodes[..k] + nodes[k + 1..]);
            && EntriesOf(nodes') == Touched(es, nodes[k].key)
            && Size(EntriesOf(nodes')) == Size(es)
            && Indexed(items, nodes')
            && Has(es, nodes[k].key) && Find(es, nodes[k].key) == k
  {
    var n, rest := nodes[k], nodes[..k] + nodes[k + 1..];
    EntryAt(nodes, k);
    UnlinkedEntries(items, nodes, k);
    LinkedEntries(items - {n.key}, rest, n);
    IndexedAt(nodes, k);
    assert (items - {n.key})[n.key := n] == items;
    TouchedSize(EntriesOf(nodes), n.key);
  }

  datatype Stats = Stats(entries: nat, usedBytes: int, maxBytes: int, maxObjectBytes: int, hits: nat, misses: nat)

  class Cache {
    const maxBytes: int
    const maxObjectBytes: int
    var usedBytes: int
    var hits: nat
    var misses: nat
    var items: map<Key, Node>
    const lru: List

    /** Everything but the byte limit, which Add restores last. */
    ghost predicate Consistent()
      reads this, lru, lru.repr
    {
      && lru.Linked()
      && Indexed(items, lru.nodes)
      && usedBytes == Size(EntriesOf(lru.nodes))
    }

    ghost predicate Valid()
      reads this, lru, lru.repr
    {
      && Consistent() && (usedBytes <= maxBytes || usedBytes == 0)
      && Limited(Entries(), maxBytes, maxObjectBytes)
    }

    ghost function Entries(): Recency.Entries
      reads lru
    {
      EntriesOf(lru.nodes)
    }

    constructor (maxBytes: int, maxObjectBytes: int)
      ensures Valid() && fresh(lru) && fresh(lru.repr) && Entries() == [] && hits == misses == 0
      ensures this.maxBytes == maxBytes && this.maxObjectBytes == maxObjectBytes
    {
      this.maxBytes, this.maxObjectBytes := maxBytes, maxObjectBytes;
      usedBytes, hits, misses, items := 0, 0, 0, map[];
      lru := new List();
    }

    function Enabled(): bool { maxBytes > 0 }

    function CanStoreSize(size: int): (r: bool)
      ensures r <==> size >= 0 && CanStore(maxBytes, maxObjectBytes, size)
    {
      Enabled() && 0 <= size <= maxBytes && (maxObjectBytes <= 0 || size <= maxObjectBytes)
    }

    method RemoveElement(n: Node, ghost k: nat)
      requires Consistent() && k < |lru.nodes| && lru.nodes[k] == n
      modifies this`usedBytes, this`items, lru, lru.repr
      ensures Consistent()
      ensures items == old(items) - {n.key}
      ensures lru.nodes == old(lru.nodes[..k] + lru.nodes[k + 1..]) && lru.repr == old(lru.repr)
      ensures usedBytes == old(usedBytes) - |n.data|
    {
      UnlinkedEntries(items, lru.nodes, k);
      items := items - {n.key};
      usedBytes := usedBytes - |n.data|;
      lru.Remove(n, k);
    }

    method RemoveOldest()
      requires Consistent() && Entries() != []
      modifies this`usedBytes, this`items, lru, lru.repr
      ensures Consistent() && Entries() == old(Entries()[..|Entries()| - 1])
      ensures lru.repr == old(lru.repr)
    {
      var element := lru.back;
      if element != null {
        ghost var k := |lru.nodes| - 1;
        UnlinkedEntries(items, lru.nodes, k);
        RemoveElement(element, k);
      }
    }

    /** The entry goes to the front, replacing one with the same key, and the fewest least
        recent entries go; an entry that cannot be stored changes nothing. */
    method Add(key: Key, data: Bytes) returns (stored: bool)
      requires Valid()
      modifies this`usedBytes, this`items, lru, lru.repr
      ensures Valid() && fresh(lru.repr - old(lru.repr))
      ensures stored <==>
                maxBytes > 0 && |data| <= maxBytes && (maxObjectBytes <= 0 || |data| <= maxObjectBytes)
      ensures forall e :: e in Entries() ==> |e.data| <= maxBytes && (maxObjectBytes <= 0 || |e.data| <= maxObjectBytes)
      ensures Entries() == if stored then Added(old(Entries()), maxBytes, Entry(key, data)) else old(Entries())
    {
      if !CanStoreSize(|data|) { return false; }
      AddedLimited(Entries(), maxBytes, maxObjectBytes, Entry(key, data));
      DropExisting(key);
      Insert(key, data);
      EvictOverflow();
      return true;
    }

    /** The replacement step of Add. */
    method DropExisting(key: Key)
      requires Consistent()
      modifies this`usedBytes, this`items, lru, lru.repr
      ensures Consistent() && key !in items && Entries() == Without(old(Entries()), key)
      ensures lru.repr == old(lru.repr)
    {
      if key in items {
        ghost var k := Position(lru.nodes, key);
        UnlinkedEntries(items, lru.nodes, k);
        RemoveElement(items[key], k);
      } else {
        IndexedKey(items, lru.nodes, key);
        WithoutAbsent(Entries(), key);
      }
    }

    /** The insertion step of Add. */
    method Insert(key: Key, data: Bytes)
      requires Consistent() && key !in items
      modifies this`usedBytes, this`items, lru, lru.repr
      ensures Consistent() && Entries() == [Entry(key, data)] + old(Entries())
      ensures fresh(lru.repr - old(lru.repr))
    {
      var element := new Node(key, data);
      LinkedEntries(items, lru.nodes, element);
      lru.PushFront(element);
      items := items[key := element];
      usedBytes := usedBytes + |data|;
    }

    /** The eviction loop of Add. */
    method EvictOverflow()
      requires Consistent() && maxBytes >= 0
      modifies this`usedBytes, this`items, lru, lru.repr
      ensures Consistent() && usedBytes <= maxBytes
      ensures Entries() == Trim(old(Entries()), maxBytes) && lru.repr == old(lru.repr)
    {
      while usedBytes > maxBytes
        invariant Consistent()
        invariant Trim(Entries(), maxBytes) == Trim(old(Entries()), maxBytes)
        invariant lru.repr == old(lru.repr)
        decreases |Entries()|
      {
        RemoveOldest();
      }
    }

    method Get(key: Key) returns (value: Option<Bytes>)
      requires Valid()
      modifies this`hits, this`misses, lru, lru.repr
      ensures Valid() && lru.repr == old(lru.repr)
      ensures Entries() == if Enabled() then Touched(old(Entries()), key) else old(Entries())
      ensures value == if Enabled() && Has(old(Entries()), key)
                       then Some(old(Entries())[Find(old(Entries()), key)].data) else None
      ensures hits == old(hits) + (if value.Some? then 1 else 0)
      ensures misses == old(misses) + (if Enabled() && value.None? then 1 else 0)
    {
      if !Enabled() { return None; }
      IndexedKey(items, lru.nodes, key);
      if key !in items {
        misses := misses + 1;
        return None;
      }
      TouchedMembers(Entries(), key);
      hits := hits + 1;
      var element := items[key];
      value := Some(element.data);
      TouchElement(element, key);
    }

    /** The recency update of Get. */
    method TouchElement(n: Node, key: Key)
      requires Consistent() && key in items && items[key] == n
      modifies lru, lru.repr
      ensures Consistent() && lru.repr == old(lru.repr)
      ensures Has(old(Entries()), key) && old(Entries())[Find(old(Entries()), key)] == EntryOf(n)
      ensures Entries() == Touched(old(Entries()), key)
    {
      ghost var k := Position(lru.nodes, key);
      MovedEntries(items, lru.nodes, k);
      EntryAt(lru.nodes, k);
      lru.MoveToFront(n, k);
    }

    method Contains(key: Key) returns (found: bool)
      requires Valid()
      ensures found <==> Enabled() && Has(Entries(), key)
    {
      IndexedKey(items, lru.nodes, key);
      found := Enabled() && key in items;
    }

    method GetStats() returns (s: Stats)
      requires Valid()
      ensures s == Stats(|Entries()|, Size(Entries()), maxBytes, maxObjectBytes, hits, misses)
    {
      IndexedSize(items, lru.nodes);
      s := Stats(|items|, usedBytes, maxBytes, maxObjectBytes, hits, misses);
    }
  }

  /** A GET pull of a payload through the cache: a hit is served from memory, a miss fetches
      the payload and adds it when it may be stored. */
  method Pull(cache: Cache, key: Key, fetched: Bytes) returns (hit: bool)
    requires cache.Valid()
    modifies cache, cache.lru, cache.lru.repr
    ensures cache.Valid() && fresh(cache.lru.repr - old(cache.lru.repr))
    ensures hit <==> cache.Enabled() && Has(old(cache.Entries()), key)
    ensures cache.Entries() == if hit then Touched(old(cache.Entries()), key)
                               else if CanStore(cache.maxBytes, cache.maxObjectBytes, |fetched|)
                               then Added(old(cache.Entries()), cache.maxBytes, Entry(key, fetched))
                               else old(cache.Entries())
  {
    var value := cache.Get(key);
    hit := value.Some?;
    if !hit && cache.CanStoreSize(|fetched|) {
      var stored := cache.Add(key, fetched);
    }
  }

  /** A run of pulls through an empty cache leaves the entries, and makes the hits, that the
      recency sequence says; Recency.Inclusion compares two such runs. */
  method PullAll(cache: Cache, pulls: seq<Key>, content: Key -> Bytes) returns (hits: nat)
    requires cache.Valid() && cache.Enabled() && cache.Entries() == []
    requires forall k | k in pulls :: CanStore(cache.maxBytes, cache.maxObjectBytes, |content(k)|)
    modifies cache, cache.lru, cache.lru.repr
    ensures cache.Valid() && cache.Entries() == AfterPulls(pulls, cache.maxBytes, content)
    ensures hits == Hits(pulls, cache.maxBytes, content)
  {
    hits := 0;
    for i := 0 to |pulls|
      invariant cache.Valid() && fresh(cache.lru.repr - old(cache.lru.repr))
      invariant cache.Entries() == AfterPulls(pulls[..i], cache.maxBytes, content)
      invariant hits == Hits(pulls[..i], cache.maxBytes, content)
    {
      assert pulls[i] in pulls && pulls[..i + 1][..i] == pulls[..i];
      var hit := Pull(cache, pulls[i], content(pulls[i]));
      if hit { hits := hits + 1; }
    }
    assert pulls[..|pulls|] == pulls;
  }

  lemma {:induction false} IndexedSize(items: map<Key, Node>, nodes: seq<Node>)
    requires Indexed(items, nodes)
    ensures |items| == |nodes|
    decreases |nodes|
  {
    if nodes != [] {
      var rest := nodes[1..];
      assert EntriesOf(nodes)[1..] == EntriesOf(rest);
      IndexedSize(IndexOf(rest), rest);
      IndexedKey(IndexOf(rest), rest, nodes[0].key);
      assert items.Keys == IndexOf(rest).Keys + {nodes[0].key};
    }
  }
}
