/** Concurrent puts of payload records (internal/metadata/store.go:136-152): the database
    transaction and the update of the dashboard index are separate steps under different locks. */
module IndexRaces {
  import opened Base
  import opened MetadataIndex

  type PutId = nat

  /** pending holds the puts between their two steps; dbLast and indexLast record, for the
      specification, which put wrote each hash last. */
  datatype State = State(
    db: Records,
    index: Records,
    pending: map<PutId, Payload>,
    used: set<PutId>,
    written: map<PutId, Payload>,
    dbLast: map<Hash, PutId>,
    indexLast: map<Hash, PutId>)

  datatype Step = WriteDb(id: PutId, p: Payload) | WriteIndex(id: PutId)

  ghost predicate Enabled(s: State, step: Step) {
    match step
    case WriteDb(id, _) => id !in s.used
    case WriteIndex(id) => id in s.pending
  }

  ghost function Do(s: State, step: Step): State
    requires Enabled(s, step)
  {
    match step
    case WriteDb(id, p) =>
      s.(db := s.db[p.hash := Written(p)], pending := s.pending[id := p], used := s.used + {id},
         written := s.written[id := p], dbLast := s.dbLast[p.hash := id])
    case WriteIndex(id) =>
      var p := s.pending[id];
      s.(index := s.index[p.hash := p], pending := s.pending - {id}, indexLast := s.indexLast[p.hash := id])
  }

  /** An opened store: the index is the database, and no put has come yet. */
  ghost predicate Start(s: State) {
    && s.index == s.db && (forall h :: h in s.db ==> s.db[h].hash == h)
    && s.pending == map[] && s.used == {} && s.written == map[] && s.dbLast == map[] && s.indexLast == map[]
  }

  /** The last writer of hash h into these records is known, and the record is what it wrote. */
  ghost predicate LastOk(records: Records, last: map<Hash, PutId>, written: map<PutId, Payload>, h: Hash) {
    h in last ==>
      && last[h] in written && written[last[h]].hash == h
      && h in records && Written(records[h]) == Written(written[last[h]])
  }

  ghost predicate HashOk(s: State, h: Hash) {
    && LastOk(s.db, s.dbLast, s.written, h) && LastOk(s.index, s.indexLast, s.written, h)
    && (h in s.db ==> s.db[h].hash == h)
    && (h !in s.dbLast ==> h !in s.indexLast && (h in s.db <==> h in s.index) && (h in s.db ==> s.index[h] == s.db[h]))
  }

  /** A put has reached the database, and the index unless it is pending. */
  ghost predicate PutOk(s: State, id: PutId) {
    && (id in s.written <==> id in s.used)
    && (id in s.pending ==> id in s.used && s.written[id] == s.pending[id])
    && (id in s.used ==> s.written[id].hash in s.dbLast)
    && (id in s.used && id !in s.pending ==> s.written[id].hash in s.indexLast)
  }

  ghost predicate Inv(s: State) {
    (forall h :: HashOk(s, h)) && (forall id :: PutOk(s, id))
  }

  lemma DoOk(s: State, step: Step)
    requires Inv(s) && Enabled(s, step)
    ensures Inv(Do(s, step))
  {
    var s' := Do(s, step);
    assert PutOk(s, step.id);
    forall id
      ensures PutOk(s', id)
    {
      assert PutOk(s, id);
    }
    forall h
      ensures HashOk(s', h)
    {
      assert HashOk(s, h);
    }
  }

  ghost predicate IsRun(run: seq<State>, steps: seq<Step>) {
    && |run| == |steps| + 1 && Start(run[0])
    && forall i | 0 <= i < |steps| :: StepAt(run, steps, i)
  }

  ghost predicate StepAt(run: seq<State>, steps: seq<Step>, i: nat)
    requires |run| == |steps| + 1 && i < |steps|
  {
    Enabled(run[i], steps[i]) && run[i + 1] == Do(run[i], steps[i])
  }

  lemma {:induction false} RunInv(run: seq<State>, steps: seq<Step>, i: nat)
    requires IsRun(run, steps) && i < |run|
    ensures Inv(run[i])
  {
    if i > 0 {
      RunInv(run, steps, i - 1);
      assert StepAt(run, steps, i - 1);
      DoOk(run[i - 1], steps[i - 1]);
    }
  }

  // ----- the order of the steps

  ghost predicate WritesDb(steps: seq<Step>, d: nat, h: Hash)
    requires d < |steps|
  {
    steps[d].WriteDb? && steps[d].p.hash == h
  }

  /** Step x is the index write of a put of h. */
  ghost predicate WritesIndex(run: seq<State>, steps: seq<Step>, x: nat, h: Hash)
    requires |run| == |steps| + 1 && x < |steps|
  {
    steps[x].WriteIndex? && steps[x].id in run[x].pending && run[x].pending[steps[x].id].hash == h
  }

  /** What the put of step x writes. */
  ghost function IndexWrite(run: seq<State>, steps: seq<Step>, x: nat): Payload
    requires |run| == |steps| + 1 && x < |steps| && steps[x].WriteIndex? && steps[x].id in run[x].pending
  {
    Written(run[x].pending[steps[x].id])
  }

  /** Step d is the last database write of its hash before i. */
  ghost predicate LastDbWrite(steps: seq<Step>, i: nat, d: nat)
    requires d < i <= |steps|
  {
    steps[d].WriteDb? && forall n | d < n < i :: !WritesDb(steps, n, steps[d].p.hash)
  }

  /** The put that reached the database last, at d, is overtaken: after its own index write, at
      x, a put of its hash that wrote something else reaches the index, at y, and no put that
      wrote the same as d reaches it after that. */
  ghost predicate Overtaken(run: seq<State>, steps: seq<Step>, i: nat, d: nat, x: nat, y: nat)
    requires |run| == |steps| + 1 && i <= |steps|
  {
    && d < i && LastDbWrite(steps, i, d)
    && x < y < i && steps[x] == WriteIndex(steps[d].id)
    && WritesIndex(run, steps, y, steps[d].p.hash) && IndexWrite(run, steps, y) != Written(steps[d].p)
    && forall z | y < z < i && WritesIndex(run, steps, z, steps[d].p.hash) ::
         IndexWrite(run, steps, z) != Written(steps[d].p)
  }

  lemma {:induction false} DbLastIsStep(run: seq<State>, steps: seq<Step>, i: nat, h: Hash) returns (d: nat)
    requires IsRun(run, steps) && i <= |steps| && h in run[i].dbLast
    ensures d < i && WritesDb(steps, d, h) && LastDbWrite(steps, i, d)
    ensures steps[d].id == run[i].dbLast[h] && run[i].dbLast[h] in run[i].written
    ensures run[i].written[run[i].dbLast[h]] == steps[d].p
  {
    assert i > 0;
    assert StepAt(run, steps, i - 1);
    RunInv(run, steps, i - 1);
    if WritesDb(steps, i - 1, h) {
      d := i - 1;
    } else {
      d := DbLastIsStep(run, steps, i - 1, h);
      assert PutOk(run[i - 1], steps[d].id);
    }
  }

  lemma {:induction false} IndexLastIsStep(run: seq<State>, steps: seq<Step>, i: nat, h: Hash) returns (y: nat)
    requires IsRun(run, steps) && i <= |steps| && h in run[i].indexLast
    ensures y < i && WritesIndex(run, steps, y, h) && steps[y].id == run[i].indexLast[h]
    ensures forall z | y < z < i :: !WritesIndex(run, steps, z, h)
    ensures run[i].indexLast[h] in run[i].written
    ensures Written(run[i].written[run[i].indexLast[h]]) == IndexWrite(run, steps, y)
  {
    assert i > 0;
    assert StepAt(run, steps, i - 1);
    RunInv(run, steps, i - 1);
    if WritesIndex(run, steps, i - 1, h) {
      y := i - 1;
      assert PutOk(run[i - 1], steps[y].id);
    } else {
      y := IndexLastIsStep(run, steps, i - 1, h);
      assert PutOk(run[i - 1], steps[y].id);
    }
  }

  /** A put that is not pending has written the index. */
  lemma {:induction false} WasIndexed(run: seq<State>, steps: seq<Step>, i: nat, id: PutId) returns (x: nat)
    requires IsRun(run, steps) && i <= |steps| && id in run[i].used && id !in run[i].pending
    ensures x < i && steps[x] == WriteIndex(id) && id in run[x].pending && id in run[i].written
    ensures run[x].pending[id] == run[i].written[id]
  {
    assert i > 0;
    assert StepAt(run, steps, i - 1);
    RunInv(run, steps, i - 1);
    RunInv(run, steps, i);
    assert PutOk(run[i - 1], id) && PutOk(run[i], id);
    if id in run[i - 1].pending {
      x := i - 1;
    } else {
      x := WasIndexed(run, steps, i - 1, id);
    }
  }

  /** The last put of h into the database and the last one into the index wrote the same. */
  ghost predicate SameLast(s: State, h: Hash) {
    && h in s.dbLast && h in s.indexLast && s.dbLast[h] in s.written && s.indexLast[h] in s.written
    && Written(s.written[s.dbLast[h]]) == Written(s.written[s.indexLast[h]])
  }

  lemma SameLastIff(run: seq<State>, steps: seq<Step>, i: nat, h: Hash)
    requires IsRun(run, steps) && i <= |steps| && run[i].pending == map[] && h in run[i].dbLast
    ensures SameLast(run[i], h) <==>
              forall d, x, y | 0 <= d < i && 0 <= x < i && WritesDb(steps, d, h) :: !Overtaken(run, steps, i, d, x, y)
  {
    RunInv(run, steps, i);
    var d := DbLastIsStep(run, steps, i, h);
    assert PutOk(run[i], run[i].dbLast[h]);
    var x := WasIndexed(run, steps, i, run[i].dbLast[h]);
    var y := IndexLastIsStep(run, steps, i, h);
    assert WritesIndex(run, steps, x, h);
    assert y >= x;
    if !SameLast(run[i], h) {
      assert Overtaken(run, steps, i, d, x, y);
    } else {
      assert forall d' | 0 <= d' < i && WritesDb(steps, d', h) && LastDbWrite(steps, i, d') :: d' == d;
      assert forall y' | y < y' < i :: !WritesIndex(run, steps, y', h);
    }
  }

  /** Once every put has returned, the index agrees with the database if and only if no put that
      reached the database last of its hash is overtaken on the way to the index. */
  lemma MirrorsIff(run: seq<State>, steps: seq<Step>, i: nat)
    requires IsRun(run, steps) && i <= |steps| && run[i].pending == map[]
    ensures Mirrors(run[i].index, run[i].db) <==>
              forall d, x, y | 0 <= d < i && 0 <= x < i :: !Overtaken(run, steps, i, d, x, y)
  {
    MirrorsIffSame(run, steps, i);
    forall h | h in run[i].dbLast
      ensures SameLast(run[i], h) <==>
                forall d, x, y | 0 <= d < i && 0 <= x < i && WritesDb(steps, d, h) :: !Overtaken(run, steps, i, d, x, y)
    {
      SameLastIff(run, steps, i, h);
    }
    forall d | 0 <= d < i && steps[d].WriteDb?
      ensures steps[d].p.hash in run[i].dbLast
    {
      DbWriteStays(run, steps, i, d);
    }
    assert forall d, x, y | 0 <= d < i && 0 <= x < i
       && Overtaken(run, steps, i, d, x, y) :: WritesDb(steps, d, steps[d].p.hash);
  }

  lemma {:induction false} DbWriteStays(run: seq<State>, steps: seq<Step>, i: nat, d: nat)
    requires IsRun(run, steps) && d < i <= |steps| && steps[d].WriteDb?
    ensures steps[d].p.hash in run[i].dbLast
  {
    assert StepAt(run, steps, i - 1);
    if d < i - 1 { DbWriteStays(run, steps, i - 1, d); }
  }

  lemma MirrorsIffSame(run: seq<State>, steps: seq<Step>, i: nat)
    requires IsRun(run, steps) && i < |run| && run[i].pending == map[]
    ensures Mirrors(run[i].index, run[i].db) <==> forall h :: h in run[i].dbLast ==> SameLast(run[i], h)
  {
    RunInv(run, steps, i);
    var s := run[i];
    forall h
      ensures h in s.dbLast <==> h in s.indexLast
      ensures h in s.db <==> h in s.index
    {
      assert HashOk(s, h);
      if h in s.dbLast { assert PutOk(s, s.dbLast[h]); }
      if h in s.indexLast { assert PutOk(s, s.indexLast[h]); }
    }
    assert s.index.Keys == s.db.Keys;
    forall h | h in s.db
      ensures Written(s.index[h]) == Written(s.db[h]) <==> h !in s.dbLast || SameLast(s, h)
      ensures s.db[h].hash == h
    {
      assert HashOk(s, h);
    }
    forall h | h in s.dbLast
      ensures h in s.db
    {
      assert HashOk(s, h);
    }
  }

  /** No put of a hash begins while another put of the same hash is between its steps. */
  ghost predicate Serialised(run: seq<State>, steps: seq<Step>)
    requires |run| == |steps| + 1
  {
    forall i | 0 <= i < |steps| && steps[i].WriteDb? :: NonePending(run[i], steps[i].p.hash)
  }

  ghost predicate NonePending(s: State, h: Hash) { forall id :: id in s.pending ==> s.pending[id].hash != h }

  /** At most one put of h is pending, it is the last one into the database, and when none is,
      the last one into the database was also the last one into the index. */
  ghost predicate OrderOk(s: State, h: Hash) {
    && (forall id :: id in s.pending && s.pending[id].hash == h ==> h in s.dbLast && s.dbLast[h] == id)
    && (h in s.dbLast && s.dbLast[h] !in s.pending ==> h in s.indexLast && s.indexLast[h] == s.dbLast[h])
  }

  ghost predicate InOrder(s: State) { forall h :: OrderOk(s, h) }

  lemma DoInOrder(s: State, step: Step)
    requires Inv(s) && InOrder(s) && Enabled(s, step) && (step.WriteDb? ==> NonePending(s, step.p.hash))
    ensures InOrder(Do(s, step))
  {
    var s' := Do(s, step);
    assert PutOk(s, step.id);
    forall h
      ensures OrderOk(s', h)
    {
      assert OrderOk(s, h) && HashOk(s, h);
    }
  }

  lemma {:induction false} SerialisedInOrder(run: seq<State>, steps: seq<Step>, i: nat)
    requires IsRun(run, steps) && Serialised(run, steps) && i < |run|
    ensures InOrder(run[i])
  {
    if i > 0 {
      SerialisedInOrder(run, steps, i - 1);
      RunInv(run, steps, i - 1);
      assert StepAt(run, steps, i - 1);
      DoInOrder(run[i - 1], steps[i - 1]);
    }
  }

  /** So the index agrees with the database when puts of the same hash do not overlap, whatever
      the puts of different hashes do. */
  lemma SerialisedMirrors(run: seq<State>, steps: seq<Step>, i: nat)
    requires IsRun(run, steps) && Serialised(run, steps) && i < |run| && run[i].pending == map[]
    ensures Mirrors(run[i].index, run[i].db)
  {
    SerialisedInOrder(run, steps, i);
    RunInv(run, steps, i);
    MirrorsIffSame(run, steps, i);
    forall h | h in run[i].dbLast
      ensures SameLast(run[i], h)
    {
      assert OrderOk(run[i], h) && HashOk(run[i], h);
    }
  }

  /** Two overlapping puts of a hash that reach the index in the other order leave the index
      with the record the database no longer has. */
  lemma OverlappingPutsDisagree(a: Payload, b: Payload) returns (run: seq<State>, steps: seq<Step>)
    requires a.hash == b.hash && Written(a) != Written(b)
    ensures IsRun(run, steps) && run[|run| - 1].pending == map[]
    ensures var s := run[|run| - 1];
            && a.hash in s.db && s.db[a.hash] == Written(b) && a.hash in s.index && s.index[a.hash] == a
               && !Mirrors(s.index, s.db)
  {
    var s0 := State(map[], map[], map[], {}, map[], map[], map[]);
    var s1 := Do(s0, WriteDb(0, a));
    var s2 := Do(s1, WriteDb(1, b));
    var s3 := Do(s2, WriteIndex(1));
    var s4 := Do(s3, WriteIndex(0));
    run, steps := [s0, s1, s2, s3, s4], [WriteDb(0, a), WriteDb(1, b), WriteIndex(1), WriteIndex(0)];
    assert s4.pending == map[];
    forall i | 0 <= i < |steps|
      ensures StepAt(run, steps, i)
    {
    }
    assert Written(s4.index[a.hash]) != Written(s4.db[a.hash]);
  }
}
