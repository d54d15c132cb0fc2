/** What the tus Concatenation extension can build over HTTP, where every partial is created
    with length 0 and so counts as complete only while its Offset is 0. */
module HttpConcatenation {
  import opened Base
  import opened Sessions
  import opened SessionSteps
  import opened SessionInvariant
  import opened SessionRuns
  import opened SessionFinals
  import SessionStore
  import PushRoutes

  /** The routes create partials with length 0. */
  predicate FromRoute(a: Action) {
    a.BeginCreate? && a.kind.Partial? ==> a.length == 0
  }

  /** A partial as the routes make it. */
  predicate RoutePartial(r: Session) {
    r.kind.Partial? ==> r.length == 0 && r.completedAt.None?
  }

  ghost predicate RouteMade(s: State) {
    && (forall id :: id in s.st.db ==> RoutePartial(s.st.db[id]))
    && (forall id :: id in s.creating ==> RoutePartial(s.creating[id]))
    && (forall r :: r in s.seen ==> RoutePartial(r))
  }

  lemma CommitKeepsRouteMade(s: State, stamp: Time, expiration: Time)
    requires RouteMade(s) && CanWrite(s)
    ensures RouteMade(AppendCommitted(s, stamp, expiration))
  {
  }

  lemma RefreshKeepsRouteMade(s: State, id: Id, stamp: Time, expiration: Time)
    requires RouteMade(s) && id in s.building
    ensures RouteMade(Refreshed(s, id, stamp, expiration))
  {
  }

  lemma StartKeepsRouteMade(s: State, r: Session)
    requires RouteMade(s) && RoutePartial(r)
    ensures RouteMade(Started(s, r))
  {
  }

  lemma StepKeepsRouteMade(s: State, a: Action, expiration: Time)
    requires RouteMade(s) && Enabled(s, a) && FromRoute(a)
    ensures RouteMade(Do(s, a, expiration))
  {
    match a
    case BeginCreate(id, hash, checksum, kind, length) =>
      StartKeepsRouteMade(s, NewSession(id, hash, checksum, kind, length, [], s.now, expiration));
    case BeginFinal(id, hash, checksum, partials, _) =>
      StartKeepsRouteMade(s, NewSession(id, hash, checksum, Final, TotalLength(partials), Ids(partials), s.now,
                                        expiration));
    case CommitAppend(stamp) => CommitKeepsRouteMade(s, stamp, expiration);
    case Refresh(id, stamp) => RefreshKeepsRouteMade(s, id, stamp, expiration);
    case _ =>
  }

  ghost predicate RouteStep(s: State, s': State, a: Action, expiration: Time) {
    FromRoute(a) && Enabled(s, a) && s' == Do(s, a, expiration)
  }

  ghost predicate RouteStepAt(run: seq<State>, actions: seq<Action>, expiration: Time, i: nat)
    requires i < |actions| && |run| == |actions| + 1
  {
    RouteStep(run[i], run[i + 1], actions[i], expiration)
  }

  /** A run of a server that starts with no sessions, all created over HTTP. */
  ghost predicate IsRouteRun(run: seq<State>, actions: seq<Action>, expiration: Time) {
    && |run| == |actions| + 1
    && Start(run[0]) && run[0].st.db == map[]
    && forall i | 0 <= i < |actions| :: RouteStepAt(run, actions, expiration, i)
  }

  lemma RouteRunIsRun(run: seq<State>, actions: seq<Action>, expiration: Time)
    requires IsRouteRun(run, actions, expiration)
    ensures IsRun(run, expiration)
  {
    forall i | 0 <= i < |run| - 1
      ensures StepAt(run, expiration, i)
    {
      assert RouteStepAt(run, actions, expiration, i);
    }
  }

  lemma {:induction false} RouteRunMade(run: seq<State>, actions: seq<Action>, expiration: Time, i: nat)
    requires IsRouteRun(run, actions, expiration) && i < |run|
    ensures RouteMade(run[i])
  {
    if i > 0 {
      RouteRunMade(run, actions, expiration, i - 1);
      assert RouteStepAt(run, actions, expiration, i - 1);
      StepKeepsRouteMade(run[i - 1], actions[i - 1], expiration);
    }
  }

  lemma {:induction false} TotalOfEmpty(partials: seq<Session>)
    requires forall p :: p in partials ==> p.length == 0
    ensures TotalLength(partials) == 0
  {
    if partials != [] { TotalOfEmpty(partials[..|partials| - 1]); }
  }

  /** In every run of the routes, whatever was uploaded, the records a final is begun over have
      Offset 0, so its Length is 0; the records may be older than the partials' files. */
  lemma RouteFinalsHaveNoLength(run: seq<State>, actions: seq<Action>, expiration: Time, i: nat)
    requires IsRouteRun(run, actions, expiration) && i < |actions| && actions[i].BeginFinal?
    ensures forall p :: p in actions[i].partials ==> p.offset == p.length == 0
    ensures TotalLength(actions[i].partials) == 0
  {
    RouteRunMade(run, actions, expiration, i);
    assert RouteStepAt(run, actions, expiration, i);
    TotalOfEmpty(actions[i].partials);
  }

  /** A final built over the routes has Length 0, and its file is empty if and only if the file
      of every listed partial was empty when it was copied. */
  lemma RouteFinalFile(run: seq<State>, actions: seq<Action>, expiration: Time, j: nat, id: Id)
    requires IsRouteRun(run, actions, expiration) && j < |run| && BuildDone(run[j], id) && id in run[j].st.db
    ensures Upload(id) in run[j].st.files
    ensures var b, file := run[j].building[id], run[j].st.files[Upload(id)];
            && TotalLength(b.partials) == 0
            && file == Concat(b.pieces)
            && (file == [] <==> forall m | 0 <= m < |b.pieces| :: b.pieces[m] == [])
  {
    RouteRunIsRun(run, actions, expiration);
    RouteRunMade(run, actions, expiration, j);
    RunInv(run, expiration, j);
    FinalFile(run, expiration, j, id);
    var b := run[j].building[id];
    assert BuildOk(run[j], id, b);
    assert forall p :: p in b.partials ==> p.length == 0;
    TotalOfEmpty(b.partials);
    assert forall m | 0 <= m < |b.partials| :: b.partials[m] in b.partials;
  }

  /** Nothing has been appended to the partial, nor is any byte of an append in flight in its
      file, nor did a failed copy or commit leave one. */
  ghost predicate Untouched(s: State, p: Session) {
    && p.id !in s.torn && Uncommitted(s.writer, p.id) == []
    && (p.id in s.accepted ==> Joined(s.accepted[p.id]) == [])
  }

  /** A final is empty when every listed partial was untouched at the step that copied it. */
  lemma UntouchedPartialsGiveEmptyFinal(run: seq<State>, actions: seq<Action>, expiration: Time, j: nat, id: Id)
    requires IsRouteRun(run, actions, expiration) && j < |run| && BuildDone(run[j], id) && id in run[j].st.db
    requires forall c, m: nat | 0 <= c < j && CopiedAt(run, c, id, m) && m < |run[j].building[id].partials| ::
               Untouched(run[c], run[j].building[id].partials[m])
    ensures Upload(id) in run[j].st.files && run[j].st.files[Upload(id)] == []
  {
    RouteFinalFile(run, actions, expiration, j, id);
    RouteRunIsRun(run, actions, expiration);
    var b := run[j].building[id];
    forall m | 0 <= m < |b.pieces|
      ensures b.pieces[m] == []
    {
      var c := PieceCopied(run, expiration, j, id, m);
      CopiedUntouched(run, expiration, c, id, b.partials[m]);
    }
  }

  lemma CopiedUntouched(run: seq<State>, expiration: Time, c: nat, id: Id, p: Session)
    requires IsRun(run, expiration) && c < |run| && CanCopy(run[c], id) && Untouched(run[c], p)
    requires p == run[c].building[id].partials[|run[c].building[id].pieces|]
    ensures NextPiece(run[c], id) == []
  {
    RunInv(run, expiration, c);
    assert BuildOk(run[c], id, run[c].building[id]);
    assert p in run[c].building[id].partials && SeenOk(run[c], p);
  }

  // ----- a racing append reaches a final of length 0

  lemma ExtendRouteRun(run: seq<State>, actions: seq<Action>, a: Action, expiration: Time)
    returns (run': seq<State>, actions': seq<Action>)
    requires IsRouteRun(run, actions, expiration) && FromRoute(a) && Enabled(run[|run| - 1], a)
    ensures IsRouteRun(run', actions', expiration) && |run'| == |run| + 1 && actions' == actions + [a]
    ensures run'[|run|] == Do(run[|run| - 1], a, expiration)
  {
    run', actions' := run + [Do(run[|run| - 1], a, expiration)], actions + [a];
    forall i | 0 <= i < |actions'|
      ensures RouteStepAt(run', actions', expiration, i)
    {
      if i < |actions| { assert RouteStepAt(run, actions, expiration, i); }
    }
  }

  /** The partial as it is looked up, before anything is uploaded to it. */
  function RacePartial(): Session { NewSession("p", SAMPLE_HASH, SAMPLE_CHECKSUM, Partial, 0, [], 0, 1) }

  lemma RaceLookedUp() returns (run: seq<State>, actions: seq<Action>)
    ensures IsRouteRun(run, actions, 1)
    ensures var s := run[|run| - 1];
            && s.st == Store(map["p" := RacePartial()], map[Upload("p") := []])
            && s.now == 0 && s.writer.None? && s.creating == map[] && s.building == map[]
            && s.used == {"p"} && s.seen == {RacePartial()} && s.accepted == map["p" := []] && s.torn == {}
  {
    run, actions := [State(Store(map[], map[]), 0, None, map[], map[], {}, {}, map[], {}, {}, map[], {})], [];
    run, actions := ExtendRouteRun(run, actions, BeginCreate("p", SAMPLE_HASH, SAMPLE_CHECKSUM, Partial, 0), 1);
    run, actions := ExtendRouteRun(run, actions, FinishCreate("p"), 1);
    run, actions := ExtendRouteRun(run, actions, Look("p"), 1);
  }

  /** The byte is appended after the look-up. */
  lemma RaceAppended() returns (run: seq<State>, actions: seq<Action>)
    ensures IsRouteRun(run, actions, 1)
    ensures var s := run[|run| - 1];
            && s.st.files == map[Upload("p") := [7 as Byte]] && s.st.db.Keys == {"p"} && s.torn == {}
            && s.now == 0 && s.writer.None? && s.creating == map[] && s.building == map[]
            && s.used == {"p"} && s.seen == {RacePartial()}
  {
    run, actions := RaceLookedUp();
    assert AppendProblem(run[|run| - 1].st, "p", 0, 0).None?;
    run, actions := ExtendRouteRun(run, actions, BeginAppend("p", 0), 1);
    assert [] + [7 as Byte] == [7];
    run, actions := ExtendRouteRun(run, actions, CopyChunk([7]), 1);
    var s := run[|run| - 1];
    run, actions := ExtendRouteRun(run, actions, CommitAppend(0), 1);
    assert run[|run| - 1] == AppendCommitted(s, 0, 1);
  }

  /** The final is begun over the older record. */
  lemma RaceBegun() returns (run: seq<State>, actions: seq<Action>)
    ensures IsRouteRun(run, actions, 1)
    ensures var s := run[|run| - 1];
            && s.st.files == map[Upload("p") := [7 as Byte], Upload("f") := []] && "f" in s.creating && s.torn == {}
            && s.creating["f"] == NewSession("f", SAMPLE_HASH, SAMPLE_CHECKSUM, Final, 0, ["p"], 0, 1)
            && s.building == map["f" := Build([RacePartial()], [])] && s.now == 0 && s.writer.None?
  {
    run, actions := RaceAppended();
    TotalOfEmpty([RacePartial()]);
    assert Ids([RacePartial()]) == ["p"];
    run, actions := ExtendRouteRun(run, actions, BeginFinal("f", SAMPLE_HASH, SAMPLE_CHECKSUM, [RacePartial()], 0), 1);
  }

  lemma RaceCopied() returns (run: seq<State>, actions: seq<Action>)
    ensures IsRouteRun(run, actions, 1)
    ensures var s := run[|run| - 1];
            && s.st.files == map[Upload("p") := [7 as Byte], Upload("f") := [7]] && s.torn == {} && s.now == 0
            && "f" in s.st.db && s.st.db["f"] == NewSession("f", SAMPLE_HASH, SAMPLE_CHECKSUM, Final, 0, ["p"], 0, 1)
            && s.building == map["f" := Build([RacePartial()], [[7]])] && "f" !in s.creating && s.writer.None?
  {
    run, actions := RaceBegun();
    run, actions := ExtendRouteRun(run, actions, FinishCreate("f"), 1);
    var s := run[|run| - 1];
    assert NextPiece(s, "f") == [7] && [] + [7 as Byte] == [7];
    run, actions := ExtendRouteRun(run, actions, CopyPartial("f"), 1);
    var t := run[|run| - 1];
    assert t == PartialCopied(s, "f");
    assert [] + [[7 as Byte]] == [[7]];
    assert t.building == map["f" := Build([RacePartial()], [[7]])];
    assert t.st.files == map[Upload("p") := [7 as Byte], Upload("f") := [7]];
    assert t.st.db["f"] == NewSession("f", SAMPLE_HASH, SAMPLE_CHECKSUM, Final, 0, ["p"], 0, 1);
  }

  /** A run of the routes whose final is active and complete with Offset = Length = 0, while
      its file, which the push then reads, holds the byte; no copy or commit failed. */
  lemma RacingAppendReachesFinal() returns (run: seq<State>, actions: seq<Action>)
    ensures IsRouteRun(run, actions, 1)
    ensures var s := run[|run| - 1];
            && "f" in s.st.db && s.st.db["f"].kind.Final? && Inactive(s.st.db["f"], s.now).None?
            && s.st.db["f"].offset == s.st.db["f"].length == 0
            && Upload("f") in s.st.files && s.st.files[Upload("f")] == [7 as Byte] && s.torn == {}
  {
    run, actions := RaceCopied();
    var s := run[|run| - 1];
    TotalOfEmpty([RacePartial()]);
    run, actions := ExtendRouteRun(run, actions, Refresh("f", 0), 1);
    assert run[|run| - 1] == Refreshed(s, "f", 0, 1);
  }

  // ----- one request at a time

  /** Over sessions the routes made, the creation of a final is allowed exactly when every
      reference is an active partial of the same payload identity with Offset 0. */
  lemma FinalAllowedIff(up: Store, refs: seq<Id>, hash: Hash, checksum: string, now: Time)
    requires SessionStore.Consistent(up) && forall id :: id in up.db ==> RoutePartial(up.db[id])
    ensures PushRoutes.FinalAllowed(up, refs, hash, checksum, now) <==>
              forall ref :: ref in refs ==>
                && ref in up.db && Inactive(up.db[ref], now).None?
                && up.db[ref].kind.Partial? && up.db[ref].offset == 0
                && up.db[ref].hash == hash && up.db[ref].checksum == checksum
  {
    if forall ref :: ref in refs ==> ref in up.db {
      PushRoutes.ListedMembers(up.db, refs);
      assert forall ref :: ref in refs ==> up.db[ref] in PushRoutes.Listed(up.db, refs);
    }
  }

  /** What is then pushed is empty exactly when the files of all references are. */
  lemma {:induction false} ConcatenatedIsEmptyIff(up: Store, refs: seq<Id>)
    requires SessionStore.Consistent(up) && forall ref :: ref in refs ==> ref in up.db
    requires SessionStore.AllOpen(up.files, PushRoutes.Listed(up.db, refs))
    ensures PushRoutes.Concatenated(up, refs) == [] <==> forall ref :: ref in refs ==> up.files[Upload(ref)] == []
  {
    if refs != [] {
      var front, last := refs[..|refs| - 1], refs[|refs| - 1];
      assert refs == front + [last];
      ConcatenatedIsEmptyIff(up, front);
      ConcatAppend(SessionStore.FilesOf(up.files, PushRoutes.Listed(up.db, front)), up.files[Upload(last)]);
    }
  }

  /** A client that uploads a byte to a partial and then concatenates is refused. */
  lemma NonEmptyPartialRefused(up: Store, id: Id, hash: Hash, checksum: string, chunk: Bytes, now: Time,
                               expiration: Time)
    requires SessionStore.Consistent(up) && id !in up.db && Upload(id) !in up.files
    requires chunk != [] && expiration >= 0
    ensures var created := PushRoutes.Begun(up, NewSession(id, hash, checksum, Partial, 0, [], now, expiration), []);
            var (appended, r) := AppendTx(created, id, 0, chunk, now, now, expiration, Copied);
            && r.Ok? && appended.files[Upload(id)] == chunk
            && !PushRoutes.FinalAllowed(appended, [id], hash, checksum, now)
  {
    var created := PushRoutes.Begun(up, NewSession(id, hash, checksum, Partial, 0, [], now, expiration), []);
    var (appended, r) := AppendTx(created, id, 0, chunk, now, now, expiration, Copied);
    assert PushRoutes.AllActive(appended.db, [id], now) ==> appended.db[id] in PushRoutes.Listed(appended.db, [id]);
  }

  lemma OnePartial(files: map<Path, Bytes>, p: Session)
    requires p.tempPath in files
    ensures Concat(SessionStore.FilesOf(files, [p])) == files[p.tempPath]
  {
    assert [p][..0] == [];
    assert SessionStore.FilesOf(files, [p]) == [] + [files[p.tempPath]];
    ConcatAppend([], files[p.tempPath]);
  }

  /** A client whose upload to a partial failed to commit is not: its bytes are in the file, and
      they are what a final over that partial pushes. */
  lemma TornPartialAllowed(up: Store, id: Id, hash: Hash, checksum: string, chunk: Bytes, now: Time, expiration: Time)
    requires SessionStore.Consistent(up) && id !in up.db && Upload(id) !in up.files && expiration >= 0
    ensures var created := PushRoutes.Begun(up, NewSession(id, hash, checksum, Partial, 0, [], now, expiration), []);
            var (torn, r) := AppendTx(created, id, 0, chunk, now, now, expiration, CommitFailed);
            && r.Err? && PushRoutes.FinalAllowed(torn, [id], hash, checksum, now)
            && PushRoutes.Concatenated(torn, [id]) == chunk
  {
    var created := PushRoutes.Begun(up, NewSession(id, hash, checksum, Partial, 0, [], now, expiration), []);
    var (torn, r) := AppendTx(created, id, 0, chunk, now, now, expiration, CommitFailed);
    assert AppendProblem(created, id, 0, now).None?;
    assert torn.files[Upload(id)] == [] + chunk == chunk;
    assert [id][..0] == [] && PushRoutes.Listed(torn.db, [id]) == [] + [torn.db[id]];
    OnePartial(torn.files, torn.db[id]);
  }
}
