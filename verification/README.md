# A verified model of vaps

vaps keeps immutable payloads, named by a hash the client chooses, in four places: an
authoritative object store, a metadata database, a bounded disk cache and a bounded memory
cache. Payloads arrive by direct pushes and by resumable (tus) uploads, and leave by pulls
that try memory, then disk, then the object store. This project models those parts in Dafny
and proves what they keep, in three styles:

* **state machines** for what runs concurrently: one step per store call or per database
  transaction, any number of requests, any interleaving, failed calls and crashes
  (`Durable`, `DurableInvariant`, `DurableRuns`, `DurableProgress`, `DurableAnswers`,
  `DurableEffects`, `DurableRecords`, `LegacySizes`, `SessionSteps`, `SessionInvariant`,
  `SessionRuns`, `SessionExpiry`, `SessionFinals`, `HttpConcatenation`, `StartupPool`,
  `StartupCauses`, `StartupValidation`, `ExistsFanout`, `IndexRaces`);
* **classes whose methods update state in place**, each proved against a specification
  function or relation (`LruCache`, `BlobStore`, `SessionStore`, `PushRoutes`,
  `MetadataIndex`);
* **pure functions and the lemmas about them** for parsing, ordering and recency (`Ranges`,
  `Recency`, `Sorting`, `Sessions`, `Base`).

Two of the styles meet in `PushRefinement`: a push carried out by the handler class of
`PushRoutes`, whatever fails in it, is a run of one request of the protocol in `Durable`.

## The main results

* *Durable protocol.* `Durable` has a program counter per request with over thirty places; each
  step is one call to the object store, the metadata, the disk cache, the memory cache or a shard
  lock. Pushes, pulls with and without a Range, the older GET route and existence checks
  interleave freely, `Put` may fail with or without effect, and the process may crash between
  any two steps. `DurableInvariant` proves, by rely-guarantee, that every step keeps the
  stores and each request's own knowledge right and disturbs no other request; `DurableRuns`
  derives that objects never change, that metadata agrees with the objects, that pulls after
  a push serve its checksum (and size, and bytes), and that at most one push reports Created.
  `DurableProgress` shows that no state with an unfinished request is stuck, and that every
  request ends within 21 steps of its own. `DurableAnswers` shows that a read none of whose
  calls fails, alone or among other requests, ends as it should: a pull sends exactly the
  requested part of the object's bytes from whatever tier, and `DurableEffects` what it leaves
  behind. `DurableRecords` shows that the unlocked races never lose a known checksum, and
  exactly when they lose an ETag.
* *Upload sessions.* Records and temp files change in separate steps, and an append is a
  transaction with reads, clock readings and scans in between. No crash or interleaving leaves a
  record without its file; chunks are accepted only at the Offset they were sent for, and tile
  `[0, Offset)`; when an expired session becomes
  active again, and when a clean-up deletes an active one, is characterised exactly; a final's
  file is what its partials' files held when they were copied; any split of a payload into
  chunks leaves the stores as one direct push does.
* *Caches.* The hash map and the linked list of the memory cache refine a recency sequence;
  a larger budget never loses a hit. Disk eviction removes the oldest files, by modification
  time, and the fewest that bring the rest within the limit.
* *Concurrent schedules.* The start-up pool and the existence fan-out never deadlock, end
  within a stated number of steps, and report the first or the right error; without failing
  calls they succeed exactly when they should (`StartupCauses.PoolAcceptsIff`,
  `ExistsFanout.QuietRunsSucceed`).
* *Queries and ranges.* Queries equal a scan of the database; pages concatenate; printed
  ranges are answered with exactly the positions they select.

## What the code does not keep

Where the code falls short of what its design or documentation suggests, the model follows the
code. Each item names the exact condition and an instance:

* A push that meets a legacy object (stored before CRC checksums) compares the CRC only. A
  colliding payload of another size is then accepted, cached and recorded, and pulls can fail
  (`LegacySizes.LegacySizesCanDiffer`, `LegacyPullFails`). The recorded size is right exactly
  when the payload has the object's size (`DurableRuns.PushRecordSize`), and the checks of a
  later pull fail exactly when it has not (`DurableRuns.ChecksFailOnlyOnLegacySizes`).
* Over HTTP a tus concatenation, which the server advertises (internal/httpapi/payload_push.go:44),
  does not concatenate what was uploaded. Partials are created with length 0, so a final is
  allowed exactly over partials looked up with Offset 0
  (`HttpConcatenation.RouteFinalsHaveNoLength`, `FinalAllowedIff`); a client that uploads a byte
  and then concatenates is refused (`NonEmptyPartialRefused`). The final has Length 0, but its
  file is empty if and only if every partial's file was empty when it was copied
  (`RouteFinalFile`), as it is when no listed partial was appended to, or kept bytes of a failed
  append, since its look-up (`UntouchedPartialsGiveEmptyFinal`). Otherwise those bytes are
  pushed: after a racing append (`RacingAppendReachesFinal`) or an append that failed to commit
  (`TornPartialAllowed`). At the level of the session store, which takes lengths from its
  caller, the same holds of any lengths: the file is as long as Offset and Length if and only if
  no partial had grown by the time it was copied (`SessionFinals.FinalFile`, `FinalIsExactIff`).
* An append checks its session before it copies and commits afterwards, a clean-up reads the
  records before the clock and deletes later, and neither looks again. So an expired session can
  become active, and a clean-up can delete an active one with chunks that were just accepted.
  A session that a clean-up read and judged is active later if and only if it had only expired
  and was renewed after the reading by a renewal that has not run out
  (`SessionExpiry.ScannedIsActiveIff`). For a regular or partial session listed at once that
  means: if and only if an append to it, whose check had passed, was in flight at the scan, and
  an append has committed since whose expiry has not run out (`InFlightAtScanIff`;
  `RenewalWasUnderWay` with a reading that is older than the judgement). Instances are
  `RevivedSessionIsPurged` and `StaleReadingIsPurged`. With no append in flight nothing is revived
  or lost (`ExpiredNeverRevived`, `CleanupIsSafe`). `refreshOffset` does not ask whether its
  final is still active either: a listed final is active if and only if it had only expired, was
  being built at the scan, and its refresh has come since and has not run out
  (`BuildingAtScanIff`; instances `RefreshedFinalIsPurged` and `FinalExpiresWhileBuilding`).
* A legal Range that names a position of 2^63 or more is refused as invalid, although it selects
  bytes; every other printed Range is answered exactly (`Ranges.PrintedRoundTrip`,
  `LargeLastPositionRefused`). The suffix form is accepted for an empty payload and then denotes
  `(0, -1)` (`ParsedRangeInBounds`, `EmptyPayloadSuffixAccepted`). A pull that asks for it is
  then answered with nothing when a copy is in memory or on disk, and fails when the part has to
  be read from the object store, which refuses an empty range; this is the only case in which a
  pull alone, whose range is not refused, fails (`DurableAnswers.AloneEndsAsExpected`).
* A direct push whose length is not announced may be one byte longer than the configured limit
  (`PushRoutes.Handler.DirectPush`, `OneByteOverTheLimit`).
* Two overlapping puts of one metadata record can leave the dashboard index with the record the
  database no longer has: the two agree if and only if no put that reached the database last of
  its hash is overtaken on the way to the index by one that wrote something else
  (`IndexRaces.MirrorsIff`), as none is when puts of one hash do not overlap
  (`SerialisedMirrors`; instance `OverlappingPutsDisagree`).
* markCached writes back a record that it read before: an ETag recorded in between disappears
  again, which happens exactly then (`DurableRecords.ETagLostIff`; instance
  `MarkCachedTakesBack`). A known checksum never does (`ChecksumNeverLost`).
* The start-up check leaves every record with its object's size and ETag, but with a listing it
  does not look at the checksums of records that already have an ETag; the metadata is then
  consistent if and only if those are right (`StartupValidation.ValidationEstablishes`; instance
  `WrongChecksumAccepted`).

## Premises

* One server process: the shard locks are in memory. Objects are never deleted.
* The stores a run of the protocol starts from are consistent (`DurableRuns.Start`): records
  and cached files agree with the objects, and payloads of hashes that are not legacy have the
  objects' sizes.
* The CRC32C and the object store's ETag are arbitrary functions of the bytes (`Durable.Env`);
  byte equality is stated under the premise that the CRC does not collide on the payloads that
  occur (`DurableRuns.CollisionFree`).
* A store call takes effect at one instant, at its own step or never.
* Clocks do not go back (`SessionRuns.ClockRuns`), and the identifiers drawn for sessions and staging
  files are fresh.
* Each payload of a start-up validation has one remote answer throughout; a `Head` may also
  fail at any time.
* In the sequential classes the call that fails is a parameter (`PushRoutes.Faults`,
  `Sessions.SessionFault`, `Sessions.Outcome`), and the contracts say what each failure leaves
  behind. Removing a temp file does not fail, nor does the Terminate that undoes a broken final.

## Model

| member | source | states |
|---|---|---|
| DurableRuns.ObjectsNeverChange | internal/httpapi/storage.go:27-71 | over every run, once an object exists its bytes never change, and its info changes at most once, from the legacy digest to the CRC of those bytes, although reads migrate without the lock |
| DurableRuns.MetadataAgrees | internal/httpapi/storage.go:89-127 | at every step every record belongs to an existing object, a known checksum is that object's CRC, a known ETag is its ETag, and the size is its size unless the hash is legacy, despite the unlocked get-then-put races |
| DurableRecords.ChecksumNeverLost | internal/httpapi/storage.go:173-248 | a record whose checksum is known keeps that checksum for the rest of every run, whatever older records other requests still write |
| DurableRecords.ETagLostIff | internal/httpapi/handler.go:955-965 | in a step of a run an ETag disappears from a record if and only if the step is the write of a markCached that read the record before the ETag was recorded |
| DurableRecords.MarkCachedTakesBack | internal/httpapi/handler.go:955-965 | a run in which it does |
| DurableRuns.TierCoherence | internal/httpapi/payload_pull.go:52-148 | a pull that succeeds, from any tier, sends exactly the requested part of bytes with the CRC of every successful push of the hash, with its size when not legacy, and equal to the pushed bytes when the CRC is collision-free |
| DurableRuns.PullsAgree | internal/httpapi/payload_pull.go:52-148 | two pulls of a hash with the same Range header send the same body whatever tiers serve them, the part of the object it selects, when the CRC is collision-free |
| DurableRuns.PushesAgree | internal/httpapi/storage.go:29-87 | over every run at most one push of a hash reports Created, and all that succeed carry the same checksum, and the same size when not legacy |
| DurableRuns.ExistsAfterPush | internal/httpapi/handler.go:877-897 | read your writes: once a push of a hash has succeeded, no existence check answered later says it is absent, in any interleaving |
| DurableRuns.ExistsIsTruthful | internal/httpapi/handler.go:877-897 | a payload that an existence check reports is in the object store for good, with the reported size when not legacy |
| DurableRuns.ChecksFailOnlyOnLegacySizes | internal/httpapi/handler.go:909-932 | the remote checks of a pull, whole or ranged, fail on a known record if and only if its size differs from the object's, which only a legacy hash allows |
| DurableRuns.PushRecordSize | internal/httpapi/storage.go:114-126 | the record a successful push writes has the object's size if and only if the pushed payload has; always, when the hash is not legacy |
| DurableAnswers.AloneEndsAsExpected | internal/httpapi/payload_pull.go:52-202 | a read handled alone from consistent stores, with no failing call, ends exactly as expected: an absent payload is reported absent or the pull fails; an existence check reports the object's size; a pull from memory, disk or the object store, whole or ranged, sends exactly the requested part of the object's bytes and fails if and only if the range is refused, or is a part of an empty payload of which no copy is at hand. The copies at hand must be the object's bytes; a legacy hash must be recorded with its object's size |
| DurableAnswers.AloneEnds | internal/httpapi/payload_pull.go:52-148 | such a read can always go on without a failing call until it has ended so |
| DurableAnswers.AnsweredRight | internal/httpapi/handler.go:877-953 | the same among any other requests, step by step, for a request whose own calls do not fail and find copies and size right: no check refuses it, whatever the others do in between |
| DurableAnswers.StepStays | internal/httpapi/storage.go:129-248 | one such step leads to no failure but a refused range, and keeps copies and size right |
| DurableEffects.AloneLeaves | internal/httpapi/storage.go:165-248 | a read alone of a payload that is not in memory leaves its record with the CRC and size of the object's bytes, a pull that does not find it on disk with the object's ETag too, and one that puts it into memory has marked it as cached |
| Durable.ShardIff | internal/httpapi/storage.go:29-31 | there are 256 shard locks, and two hashes in lower case share one if and only if they begin with the same two digits |
| DurableProgress.LocksAreLive | internal/httpapi/storage.go:29-31 | whoever waits for a shard lock waits for a live request of the same shard that does not wait itself and whose next store call has an answer that is no failure: no lock is leaked on any path or by a crash |
| DurableProgress.SomeRequestProceeds | internal/httpapi/storage.go:27-31 | no deadlock: while a request is unfinished, some request's next call has an answer that is no failure |
| DurableProgress.EveryRequestEnds | internal/httpapi/payload_pull.go:52-148 | every request ends within 21 steps of its own, however many others there are |
| DurableProgress.ActDescends | internal/httpapi/storage.go:21-292 | every step of a request, a failing call included, brings it closer to its end |
| DurableRuns.RunGrows | internal/httpapi/storage.go:27-31 | between any two states of a run objects only evolve and finished requests keep their result |
| DurableInvariant.NextOk | internal/httpapi/storage.go:21-292 | every step of the system, a crash included, keeps the invariant and lets objects only evolve |
| DurableInvariant.ActOk | internal/httpapi/storage.go:21-292 | one step of a request keeps the stores and its own knowledge right, keeps its promise to the others, and claims a creation only of an absent object |
| DurableInvariant.Undisturbed | internal/httpapi/storage.go:27-31 | a step that keeps its promise invalidates nothing another request knows |
| DurableInvariant.MoveOneCreator | internal/httpapi/storage.go:33-59 | two requests never both claim to have created the same hash |
| DurableInvariant.ObjectWriteOk | internal/httpapi/storage.go:41-59 | a Put of an absent object under the lock, or of the bytes already there, keeps every store consistent |
| LegacySizes.LegacySizesCanDiffer | internal/httpapi/storage.go:62-69 | a run, with an identity the server accepts, in which a push of two bytes over a legacy object of one byte with the same CRC succeeds, is cached, and is recorded with size 2 |
| LegacySizes.LegacyPullFails | internal/httpapi/handler.go:923-932 | a run in which such a push succeeds uncached and the next pull, with no failing call, fails its remote check |
| PushRefinement.PushRuns | internal/httpapi/storage.go:21-127 | a push handled alone, with whatever failures, is a run of one protocol request from its start to PushDone or Failed, with the same objects, metadata and disk cache and its lock free again |
| PushRefinement.CommitRuns | internal/httpapi/storage.go:89-127 | commitPayloadMetadata handled alone is the protocol's steps after the unlock |
| PushRefinement.StoreRuns | internal/httpapi/storage.go:33-73 | Head and Put or compare, handled alone, are protocol steps under the lock |
| PushRefinement.ReconcileRuns | internal/httpapi/storage.go:250-292 | a migration within a push is the protocol's migration steps, to Publish or to the deferred Unlock |
| PushRefinement.PublishRuns | internal/blobstore/store.go:132-180 | publishing to the cache directory, with its eviction, is the protocol's publish step on the cache seen by hash |
| PushRoutes.UploadInChunks | internal/httpapi/payload_push.go:91-132 | any in-order split of a non-empty payload into non-empty chunks, the first with the creation or not, pushes the whole payload; success leaves no session or temp file, failure both with every byte, a failing creation nothing |
| PushRoutes.RoutesAgree | internal/httpapi/payload_push.go:298-319 | from equal stores a chunked upload and a direct push end in equal stores, and with the same reply unless completing the session fails |
| PushRoutes.BothRoutes | internal/httpapi/payload_push.go:50-132 | two servers in equal states, one given the payload directly and one in chunks, are in equal states afterwards |
| PushRoutes.PatchAdvances | internal/httpapi/payload_push.go:197-257 | one more chunk sent at the reported offset before expiry extends the session, or completes the upload as one push of all the bytes |
| PushRoutes.ChunkAppended | internal/uploadsession/store.go:153-188 | appending chunk k to the session of the first k chunks gives the session of the first k+1 |
| PushRoutes.CompletedUpload | internal/uploadsession/store.go:190-231 | completing an upload gives back exactly the session store from before it began |
| PushRoutes.PushIsDetermined | internal/httpapi/storage.go:21-127 | the stores after a push and its reply are determined by the payload, the time and the failures: neither the route nor the order of the directory walk matters |
| PushRoutes.PushSucceeds | internal/httpapi/storage.go:75-127 | after a successful push the object has the payload's CRC and keeps its old bytes if it was there, the record has the payload's checksum and size and the object's ETag, and a new cache file holds the payload |
| PushRoutes.PushSucceedsIff | internal/httpapi/storage.go:61-72 | with no failing call a push succeeds if and only if its identity is valid, its checksum is the payload's, and neither an object nor a record that is there contradicts it; a refused push changes no metadata |
| PushRoutes.PushKeeps | internal/httpapi/storage.go:21-127 | whatever fails, a push changes no object's bytes and nothing of another hash but evicted cache files |
| PushRoutes.Handler.Reconcile | internal/httpapi/storage.go:250-292 | the sequential migration: the object store and ETag afterwards, for each failing call |
| PushRoutes.Handler.StoreObject | internal/httpapi/storage.go:33-73 | Head, then Put, migration or comparison: the object store, Created and ETag afterwards |
| PushRoutes.Handler.PutPayloadDurably | internal/httpapi/storage.go:21-87 | the object store, the disk cache and the reply afterwards; on every path the staging file is gone |
| PushRoutes.Handler.CommitPayloadMetadata | internal/httpapi/storage.go:89-127 | the metadata afterwards: new or updated record, refusal on a conflicting one, each failing call |
| PushRoutes.Handler.Push | internal/httpapi/payload_push.go:60-88 | staging, commit and metadata together, with no staging file left |
| PushRoutes.Handler.DirectPush | internal/httpapi/payload_push.go:50-89 | within the limit (plus one byte when the length is not announced) the outcome of a push, beyond it nothing changes |
| PushRoutes.OneByteOverTheLimit | internal/httpapi/payload_push.go:55-60 | a body one byte over the limit whose length is not announced is stored |
| PushRoutes.Handler.FinalizeUpload | internal/httpapi/payload_push.go:298-319 | the session's file is pushed; only success completes the session; any failure leaves it and its bytes, also that of completing it, which comes after the push has happened |
| PushRoutes.Handler.TusCreateUpload | internal/httpapi/payload_push.go:91-132 | nothing when the session cannot be created; otherwise a new session, and its first bytes as a PATCH at offset 0 |
| PushRoutes.Handler.TusPatch | internal/httpapi/payload_push.go:197-257 | append at the offset, finalize exactly when the length is reached; an unreadable body or wrong digest, another hash, checksum or offset than the session's, or an inactive session is refused and changes nothing; an accepted chunk was sent at the Offset, which moves by its length |
| PushRoutes.Handler.LookUp | internal/httpapi/payload_push.go:148-157 | the referenced sessions in order, exactly when all are active |
| PushRoutes.Handler.TusCreateFinal | internal/httpapi/payload_push.go:148-167 | the concatenation of the partials in reference order is pushed as one payload; success removes final and partials, a failed push keeps them; refusal, failing creation or broken copy changes nothing; a failing refresh leaves the final with its file and Offset 0 |
| PushRoutes.CompletedFinal | internal/uploadsession/store.go:202-219 | completing a final built from references leaves the store from before it without the partials, duplicates tolerated |
| HttpConcatenation.RouteFinalsHaveNoLength | internal/httpapi/payload_push.go:134-167 | in every run of the HTTP routes the records a final is begun over have Offset and Length 0 |
| HttpConcatenation.RouteFinalFile | internal/uploadsession/store.go:292-317 | in every such run the final's Length is 0 and its file is empty if and only if every listed partial's file was empty when it was copied |
| HttpConcatenation.UntouchedPartialsGiveEmptyFinal | internal/uploadsession/store.go:297-311 | the file is empty when no listed partial had been appended to, had bytes in flight, or kept bytes of a failed append, at the step that copied it |
| HttpConcatenation.RacingAppendReachesFinal | internal/uploadsession/store.go:297-317 | a run of the routes, with no failing call, whose active final has Offset and Length 0 and a byte in its file |
| HttpConcatenation.FinalAllowedIff | internal/uploadsession/store.go:267-281 | over sessions made by the routes a final is allowed if and only if every reference is an active partial of the same identity with Offset 0 |
| HttpConcatenation.ConcatenatedIsEmptyIff | internal/uploadsession/store.go:297-311 | what is then pushed is empty if and only if the files of all references are |
| HttpConcatenation.TornPartialAllowed | internal/uploadsession/store.go:173-181 | after an append that failed to commit a final over the partial is allowed and pushes those bytes |
| HttpConcatenation.NonEmptyPartialRefused | internal/httpapi/payload_push.go:135-143 | a client that uploads a byte to a partial and then concatenates is refused |
| SessionInvariant.DoOk | internal/uploadsession/store.go:109-359 | every step keeps the session invariant: each file operation apart, and an append as check, copies, stamp and commit with other operations in between |
| SessionRuns.RunInv | internal/uploadsession/store.go:109-359 | every state of every run satisfies it, crashes included |
| SessionRuns.RecordsHaveFiles | internal/uploadsession/store.go:109-140 | at every step every record has its own existing temp file, shared with no other record and not about to be removed, and no shorter than Offset |
| SessionRuns.AppendsTile | internal/uploadsession/store.go:153-188 | the accepted chunks of a regular or partial session, each at the offset it was sent for, tile [0, Offset) without gap or overlap, and are, with what an append in flight has copied, exactly its file if and only if no failed copy or commit left bytes |
| SessionRuns.AcceptedAsSent | internal/uploadsession/store.go:153-188 | over every run a chunk is accepted only at the Offset of that moment, which is the offset sent with it, and moves it by its length: a chunk sent again is not accepted twice |
| SessionRuns.SentAtOffset | internal/uploadsession/store.go:166-168 | from its check to its end an append finds the session at the offset it was sent for, whatever other operations do in between |
| SessionSteps.AppendStepsAreTx | internal/uploadsession/store.go:153-188 | an append can begin exactly when its transaction is not refused, and its steps one after another are that transaction, for each outcome |
| SessionExpiry.ScannedIsActiveIff | internal/uploadsession/store.go:336-359 | a session that a clean-up read at one step and judged at a later one is active afterwards if and only if it had only expired and was renewed after the reading by a renewal that has not run out |
| SessionExpiry.InFlightAtScanIff | internal/uploadsession/store.go:153-188 | a regular or partial session listed at once is active later if and only if an append to it was in flight at the scan and an append has committed since whose expiry has not run out |
| SessionExpiry.RenewalWasUnderWay | internal/uploadsession/store.go:155-185 | the append that renews a listed session had passed its check before the expiry, and was in flight at the judgement unless it had already committed; a final is renewed by the refresh of a build |
| SessionExpiry.BuildingAtScanIff | internal/uploadsession/store.go:320-334 | a listed final is active later if and only if it had only expired, was being built at the scan, and its refresh has come since and has not run out |
| SessionExpiry.LastRenewal | internal/uploadsession/store.go:153-188 | a record changes only by renewals, and carries the stamp of the last one, which is the latest |
| SessionExpiry.ExpiredNeverRevived | internal/uploadsession/store.go:365-376 | an inactive regular or partial session with no append in flight keeps its record for the rest of the run: no append to it begins or is accepted |
| SessionExpiry.CleanupIsSafe | internal/uploadsession/store.go:336-359 | a session judged inactive, with no append in flight then and no renewal since the reading, takes no append from then on |
| SessionExpiry.PurgingWasScanned | internal/uploadsession/store.go:336-358 | every session the clean-up is about to delete it has read, and judged inactive from that reading |
| SessionExpiry.RevivedSessionIsPurged | internal/uploadsession/store.go:155-185 | a run in which an append checked at the expiry, scanned while in flight and committed after it, leaves an active session that the clean-up deletes |
| SessionExpiry.StaleReadingIsPurged | internal/uploadsession/store.go:338-351 | a run in which the append lies wholly between the reading and the judgement |
| SessionExpiry.RefreshedFinalIsPurged | internal/uploadsession/store.go:320-334 | a final expired during its build and scanned before the refresh is active when the clean-up deletes it |
| SessionExpiry.FinalExpiresWhileBuilding | internal/uploadsession/store.go:320-334 | such a state is reached by a run |
| SessionFinals.FinalFile | internal/uploadsession/store.go:292-317 | with appends, clean-up and crashes in between, a completed final's file is the ordered contents of its partials when copied, and is as long as Offset and Length if and only if no piece is longer than its partial's recorded length |
| SessionFinals.FinalIsExactIff | internal/uploadsession/store.go:267-317 | when no listed partial keeps bytes of a failed append, the file is as long as Offset and Length if and only if no listed partial accepted a byte, or had one in flight, between its look-up and its copy |
| SessionFinals.PieceCopied | internal/uploadsession/store.go:297-311 | every piece of a build is its partial's file at the step that copied it |
| SessionFinals.PieceHasItsLength | internal/uploadsession/store.go:297-311 | a partial without leftover bytes is copied with its recorded length if and only if it accepted no further byte since its look-up and none is in flight; the piece is what it accepted and what is in flight |
| Sessions.PurgeableIffInactive | internal/uploadsession/store.go:346-376 | the clean-up's scan condition is exactly that the session is not active |
| SessionStore.SessionStore.constructor | internal/uploadsession/store.go:60-88 | an empty store with the default expiration when none is given |
| SessionStore.SessionStore.Create | internal/uploadsession/store.go:109-140 | an empty file and a record for it, or, when the record cannot be written, neither |
| SessionStore.SessionStore.Get | internal/uploadsession/store.go:142-151 | the record exactly when present and active, and which error otherwise |
| SessionStore.SessionStore.Append | internal/uploadsession/store.go:153-188 | accepted if and only if the session is there, active, not a final, at exactly the offset sent, and copy and commit succeed; then the chunk is appended and Offset moves by its length; at another offset nothing changes; what failed copies and commits leave is the append transaction |
| SessionStore.SessionStore.MarkCompleted | internal/uploadsession/store.go:190-231 | exactly the session and, of a final, its listed partials go, with their files, or nothing when the transaction fails |
| SessionStore.SessionStore.DeleteListed | internal/uploadsession/store.go:202-219 | the loop over the refs deletes exactly the listed records that exist, duplicates tolerated |
| SessionStore.SessionStore.Terminate | internal/uploadsession/store.go:233-253 | the record and its file go; an unknown id changes nothing |
| SessionStore.SessionStore.OpenTemp | internal/uploadsession/store.go:255-265 | the file and record exactly of an active session |
| SessionStore.SessionStore.BuildFinalFromPartials | internal/uploadsession/store.go:267-318 | success exactly when no partial has a problem and no call fails; the file is then the ordered concatenation and Offset = Length = the sum; a problem, failing creation or broken copy changes nothing, a failing refresh leaves the final with its whole file and Offset 0 |
| SessionStore.SessionStore.CreateAndFill | internal/uploadsession/store.go:288-317 | creating and filling the final, undone when creation or copying fails, and kept when only the refresh fails |
| SessionStore.SessionStore.Assemble | internal/uploadsession/store.go:292-317 | the filled final, or the store without it when a copy breaks, or the filled final with its old record when the refresh fails |
| SessionStore.SessionStore.CopyPartials | internal/uploadsession/store.go:297-315 | the copy loop writes the ordered concatenation exactly when no file is missing and no copy breaks, and touches no other file |
| SessionStore.SessionStore.FirstProblem | internal/uploadsession/store.go:268-281 | none exactly when every partial is a complete, active partial of that hash and checksum |
| SessionStore.SessionStore.RefsAndTotal | internal/uploadsession/store.go:282-287 | the ids in order and the sum of the lengths |
| SessionStore.SessionStore.RefreshOffset | internal/uploadsession/store.go:320-334 | offset and expiry of that record alone, or nothing when the transaction fails |
| SessionStore.SessionStore.CleanupExpired | internal/uploadsession/store.go:336-359 | run alone, exactly the inactive sessions and their files go, in any order |
| SessionStore.FinalIsComplete | internal/uploadsession/store.go:284-317 | from current records whose files are as long as their offsets, the concatenation is as long as the final's Offset and Length |
| SessionStore.FinalHoldsPartial | internal/uploadsession/store.go:292-317 | in the final's file partial m's bytes lie right after those of the partials before it, in the order given |
| SessionStore.CompletingFinalRemovesPartials | internal/uploadsession/store.go:202-219 | completing a final gives the store from before it, without its partials and untouched otherwise |
| LruCache.Cache.constructor | internal/cache/cache.go:33-40 | an empty cache with those limits |
| LruCache.Cache.CanStoreSize | internal/cache/cache.go:46-51 | exactly the non-negative sizes within both limits of an enabled cache |
| LruCache.Cache.Add | internal/cache/cache.go:53-74 | stored exactly when the cache is enabled and the entry within both limits; the map and the linked list become the recency sequence with the entry in front and the fewest least recent entries evicted, or stay as they are; no entry is ever longer than the cache or a positive per-object limit |
| LruCache.Cache.DropExisting | internal/cache/cache.go:61-63 | an entry of the same key goes first |
| LruCache.Cache.Insert | internal/cache/cache.go:65-68 | the entry is in front of the list, in the map and in usedBytes |
| LruCache.Cache.EvictOverflow | internal/cache/cache.go:70-72 | the eviction loop ends, within the limit, at the trimmed sequence |
| LruCache.Cache.Get | internal/cache/cache.go:76-93 | the entry's bytes exactly when present, moved to the front, with one hit or one miss counted |
| LruCache.Cache.TouchElement | internal/cache/cache.go:90-91 | the element found is the key's entry, and moving it gives the touched sequence |
| LruCache.Cache.Contains | internal/cache/cache.go:95-103 | presence, without touching the order |
| LruCache.Cache.GetStats | internal/cache/cache.go:105-120 | the number of entries and the sum of their lengths, read off the map and usedBytes |
| LruCache.Cache.RemoveOldest | internal/cache/cache.go:122-127 | exactly the last entry of the sequence goes |
| LruCache.Cache.RemoveElement | internal/cache/cache.go:129-134 | exactly that element leaves the map, the list and usedBytes |
| LruCache.List.MoveToFront | internal/cache/cache.go:90 | the links describe the list with that node in front |
| LruCache.List.Remove | internal/cache/cache.go:133 | the links describe the list without that node |
| LruCache.List.PushFront | internal/cache/cache.go:66 | the links describe the list with that node added in front |
| LruCache.Pull | internal/httpapi/payload_pull.go:136-144 | a GET pull: a hit is touched, a miss adds the fetched payload when it may be stored |
| LruCache.PullAll | internal/httpapi/payload_pull.go:52-148 | a run of pulls leaves the entries and counts the hits that the recency sequence says |
| LruCache.UnlinkedEntries | internal/cache/cache.go:129-134 | unlinking a node removes exactly its key's entry and its length, and the map still matches the list |
| LruCache.IndexedSize | internal/cache/cache.go:112-114 | the map has as many keys as the list has nodes |
| Recency.AddedOk | internal/cache/cache.go:53-74 | the entry just added is in front and never evicted, keys stay distinct, the size stays within the limit, nothing else appears |
| Recency.AddedLimited | internal/cache/cache.go:46-74 | adding an entry that may be stored leaves no entry longer than the cache or a positive per-object limit |
| Recency.TrimIsLongestPrefix | internal/cache/cache.go:70-72 | eviction keeps the longest prefix that fits: the fewest least recent entries go |
| Recency.PulledPrefix | internal/cache/cache.go:53-93 | one pull keeps the smaller cache's sequence a prefix of the larger one's |
| Recency.Inclusion | internal/httpapi/payload_pull.go:136-144 | over any run of pulls of payloads that fit the smaller budget the smaller cache is a prefix of the larger and has no hit the larger has not |
| BlobStore.RelativePathInjective | internal/blobstore/store.go:62-67 | each hash has its own cache file |
| BlobStore.Store.Stage | internal/blobstore/store.go:81-129 | succeeds exactly for a valid identity and matching checksum, and leaves a staging file only then |
| BlobStore.Store.Publish | internal/blobstore/store.go:132-180 | success exactly when an existing file agrees, or the link is durable and the cache within its limit; which cache files remain, and whether the staging file is consumed, for each failure |
| BlobStore.Store.Discard | internal/blobstore/store.go:191-197 | the staging file goes; repeating it changes nothing |
| BlobStore.Store.Put | internal/blobstore/store.go:69-76 | success exactly when the identity is valid, the checksum matches and publishing succeeds; no staging file is left on any path |
| BlobStore.Store.Exists | internal/blobstore/store.go:199-212 | presence and size of the hash's file |
| BlobStore.PutThenOpen | internal/blobstore/store.go:214-228 | what a successful Put leaves in the cache, if not evicted at once, is what Open returns: bytes of the payload's size and checksum, the payload itself when the file is new |
| BlobStore.Store.Walk | internal/blobstore/store.go:268-291 | every cache file once, in any order, with their total size |
| BlobStore.Store.Evict | internal/blobstore/store.go:264-308 | the shortest prefix of the (modTime, path) order that brings the total within the limit goes, or the part of it before a failing removal; success exactly when the rest fits |
| BlobStore.Store.RemoveExcess | internal/blobstore/store.go:298-306 | the removal loop removes exactly the excess, or stops at the failing removal and says so |
| BlobStore.EvictionIsDetermined | internal/blobstore/store.go:271-297 | the result does not depend on the order of the walk |
| BlobStore.EvictionIsLeast | internal/blobstore/store.go:298-306 | the youngest file dropped could not have been kept: with it the bytes of the files kept would exceed the limit |
| BlobStore.EvictionFits | internal/blobstore/store.go:298-306 | unless a removal failed, the bytes of the files kept are within the limit together |
| BlobStore.NoNeedlessEviction | internal/blobstore/store.go:264-302 | nothing is dropped when the bytes of all files are within the limit, or without one |
| BlobStore.PublishedIsCached | internal/blobstore/store.go:132-180 | a new payload that fits beside what is there is in the cache after Publish, and everything else too |
| BlobStore.RemainderFits | internal/blobstore/store.go:298-306 | the cache is within its limit afterwards if and only if all of the excess went |
| BlobStore.EvictionIsOldestFirst | internal/blobstore/store.go:292-306 | for every file dropped and every file kept, the dropped one's modification time is smaller, or equal and its path smaller in byte order; also when a removal fails midway; kept files are unchanged |
| BlobStore.ExcessExact | internal/blobstore/store.go:298-306 | the number removed is the least that makes the rest fit |
| Sorting.SortOk | internal/blobstore/store.go:292-297 | sorting by a strict order that is total on the items gives an ascending list of the same elements |
| Sorting.SortedUnique | internal/metadata/store.go:240-273 | two ascending lists of the same elements are equal, so the input order does not matter |
| StartupPool.PoolIsNotEmpty | cmd/vaps/startup_check.go:305-331 | the pool has the configured number of workers, one for zero, and one a core for a negative number: at least one |
| StartupPool.DoOk | cmd/vaps/startup_check.go:181-298 | every step of sender, workers and contexts keeps the pool's invariant |
| StartupPool.NeverDeadlocks | cmd/vaps/startup_check.go:192-282 | under every schedule some step that is neither a failure nor a cancellation is possible until the function returns, and a worker is gone only after cancellation or close |
| StartupPool.EveryScheduleEnds | cmd/vaps/startup_check.go:192-298 | no schedule is longer than 5 steps a payload, one a worker, and 3 |
| StartupPool.FirstErrorIsReturned | cmd/vaps/startup_check.go:181-190 | the error returned is exactly the first reported |
| StartupPool.NilMeansAllGood | cmd/vaps/startup_check.go:159-299 | nil means every payload was checked exactly once, matched its remote object, and now has its non-empty ETag recorded |
| StartupCauses.PoolAcceptsIff | cmd/vaps/startup_check.go:192-299 | in every run without a failing call or an outside cancellation the pool returns nil if and only if every payload's object is there with its hash, checksum, size and a non-empty ETag, which is the payload's own if it has one |
| StartupCauses.ErrorHasCause | cmd/vaps/startup_check.go:192-244 | the error returned in any run has a cause: a payload whose object is missing, differs in hash, checksum or size, has another ETag or none, or else a call that failed |
| StartupCauses.CalmCompletes | cmd/vaps/startup_check.go:192-299 | every run without a failure can be continued without one until the function returns |
| StartupPool.ByHash | cmd/vaps/startup_check.go:94-97 | each hash maps to its last listing |
| StartupPool.ListPass | cmd/vaps/startup_check.go:99-125 | succeeds exactly when every payload is listed with its size and ETag, and leaves exactly those without an ETag, in order |
| StartupPool.MetaFrame | cmd/vaps/startup_check.go:220-227 | the pool writes only records it was given and adds none |
| StartupValidation.ValidationEstablishes | cmd/vaps/startup_check.go:64-157 | after a successful validation every record has its object's size and ETag, and the metadata is consistent with the objects if and only if the checksums are right that the listing pass does not look at |
| StartupValidation.SucceedsIff | cmd/vaps/startup_check.go:35-157 | the validation can succeed if and only if every payload agrees with its object in hash, checksum, size and ETag; with a listing, if and only if each payload's last listing has its size and, if it has one, its ETag, and each payload without an ETag agrees with its object |
| StartupValidation.PoolReturnsNilIff | cmd/vaps/startup_check.go:159-299 | the pool can return nil if and only if all its payloads agree with their objects |
| StartupValidation.WrongChecksumAccepted | cmd/vaps/startup_check.go:101-124 | a validation that succeeds and leaves a record whose checksum is not its object's |
| StartupValidation.RecordChecked | cmd/vaps/startup_check.go:79-157 | the record of each hash after the listing pass and the pool, which runs only when payloads without an ETag are left |
| ExistsFanout.LookupsAreBounded | internal/httpapi/handler.go:784-796 | at most 32 lookups run at once under every schedule |
| ExistsFanout.NeverDeadlocks | internal/httpapi/handler.go:786-811 | some step is possible until every goroutine is done |
| ExistsFanout.EveryScheduleEnds | internal/httpapi/handler.go:786-811 | no schedule is longer than four steps a hash and one |
| ExistsFanout.OutcomeStays | internal/httpapi/handler.go:783-808 | a recorded outcome is never overwritten |
| ExistsFanout.FirstError | internal/httpapi/handler.go:813-821 | an error exactly when there is one, and a cancellation only when all are |
| ExistsFanout.Collect | internal/httpapi/handler.go:813-828 | the error, or one entry a hash |
| ExistsFanout.UniqueHashes | internal/httpapi/handler.go:741-752 | exactly the hashes given, each once |
| ExistsFanout.SuccessIsExact | internal/httpapi/handler.go:754-829 | success happens exactly when no lookup failed and gives each hash its own lookup result |
| ExistsFanout.QuietRunsSucceed | internal/httpapi/handler.go:786-829 | when no lookup fails and no caller cancels, every hash is answered with its own lookup result and the call succeeds |
| ExistsFanout.RealErrorsAreReported | internal/httpapi/handler.go:813-824 | a failed lookup makes the whole an error, and if any lookup failed with an error other than a cancellation, the error returned is not a cancellation |
| MetadataIndex.ComparatorOrders | internal/metadata/store.go:240-273 | the comparator is a strict order, total on different hashes, and blind to what is not written |
| MetadataIndex.ScanIsUnique | internal/metadata/store.go:203-211 | the sorted match list does not depend on the map's iteration order |
| MetadataIndex.ScanOrder | internal/metadata/store.go:240-273 | in the scan of a query sizes ascend or descend as asked, or creation times do with missing ones last, and ties go by the hash in byte order in the same direction |
| MetadataIndex.ScanLists | internal/metadata/store.go:299-319 | the scan lists exactly the records whose hash contains the given part, that are cached if asked, whose size is within the bounds, and none when records without a backup are asked for |
| Base.LexLessIff | internal/metadata/store.go:268-271 | the byte order of strings: a proper prefix, or the smaller character at the first difference, comes first |
| MetadataIndex.PagesConcatenate | internal/metadata/store.go:213-221 | consecutive pages concatenate to the full list |
| MetadataIndex.PageAt | internal/metadata/store.go:213-221 | a page holds the items from the offset on, as many as a positive limit allows, all of them without one |
| MetadataIndex.MirrorTotals | internal/metadata/store.go:170-182 | an index that mirrors the database has its total size |
| MetadataIndex.Store.constructor | internal/metadata/store.go:112-130 | an opened store's index mirrors its database |
| MetadataIndex.Store.LoadDashboardIndex | internal/metadata/store.go:285-297 | the index becomes the database |
| MetadataIndex.Store.Reopen | internal/metadata/store.go:112-130 | reopening keeps the database and rebuilds the index from it |
| MetadataIndex.Store.PutPayload | internal/metadata/store.go:136-152 | run alone, the database record and the index entry change together or not at all, and the index keeps mirroring |
| MetadataIndex.PutThenGet | internal/metadata/store.go:136-168 | hash, ETag, checksum, size, status and times of a record read back as put, and the legacy checksum empty, also after a later put of it has failed and the store has been reopened; other records as before |
| IndexRaces.MirrorsIff | internal/metadata/store.go:136-152 | with the two steps of puts interleaved, once all have returned the index mirrors the database if and only if no put that reached the database last of its hash is overtaken on the way to the index by one that wrote something else |
| IndexRaces.SerialisedMirrors | internal/metadata/store.go:136-152 | it does when no two puts of one hash overlap, however puts of different hashes interleave |
| IndexRaces.OverlappingPutsDisagree | internal/metadata/store.go:136-152 | a run of two overlapping puts after which it does not |
| MetadataIndex.Store.GetStats | internal/metadata/store.go:170-182 | count, total size and cached count of a scan of the database |
| MetadataIndex.Store.QueryPayloads | internal/metadata/store.go:184-222 | the page and total of the sorted scan of the database, its items ordered by size or creation as asked, busy when another query runs; an out-of-range slice exactly when a page inside the result overflows an int64, which no caller's limit (at most 500) reaches with fewer than 2^63 - 500 records |
| MetadataIndex.Store.Matching | internal/metadata/store.go:203-210 | the matching records of the index, each once |
| MetadataIndex.Store.SortPayloads | internal/metadata/store.go:240-273 | the sorted list is the scan of the database |
| Ranges.ParsedRangeInBounds | internal/httpapi/range.go:17-61 | an accepted range satisfies 0 <= start <= end < size exactly when size > 0, and is empty exactly when size is 0 |
| Ranges.EmptyPayloadSuffixAccepted | internal/httpapi/range.go:30-39 | a suffix of an empty payload is accepted as (0, -1) |
| Ranges.PrintedRoundTrip | internal/httpapi/range.go:17-61 | a printed request is accepted if and only if its numbers fit an int64, it is well formed, and it selects something or is a suffix of an empty payload; it is answered with exactly the positions it selects |
| Ranges.SpacesIgnored | internal/httpapi/range.go:18-18 | white space around the header does not matter |
| Ranges.ListRefused | internal/httpapi/range.go:23-25 | a header that lists more than one range is refused as such, whatever the ranges |
| Ranges.LargeLastPositionRefused | internal/httpapi/range.go:50-53 | a legal range that ends at position 2^63 and selects bytes is refused as invalid |
| Ranges.PieceBody | internal/httpapi/range.go:69-75 | the body for bytes=a-b is the slice from a to b |
| Ranges.PartitionReassembles | internal/httpapi/payload_pull.go:111-127 | ranges that partition the payload reassemble it |

## Left out

- HTTP routing, headers, status codes, JSON, access logs, authentication, counters, dashboards: plumbing or user interface.
- The S3 client, bbolt, fsync and directory entries: stores and the file system are maps that change atomically per call.
- CRC32C, ETag, SHA and identifiers: arbitrary functions and fresh names.
- Timestamps of metadata records (CreatedAt, LastAccessedAt) in the durable protocol; they take part only in the query order.
- More than one server process, and writers to the bucket beside it: the shard locks do not cover them.
- A Put that fails but takes effect later, after other requests have moved on: its effect is at its own step or never.
- Handlers without an object store or without a metadata store: the server always configures both.
- Objects with neither a CRC nor a legacy digest: the object store writes one of them.
- DurableRuns.TierCoherence: states sizes only for hashes that are not legacy, because a push over a legacy object compares the CRC alone (see LegacySizes).
- DurableRuns.PushesAgree: the same restriction to hashes that are not legacy for sizes.
- PushRoutes.Handler.TusPatch: how the digest of a chunk is computed; whether the body can be read and matches is a parameter.
- PushRoutes.Handler.TusCreateFinal: the text of a reference (it is the upload id).
- PushRoutes.Handler.Push: other requests in between; the handlers run one at a time here, and the interleavings are those of Durable and SessionSteps.
- PushRoutes.UploadInChunks: copies that fail on the way; TusPatch states what they leave.
- BlobStore.Store.Publish: removing the staging file does not fail; Discard's removal does not either.
- BlobStore.Store.Exists: a directory at a payload's path.
- MetadataIndex.Store.QueryPayloads: the spelling of the sort parameters; they are two booleans here. int64 overflow is modelled for offset + limit only.
- LruCache.Cache.Add: aliasing of the caller's slice, since byte sequences are values; the copy is implied.
- StartupPool: the progress ticker and timeouts; a timed-out Head is a failed one. Writing an ETag at start-up is a step of the pool, not of the durable protocol.
- ExistsFanout: what one lookup does (existsWithMetadata) is part of Durable; here it answers with an item or an error.
- The configuration, credentials, scripts, log rotation, request log and pull statistics.
