# Verification of tdf-iroh-s3

A Dafny model of the hard parts of the tdf-iroh-s3 node, with proofs about every run or every input of them. `dafny
verify dfyconfig.toml` checks the whole project.

The node's protocols are state machines: a state, one total function `Apply` that takes one atomic step (a step that is
not enabled changes nothing), and `After`, the state after any list of steps. Any number of publishers, readers, pushes,
instances, uploads and checks interleave, any of them may stop between two steps, and any storage call may fail; a write
may also take effect and be reported as failed. Theorems are about every list of steps. Code that updates objects or
loops over buffers is modelled as classes and methods, each proved against a specification that does not mention its
body.

Library functions (hashing, outboards, ETags, parsing, CBOR and JSON conversion) are fields of a record, such as
`CatalogPublish.Oracle`, so the theorems hold for every choice of them that meets the stated `Ideal` condition: hashes
and ETags are injective on what they are computed from, an outboard's root is the hash of its bytes.

## Where things are

| file | models |
|---|---|
| `CatalogPublish.dfy`, `CatalogSafety.dfy`, `Preconditions.dfy` | publishing and resolving a catalog pointer: `put_catalog` steps 7 and 8, `get_pointer`, preconditions of RFC 9110 |
| `CatalogMetadata.dfy`, `Payloads.dfy` | policies, attribute extraction, the envelope check, the payload checks of a publish |
| `PublishGate.dfy`, `GateSafety.dfy`, `GateMemory.dfy` | publish sessions: opening, sealing, reading back, judging a push |
| `Moderation.dfy` | suspensions and blocks: store, audit trail, view |
| `Staging.dfy` | guards of pending pushes against the collector |
| `S3Serve.dfy`, `ServeSafety.dfy`, `RangeReader.dfy` | ingest order, serve checks, background outboards, the range reader |
| `Zip64.dfy` | the ZIP64 tail scan and the budget reader |
| `Claims.dfy`, `Decimal.dfy`, `Batching.dfy` | token claims, batched decisions |
| `Bao.dfy`, `Wrappers.dfy` | the abstract digest; options, results and bytes |

## Findings

Four properties one might expect do not hold of the code. Each has a lemma that shows it and one that says exactly when
it does hold.

- The moderation view can differ from the store: a record write that took effect and was reported as failed changes only
  the store (`Moderation.LostLiftLeavesViewBehind`). The view stays equal exactly when no operation loses a write in
  this way (`Moderation.InStepThroughout`), and a reload puts it right (`Moderation.Node.ReloadView`).
- A session need not come from a request that was answered: its record alone is enough (`GateSafety.SessionTravels`).
  It does come from one as long as no request was cut off, or is under way, between writing its record and opening its
  session (`GateSafety.SettledPushRestsOnAnOpenedSession`). For pushes let in by a read-back the condition is exact: no
  instance would admit a record left behind in this way (`GateSafety.ReadBackRestsOnAnOpenedSessionExactlyWhen`).
- `canonical_subject` strips one prefix, so a subject whose prefix is doubled is never accepted in `pdp` mode and is not
  stopped by a suspension of its own name alone; all other subjects are treated as meant
  (`GateSafety.PdpAndDoubledPrefix`, `GateSafety.SuspensionAndDoubledPrefix`).
- The `kid` of a `cnf` map that holds different kids under labels 2 and 3 depends on the order of its entries, and only
  then (`Claims.KidOrder`).

The source documents a fifth: a push tracked after the collector's second read and stored before it starts deleting is
deleted (`Staging.WindowLosesAPush`). That is the whole window (`Staging.TheWindowExactly`): data written once the run
deletes survives it (`Staging.LateWriteSurvives`).

## Model

| member | source | states |
|---|---|---|
| CatalogSafety.PointerOnlyAdvances | src/catalogs_v2_api.rs:411-499 | under every interleaving of publishers, with failures and crashes, a subject's stored pointer from one moment to any later one is the same or was replaced by an envelope pointer of greater seq |
| CatalogSafety.NoAba | src/tags_api.rs:401-426 | although an ETag depends on the stored bytes alone, a pointer stored at two moments was stored at every moment between |
| CatalogSafety.SwapGrows | src/catalogs_v2_api.rs:489-499 | a conditional write that goes through replaces exactly the pointer its publisher read, and keeps the store's invariant |
| CatalogSafety.EnvelopePointersResolve | src/catalogs_v2_api.rs:457-499 | in every reachable state an envelope pointer names a document stored with that hash and size, whose outboard has that root and whose index record exists |
| CatalogSafety.WinnerReplacedItsBase | src/catalogs_v2_api.rs:424-455 | an accepted publish with one `If-Match` tag replaced exactly the envelope pointer with that seq |
| CatalogSafety.AtMostOneWinner | src/catalogs_v2_api.rs:424-455 | of any number of publishes for a subject naming the same single `If-Match` tag at most one is ever accepted |
| CatalogSafety.StarReplacedNothingServed | src/catalogs_v2_api.rs:424-455 | an accepted publish with `*` anywhere in `If-None-Match` replaced no pointer, one from before envelopes, or one whose catalog was blocked when it was checked |
| CatalogSafety.CachedAttributesAgree | src/catalogs_v2_api.rs:558-579 | in every reachable state every node's attribute cache agrees with the stored index records, across evictions and other subjects' publishes of the same bytes, and a served attribute is the one the served document itself names |
| CatalogSafety.OneAttribute | src/catalogs_v2_api.rs:364-365 | the attribute of an envelope is the same whoever publishes it |
| CatalogSafety.ReadsNeverGoBack | src/catalogs_v2_api.rs:632-680 | a read that starts after another one was answered returns a seq at least as great |
| CatalogSafety.UncontendedPublish | src/catalogs_v2_api.rs:409-499 | a publish that runs alone is accepted exactly when its preconditions hold for what is served and its seq is greater than a stored envelope's, and then its bundle is the stored pointer; otherwise the pointer stays |
| CatalogSafety.StepKeeps | src/catalogs_v2_api.rs:409-499 | every step of any publisher, reader or node keeps the protocol's invariant, and only adds to the store or advances pointers |
| CatalogSafety.Reachable | src/catalogs_v2_api.rs:409-499 | the invariant holds after every run from a store with only pre-envelope pointers |
| CatalogPublish.AttributeCache.CatalogAttribute | src/catalogs_v2_api.rs:558-579 | a known attribute is answered without the store, a read one is remembered within the capacity, and a record that cannot be read or parsed is an error that changes nothing |
| CatalogSafety.ReaderUsesTheCache | src/catalogs_v2_api.rs:558-579 | the reader's two steps decide, and leave the node's cache, as the cache object does |
| CatalogSafety.AgreeingCacheAnswers | src/catalogs_v2_api.rs:558-579 | a cache that agrees with the store gives the answer the store would give |
| Preconditions.EtagInjective | src/catalogs_v2_api.rs:229-233 | different seqs have different entity tags |
| Preconditions.TagIsOneWord | src/catalogs_v2_api.rs:229-233 | a strong tag, a weak tag or `*` has no comma and nothing to trim, so it survives being split out of a list |
| Preconditions.LinesParsed | src/catalogs_v2_api.rs:235-248 | any number of lines of strong, weak and `*` tags, however padded, is parsed back to exactly those tags in order |
| Preconditions.PreconditionsMean | src/catalogs_v2_api.rs:256-274 | for any lines of both headers together: `If-Match` holds exactly when a pointer is served and its strong tag or `*` is listed, `If-None-Match` exactly when no served tag, strong or weak, nor `*` is |
| Preconditions.OpaqueLineFails | src/catalogs_v2_api.rs:235-248 | a header line that is not visible ASCII fails the request |
| Preconditions.OneTagMeansServed | src/catalogs_v2_api.rs:256-274 | when `If-Match` with one pointer tag, however padded, holds, that seq is what is served, whatever else is sent |
| Preconditions.StarMeansNoneServed | src/catalogs_v2_api.rs:256-274 | `If-None-Match` with `*`, alone or in a list, holds only when nothing is served |
| CatalogMetadata.ExtractAttributeFqns | src/catalog_metadata.rs:120-143 | the list is strictly sorted and its elements are exactly the policy's leaf names, for any nesting; None exactly when an element cannot be read |
| CatalogMetadata.CollectFqns | src/catalog_metadata.rs:145-181 | the recursion appends the leaf names of a condition tree in order, repeats included, and these are exactly the policy's leaf set |
| CatalogMetadata.OneSortedListing | src/catalog_metadata.rs:120-143 | a set of names has only one strictly sorted list, so equal leaf sets give equal lists |
| CatalogMetadata.EnvelopeNamesOneAttribute | src/catalog_metadata.rs:189-217 | whenever the envelope check accepts with an attribute, the policy names exactly that attribute and extraction on it returns exactly that one |
| CatalogMetadata.Sort | src/catalog_metadata.rs:120-143 | sorting keeps the elements and orders them |
| CatalogMetadata.SortPermutes | src/catalog_metadata.rs:120-143 | sorting loses and repeats nothing |
| CatalogMetadata.Dedup | src/catalog_metadata.rs:120-143 | removing neighbours' repeats from a sorted list leaves it strictly sorted with the same elements |
| Payloads.CheckPayloads | src/catalogs_api.rs:65-134 | the verdict, with the first failing hash or entry it names, is that of a plain scan asking for every entry in order in every phase; no phase looks a hash up twice, and nothing but the entries' hashes is looked up |
| Payloads.AcceptedMeansEveryEntryAgrees | src/catalogs_api.rs:65-134 | acceptance means, whatever the order, that each entry's payload is unblocked, ingested at its size, and has a readable manifest naming the attribute |
| Payloads.Hashes | src/catalogs_api.rs:136-145 | the hashes are distinct, exactly those of the entries, in order of first appearance |
| Payloads.LookUp | src/catalogs_api.rs:147-170 | either everything was found, or the error is the first refusal in order; lookups start in order, once each, and at most 16 run ahead |
| Payloads.RepeatsDoNotMatter | src/catalogs_api.rs:136-145 | leaving out repeats changes neither whether nor which refusal comes first |
| PublishGate.CanonicalSettles | src/moderation.rs:67-69 | stripping the prefix again changes nothing exactly when the prefix is not doubled |
| PublishGate.WhoDecides | src/moderation.rs:817-914 | `local` and `shadow` admit exactly the unsuspended, entitled persons, `pdp` exactly those with a valid chain that the decision service permits; a chain is kept exactly when it was permitted, and its person is then the token's subject |
| GateSafety.AcceptedPushRestsOnAGrant | src/moderation.rs:725-752 | on any number of instances, every accepted push comes from a connection whose endpoint had a session authorised earlier for that subject, live on this instance, with subject unsuspended and hash unblocked in its view; on a `pdp` instance the decision service permitted that session for a chain whose person is its subject |
| GateSafety.ReadBackIsBounded | src/moderation.rs:691-722 | a session read back ends less than a second after its record's `expiresAt`, and within the TTL |
| GateSafety.ReadBacksDoNotExtend | src/moderation.rs:691-722 | in every reachable state a session lasts its TTL from when a request opened it on that instance, or, on whichever instance, ends less than its TTL and one second after it was authorised, however often it is read back |
| GateSafety.LiveSessionRests | src/moderation.rs:761-785 | a live session that passes judgement rests on a grant with all that is claimed of it, opened by a request or read from a record while it was good |
| GateSafety.SessionTravels | src/moderation.rs:1089-1113 | a stored record alone lets another instance with the same key accept a push, though the request that wrote it was never answered |
| GateSafety.SettledPushRestsOnAnOpenedSession | src/moderation.rs:1089-1113 | in every run that left no record of an unfinished request behind, every accepted push rests on a session a request opened before it answered, with all that is claimed of it |
| GateSafety.ReadBackRestsOnAnOpenedSessionExactlyWhen | src/moderation.rs:691-722 | from any reachable state, while no further record is written, every push a read-back lets in rests on a session its request opened, exactly when no instance would admit a record left behind by an unfinished request |
| GateSafety.PdpAndDoubledPrefix | src/moderation.rs:761-785 | in `pdp` mode a permitted session is accepted exactly when its subject's prefix is not doubled |
| GateSafety.SuspensionAndDoubledPrefix | src/moderation.rs:725-752 | a session is stopped exactly when its subject's canonical form, taken once more, is suspended; so suspending a subject by its name stops it exactly when its prefix is not doubled or the shorter name is suspended too |
| GateSafety.StepKeeps | src/moderation.rs:598-752 | every step on any instance keeps the gate's invariant: sessions rest on grants, stored bodies that unseal were sealed by an instance |
| GateSafety.Reachable | src/moderation.rs:598-752 | the invariant holds after every run |
| GateMemory.Gate.OpenSessionWithChain | src/moderation.rs:603-623 | expired sessions go, the new one is held for its TTL under the canonical subject; with the instance's TTL it is the protocol's opening of a session |
| GateMemory.Gate.ConnectionOpened | src/moderation.rs:625-632 | the protocol's connect on its instance; a connection without an endpoint changes nothing |
| GateMemory.Gate.ConnectionClosed | src/moderation.rs:634-639 | the protocol's close on its instance |
| GateMemory.Gate.Missed | src/moderation.rs:678-689 | the endpoint counts as recently missed, at most the capacity is remembered, stale misses go first and then only the oldest |
| GateMemory.Oldest | src/moderation.rs:678-689 | the endpoint whose miss is no later than any other's |
| GateMemory.Gate.Arrive | src/moderation.rs:725-743 | a push is answered from memory exactly as the protocol answers an arrival, or left for the store |
| GateMemory.Gate.Conclude | src/moderation.rs:654-722 | with the store's answer, and whatever other tasks did meanwhile, the push is answered and the sessions change as the protocol concludes it; only a session not found is remembered as a miss |
| GateMemory.Gate.AuthorizePush | src/moderation.rs:725-752 | an uninterrupted push: answered from memory, refused unasked when there is no store, the endpoint just missed or lookups are busy, and otherwise concluded with the store's answer at the later time |
| GateMemory.StepsAreTheGates | src/moderation.rs:603-639 | the protocol's steps change their own instance as the gate's methods change the gate, and no other |
| GateMemory.PushIsTheGates | src/moderation.rs:725-752 | the protocol answers a push, and leaves its instance, as the gate does |
| Moderation.InStepThroughout | src/moderation.rs:369-453 | over any run from a view in step, the view equals the unlifted records after every operation exactly when no operation loses a write whose effect it does not already show |
| Moderation.StaysInStep | src/moderation.rs:1200-1261 | the same for one operation, both directions |
| Moderation.LostLiftLeavesViewBehind | src/moderation.rs:1232-1261 | a lift applied and reported as failed leaves the subject suspended in the view and not in the store |
| Moderation.WrongOnlyWhereUnacknowledged | src/moderation.rs:1200-1261 | over any run the view is right about every key whose last applied write was acknowledged or followed by a reload |
| Moderation.AlwaysOnRecord | src/moderation.rs:1171-1187 | over any run with distinct audit times, lost acknowledgements included, every current record is in an audit event with the same content, and no audit event ever changes |
| Moderation.WrittenAfterAudit | src/moderation.rs:1225-1227 | a record that enters the store was put in the audit trail first |
| Moderation.Node.Change | src/moderation.rs:1225-1227 | audit, then record, then view, each only when the one before was acknowledged |
| Moderation.Node.ImposeOn | src/moderation.rs:1200-1230 | imposing is the specified operation; when it succeeds view and store both show the record |
| Moderation.Node.LiftFrom | src/moderation.rs:1232-1261 | lifting is the specified operation, of what the view shows; when it succeeds neither view nor store shows one |
| Moderation.Node.Active | src/moderation.rs:415-447 | the records collected from a listing in any order are exactly the unlifted readable ones of that kind |
| Moderation.Node.ReloadView | src/moderation.rs:413-453 | a reload whose three listings succeed puts any view in step with the store, a failed one changes nothing |
| Moderation.Store.PutAudit | src/moderation.rs:1171-1187 | an event is written under its own time unless refused |
| Moderation.Store.PutRecord | src/moderation.rs:1155-1169 | a record replaces the one under its key unless refused |
| Staging.PendingIsLiveGuards | src/staging.rs:115-121 | in every reachable state a hash is pending exactly while a guard of it lives, with a count equal to its live guards |
| Staging.HeldPushIsNeverDeleted | src/staging.rs:131-156 | a run deletes no hash it saw pending at either read, none with a live guard made before its second read, and none written since it started deleting |
| Staging.EndedRunLeftNothing | src/staging.rs:131-156 | when a run ends, every hash it listed and saw pending at neither read is gone, unless written again since it began deleting |
| Staging.SkippedOnlyWhenNothingIsDeletable | src/staging.rs:131-156 | a run over a successful listing is skipped exactly when every listed hash was pending at one of the reads |
| Staging.WindowLosesAPush | src/staging.rs:15-17 | a push tracked after the second read and stored before deleting starts is deleted though its guard is held |
| Staging.TheWindowExactly | src/staging.rs:15-17 | through any interleaving after a run starts deleting, its next deletion can take a hash exactly when all its data was stored before deleting started, it was pending at neither read, and it was neither written nor deleted since |
| Staging.LateWriteSurvives | src/node.rs:293-301 | a push whose data is written while a run deletes survives the whole run, however it interleaves |
| Staging.PendingPushes.Track | src/staging.rs:115-121 | one more live guard, and the hash is pending |
| Staging.PendingPushes.Drop | src/staging.rs:165-175 | one guard fewer, and the hash stays pending exactly while another guard of it lives |
| Staging.Reachable | src/staging.rs:115-156 | counts and the run's bookkeeping are right after every interleaving of pushes and runs |
| ServeSafety.BucketStaysSound | src/ingest.rs:156-195 | from a bucket where every blob matches its hash and has its outboard, every interleaving of ingests, catalog publishes, retries, failed and lost calls and crashes keeps it so, whatever happens to documents |
| ServeSafety.FoundBlobIsServed | src/s3_serve.rs:147-198 | so a check whose blob lookup succeeded serves it at its size when the store answers, and no computation is ever started for a blob |
| ServeSafety.ServedBlobsStand | src/s3_serve.rs:147-198 | every blob a check serves or the node remembers as servable is in the bucket at that size with its outboard, and its bytes have that hash |
| ServeSafety.AtMostTwoComputations | src/s3_serve.rs:240-300 | in every run at most two outboard computations go on, at most one per hash, and the backfilling set is exactly their hashes |
| ServeSafety.WrittenOutboardsHaveTheirRoot | src/s3_serve.rs:304-323 | whatever the bucket held, an outboard the node writes has its key's hash as root |
| ServeSafety.CorruptIsGone | src/s3_serve.rs:147-198 | every check that starts after a hash was marked corrupt is refused as gone until the set is cleared at capacity or the node restarts |
| ServeSafety.ServerReachable | src/s3_serve.rs:240-300 | permits, running computations and outboards about to be stored are consistent after every run |
| ServeSafety.UploadKeeps | src/ingest.rs:156-195 | one storage call of an upload, done, refused or lost, keeps the bucket sound |
| RangeReader.Reader.ReadAt | src/s3_serve.rs:388-407 | a successful read is exactly the slice of the object cut at the size; every GET is accounted for by the first read, a jump or a failure; with a store that delivers, it succeeds |
| RangeReader.Reader.OpenAt | src/s3_serve.rs:358-385 | the stream stands at the offset, reusing the open GET exactly when it is at most the skip limit behind |
| RangeReader.Reader.Answered | src/s3_serve.rs:388-407 | a read outside the object costs nothing, a failed one leaves no stream open |
| RangeReader.Reader.Fetch | src/s3_serve.rs:394-401 | the bytes read are the object's at that offset and the position moves past them |
| RangeReader.Reader.constructor | src/s3_serve.rs:349-356 | a reader starts with no GET and nothing spent |
| RangeReader.ReadExact | src/s3_serve.rs:414-430 | short reads fill the buffer with exactly the next bytes, or the body ended or failed |
| RangeReader.GetsBounded | src/s3_serve.rs:358-407 | over any sequence of reads the GETs opened are at most one plus the jumps back, the jumps over the limit and the failed reads; reading straight through takes one at most |
| Zip64.CheckEntryCounts | src/validation/structure.rs:142-212 | accepts exactly when at most four end records in the window defer to ZIP64 and every ZIP64 record in each locator's region lists at most 65,535 members; refusals name a real cause; bytes read are bounded by a constant |
| Zip64.ScanTail | src/validation/structure.rs:153-207 | the same for a tail already read, with the bytes read bounded per candidate |
| Zip64.CheckCandidate | src/validation/structure.rs:169-206 | one deferring end record: accepted exactly when every record its locator leads to is modest |
| Zip64.CheckRegion | src/validation/structure.rs:188-206 | the region behind a locator: accepted when no record in it lists too many members |
| Zip64.ScanRegion | src/validation/structure.rs:194-206 | finds the first record in a region with too many members, or there is none |
| Zip64.RegionIsSearched | src/validation/structure.rs:188-192 | the region read is the one the opener searches; saturating arithmetic never shortens it |
| Zip64.DefersInTail | src/validation/structure.rs:154-162 | an end record found in the tail is the one at that offset of the archive |
| Zip64.Archive.ReadAt | src/validation/structure.rs:214-224 | the bytes at an offset, fewer where the file ends, and no more than asked for |
| Zip64.BudgetReader.Read | src/validation/structure.rs:242-257 | reads under a budget never exceed it together, and only a non-empty read of a spent budget is refused |
| Claims.ParseClaims | src/auth.rs:453-577 | one pass accepts exactly the maps that are acceptable whatever their order, returns what the map says, and refuses with an error that is true of it |
| Claims.OrderDoesNotMatter | src/auth.rs:453-577 | any permutation of a map is accepted alike and with the same claims, and an accepted map has as many keys as entries |
| Claims.KeyIdInjective | src/auth.rs:478-485 | the text form of keys used to find duplicates is injective across integers and text |
| Decimal.DisplayInjective | src/auth.rs:478-485 | integers with the same decimal text are equal |
| Claims.ParseAudience | src/auth.rs:491-506 | an audience list is taken exactly when it is not empty and all its members are non-empty text |
| Claims.TakeLabel | src/auth.rs:487-517 | an integer label sets what the map says under it and nothing else, and is refused exactly when it must be |
| Claims.NameIsTaken | src/auth.rs:518-544 | a text key sets what the map says under it and nothing else, and is refused exactly when it must be |
| Claims.TakeEntry | src/auth.rs:486-547 | one entry, under either kind of key |
| Claims.ParseCnfKid | src/auth.rs:612-640 | the last kid under its labels, else that of the COSE key, refused exactly when an integer key repeats |
| Claims.KidOrder | src/auth.rs:612-640 | the kid is the same for every order of the entries exactly when the map does not hold two different kids |
| Batching.Decide | src/authz.rs:543-561 | the merged map is the pairing of all resources with all batches' answers, nothing when any batch fails or no endpoint is found, and an empty list needs no service |
| Batching.MapEvaluations | src/authz.rs:749-769 | answers are paired by position, and any other count fails |
| Batching.BatchingDoesNotShow | src/authz.rs:543-561 | with a service that answers item by item, deciding in batches of at most 500 gives the same map as one request for the whole list, and covers exactly its ids |
| Batching.OneBadBatchFailsAll | src/authz.rs:543-561 | the whole call fails exactly when some batch is unanswered or answered with a wrong count; no batch is empty or over 500 |
| Batching.PairedCovers | src/authz.rs:749-769 | exactly the requested ids are decided |
| Batching.LastWins | src/authz.rs:749-769 | a repeated id is decided as its last entry |
| Batching.PairedConcat | src/authz.rs:543-561 | merging two stretches, the second overriding, is deciding them together |

## Left out

- Signatures, COSE, WebAuthn, BLAKE3, base64 and BAO trees: library cryptography and encoding, kept as functions with the stated ideal properties.
- S3, HTTP, TLS, SSM and routing: I/O plumbing; only what a storage call returns and changes is modelled.
- JSON and CBOR bytes: values are parsed values, and unreadable bodies are one case.
- Checks 1 to 6 of a publish other than the envelope and the payloads: a publisher enters the protocol with an admissible request, one whose bundle verified and whose document is an envelope naming the pointer's hash and size.
- Real time: clocks are one shared reading per step, so skew between instances and timeouts are not modelled.
- Session lookups in flight: the cap on concurrent lookups is the flag `busy`, and the recent-miss map is in `GateMemory` only, since it never lets a push in.
- Empty elements of a tag list, as in two commas in a row: they match nothing.
- GateSafety.AcceptedPushRestsOnAGrant: says that the session was authorised, not that its request was answered, because a record that was written is used even when the request is cut off after it; `GateSafety.SettledPushRestsOnAnOpenedSession` gives the rest.
- GateMemory.Gate.AuthorizePush: has no other task run between its two halves; `Arrive` and `Conclude` are stated for any state they find.
- Moderation.AlwaysOnRecord: assumes that the clock gives two events of one key different nanoseconds; an event written under a used time would replace the older one.
- Moderation request checks (operator tokens, reason, report id, identifier forms): single-branch refusals before anything is written. A reload that overlaps another handler is not modelled.
- Moderation.Node: one map from kind and id, where the source keeps one map per kind.
- Staging: `collector_stopped`, the record of the last run, and attaching the store.
- ServeSafety: the server is a state machine over values, because its checks and computations run concurrently; that each collection is behind its own lock is not modelled.
- BlobsHandler::serve, the transfer-wait and polling loops of `src/node.rs`, and ingest validation of a push's content: they sequence modelled operations and add no shared state.
- `cbor_to_json`, `sanitize_patreon`, request building and endpoint discovery: field-by-field copying.
- `payload_member`, `check_payload` and opening the ZIP archive: the zip crate.
- Configuration, operator allowlists, listing endpoints, the CLI, packer scripts and logging.
