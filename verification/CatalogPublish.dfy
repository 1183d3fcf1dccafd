/** Catalog v2: publishing a creator's pointer (`PUT /v2/catalogs/{sub}`, steps 4, 7 and 8) and resolving it
    (`GET`), by any number of publishers and readers on any number of nodes over one shared store.

    Every storage call is one step. Steps of different requests interleave freely; a call may fail, a write may
    take effect and still be reported as failed, and a request may stop for good between any two steps (`Stop`,
    which also stands for a crash). A step that its request is not ready for changes nothing, so a run is any
    sequence of steps. */
module CatalogPublish {
  import opened Wrappers
  import opened Preconditions
  import opened Bao
  import M = CatalogMetadata

  /** The parts of a signed pointer the node reads back (`stored_seq`). */
  datatype Pointer = Pointer(seqNo: nat, catalogHash: string, catalogSize: nat)

  /** What libraries and the store compute: hashes and hash trees, the store's ETag of an object's bytes, the bundle
      parser and the manifest reader. */
  datatype Oracle = Oracle(
    digest: Digest,
    etag: Bytes -> string,
    parse: Bytes -> Option<Pointer>,
    manifest: Bytes -> Option<M.ManifestPolicy>)

  /** Hashes and ETags identify bytes. The ETag is a function of the stored bytes alone: storing the same bytes
      again brings the same ETag back. */
  ghost predicate IdealOracle(o: Oracle) {
    && Bao.Ideal(o.digest)
    && (forall a, b :: o.etag(a) == o.etag(b) ==> a == b)
  }

  datatype StoredDocument = StoredDocument(body: Bytes, owner: string)

  datatype IndexRecord = IndexRecord(owner: string, attribute: string, entries: M.Json)

  /** A publish whose token, bundle and payload checks passed. `body` is the serialized bundle. */
  datatype Request = Request(sub: string, headers: Headers, document: Bytes, body: Bytes, entries: M.Json)

  /** What step 7 saw: the stored pointer, whether its catalog has an index record, whether it is blocked. */
  datatype Base = Base(stored: Option<Bytes>, live: bool, blocked: bool)

  datatype Outcome =
    | Accepted(base: Base, replaced: Option<Bytes>)
    | PreconditionFailed
    | SeqConflict
    | LostRace
    | StorageFailed

  datatype Phase =
    | Arrived
    | HasPointer(stored: Option<Bytes>)
    | Checked(base: Base)
    | WroteDocument(base: Base)
    | WroteOutboard(base: Base)
    | WroteIndex(base: Base)
    | Ended(outcome: Outcome)

  datatype Publisher = Publisher(request: Request, phase: Phase)

  datatype Reply = Served(body: Bytes, seqNo: nat, attribute: string) | NotFound | Failed

  datatype ReaderPhase =
    | Asked
    | Resolved(body: Bytes)
    | Fetched(body: Bytes, attribute: string)
    | Decided(body: Bytes, attribute: string)
    | Replied(reply: Reply)

  datatype Reader = Reader(sub: string, node: nat, phase: ReaderPhase)

  /** The shared store: `catalog-documents/`, `catalog-outboards/`, `catalog-indexes/`, `catalog-pointers/`. */
  datatype Store = Store(
    documents: map<string, StoredDocument>,
    outboards: map<string, Outboard>,
    indexes: map<string, IndexRecord>,
    pointers: map<string, Bytes>)

  datatype State = State(
    store: Store,
    publishers: map<nat, Publisher>,
    readers: map<nat, Reader>,
    caches: map<nat, map<string, string>>)

  const ATTRIBUTE_CACHE_CAPACITY := 100_000

  // ---- Requests -------------------------------------------------------------------------------

  function PointerOf(o: Oracle, body: Bytes): Pointer {
    var parsed := o.parse(body);
    if parsed.Some? then parsed.value else Pointer(0, "", 0)
  }

  function Find<K, V>(m: map<K, V>, key: K): Option<V> {
    if key in m then Some(m[key]) else None
  }

  /** `envelope_attribute`: the one attribute of a document that is an envelope of `sub`'s catalog. */
  function EnvelopeAttribute(o: Oracle, document: Bytes, sub: string): Option<string> {
    var manifest := o.manifest(document);
    if manifest.None? then None
    else
      var checked := M.CheckEnvelope(manifest.value, sub);
      if checked.Ok? then Some(checked.value) else None
  }

  /** Step 4: the request points at exactly this document, an envelope of `sub`'s catalog. */
  predicate Admissible(o: Oracle, r: Request) {
    && o.parse(r.body).Some?
    && o.digest.hash(r.document) == PointerOf(o, r.body).catalogHash
    && |r.document| == PointerOf(o, r.body).catalogSize
    && EnvelopeAttribute(o, r.document, r.sub).Some?
  }

  function CurrentSeq(o: Oracle, base: Base): Option<nat> {
    if base.stored.Some? && base.live then Some(PointerOf(o, base.stored.value).seqNo) else None
  }

  /** What `GET` would answer with: blocked reads as none. */
  function ServedSeq(o: Oracle, base: Base): Option<nat> {
    if base.blocked then None else CurrentSeq(o, base)
  }

  // ---- Steps ----------------------------------------------------------------------------------

  /** How a conditional pointer write is answered when its condition holds: written and acknowledged; written
      but reported as an error, or as a conflict (an SDK retry that meets its own write); refused because another
      conditional write is in progress. */
  datatype Fate = Acknowledged | WrittenThenError | WrittenThenConflict | Busy

  datatype Step =
    | Admit(p: nat, request: Request)
    | ReadPointer(p: nat)
    | ReadIndex(p: nat, blocked: bool)
    | Write(p: nat, lost: bool)
    | Swap(p: nat, fate: Fate)
    | Stop(p: nat)
    | Ask(r: nat, sub: string, node: nat)
    | Resolve(r: nat, blocked: bool)
    | FetchAttribute(r: nat)
    | Remember(r: nat)
    | Permit(r: nat)
    | StopReader(r: nat)
    | Restart(node: nat)

  function SetPhase(s: State, p: nat, phase: Phase): State
    requires p in s.publishers
  {
    s.(publishers := s.publishers[p := s.publishers[p].(phase := phase)])
  }

  function SetReader(s: State, r: nat, phase: ReaderPhase): State
    requires r in s.readers
  {
    s.(readers := s.readers[r := s.readers[r].(phase := phase)])
  }

  function DoReadPointer(o: Oracle, s: State, p: nat): State
    requires p in s.publishers
  {
    if !s.publishers[p].phase.Arrived? then s
    else
      var stored := Find(s.store.pointers, s.publishers[p].request.sub);
      if stored.Some? && o.parse(stored.value).None? then SetPhase(s, p, Ended(StorageFailed))
      else SetPhase(s, p, HasPointer(stored))
  }

  function DoReadIndex(o: Oracle, s: State, p: nat, blocked: bool): State
    requires p in s.publishers
  {
    var pub := s.publishers[p];
    if !pub.phase.HasPointer? then s
    else
      var stored := pub.phase.stored;
      var base := Base(stored, stored.Some? && PointerOf(o, stored.value).catalogHash in s.store.indexes, blocked);
      var current := CurrentSeq(o, base);
      if !PreconditionsHold(pub.request.headers, ServedTag(ServedSeq(o, base))) then
        SetPhase(s, p, Ended(PreconditionFailed))
      else if current.Some? && PointerOf(o, pub.request.body).seqNo <= current.value then
        SetPhase(s, p, Ended(SeqConflict))
      else SetPhase(s, p, Checked(base))
  }

  /** The document, then its outboard, then its index record. */
  function DoWrite(o: Oracle, s: State, p: nat, lost: bool): State
    requires p in s.publishers
  {
    var r, phase := s.publishers[p].request, s.publishers[p].phase;
    var hash := o.digest.hash(r.document);
    var outboard := ComputeOutboard(o.digest, r.document, hash);
    var attribute := EnvelopeAttribute(o, r.document, r.sub);
    if phase.Checked? && outboard.None? then SetPhase(s, p, Ended(StorageFailed))
    else if outboard.None? || attribute.None? then s
    else if phase.Checked? then
      SetPhase(s.(store := s.store.(documents := s.store.documents[hash := StoredDocument(r.document, r.sub)])), p,
               if lost then Ended(StorageFailed) else WroteDocument(phase.base))
    else if phase.WroteDocument? then
      SetPhase(s.(store := s.store.(outboards := s.store.outboards[hash := outboard.value])), p,
               if lost then Ended(StorageFailed) else WroteOutboard(phase.base))
    else if phase.WroteOutboard? then
      SetPhase(s.(store := s.store.(indexes := s.store.indexes[hash := IndexRecord(r.sub, attribute.value, r.entries)])), p,
               if lost then Ended(StorageFailed) else WroteIndex(phase.base))
    else s
  }

  /** Whether the stored object's ETag is still `expected`'s (`None`: nothing is stored). */
  predicate Unmoved(o: Oracle, stored: Option<Bytes>, expected: Option<Bytes>) {
    match (stored, expected)
    case (None, None) => true
    case (Some(a), Some(b)) => o.etag(a) == o.etag(b)
    case _ => false
  }

  function DoSwap(o: Oracle, s: State, p: nat, fate: Fate): State
    requires p in s.publishers
  {
    var r, phase := s.publishers[p].request, s.publishers[p].phase;
    if !phase.WroteIndex? then s
    else
      var stored := Find(s.store.pointers, r.sub);
      if !Unmoved(o, stored, phase.base.stored) || fate.Busy? then SetPhase(s, p, Ended(LostRace))
      else
        var written := s.(store := s.store.(pointers := s.store.pointers[r.sub := r.body]));
        match fate
        case WrittenThenError => SetPhase(written, p, Ended(StorageFailed))
        case WrittenThenConflict => SetPhase(written, p, Ended(LostRace))
        case _ => SetPhase(written, p, Ended(Accepted(phase.base, stored)))
  }

  function DoResolve(o: Oracle, s: State, r: nat, blocked: bool): State
    requires r in s.readers
  {
    if !s.readers[r].phase.Asked? then s
    else
      var stored := Find(s.store.pointers, s.readers[r].sub);
      if stored.None? then SetReader(s, r, Replied(NotFound))
      else if o.parse(stored.value).None? then SetReader(s, r, Replied(Failed))
      else if blocked then SetReader(s, r, Replied(NotFound))
      else SetReader(s, r, Resolved(stored.value))
  }

  /** What reading an index record gives. */
  datatype IndexRead = Found(attribute: string) | Absent | Unparsable | Unreachable

  /** The attribute a cache and the index record give together; an error when the record is needed and cannot be had. */
  function KnownOrRead(known: map<string, string>, hash: string, read: IndexRead): Result<Option<string>, string> {
    if hash in known then Ok(Some(known[hash]))
    else
      match read
      case Found(attribute) => Ok(Some(attribute))
      case Absent => Ok(None)
      case Unparsable => Err("Catalog index parse")
      case Unreachable => Err("Catalog index read")
  }

  /** The cache afterwards: one more attribute when one was read. */
  function Remembering(known: map<string, string>, hash: string, read: IndexRead): map<string, string> {
    if hash !in known && read.Found? then Cached(known, hash, read.attribute) else known
  }

  /** `catalog_attribute` as one node runs it and updates its cache. */
  class AttributeCache {
    var known: map<string, string>

    ghost predicate Valid()
      reads this
    {
      |known| <= ATTRIBUTE_CACHE_CAPACITY
    }

    constructor ()
      ensures Valid() && known == map[]
    {
      known := map[];
    }

    method CatalogAttribute(hash: string, read: IndexRead) returns (r: Result<Option<string>, string>)
      requires Valid()
      modifies this
      ensures Valid() && known == Remembering(old(known), hash, read)
      ensures r == KnownOrRead(old(known), hash, read)
    {
      if hash in known { return Ok(Some(known[hash])); }
      match read {
        case Absent => return Ok(None);
        case Unparsable => return Err("Catalog index parse");
        case Unreachable => return Err("Catalog index read");
        case Found(attribute) =>
          if |known| >= ATTRIBUTE_CACHE_CAPACITY { known := map[]; }
          assert |known[hash := attribute]| == |known| + 1 by {
            assert known[hash := attribute].Keys == known.Keys + {hash};
          }
          known := known[hash := attribute];
          return Ok(Some(attribute));
      }
    }
  }

  /** The first half of `catalog_attribute`: the node's cache, else the index record. */
  function DoFetchAttribute(o: Oracle, s: State, r: nat): State
    requires r in s.readers
  {
    var reader := s.readers[r];
    if !reader.phase.Resolved? then s
    else
      var body := reader.phase.body;
      var hash := PointerOf(o, body).catalogHash;
      if reader.node in s.caches && hash in s.caches[reader.node] then
        SetReader(s, r, Decided(body, s.caches[reader.node][hash]))
      else if hash in s.store.indexes then SetReader(s, r, Fetched(body, s.store.indexes[hash].attribute))
      else SetReader(s, r, Replied(NotFound))
  }

  /** The cache with one more attribute; at capacity it is cleared first. */
  function Cached(known: map<string, string>, hash: string, attribute: string): map<string, string> {
    (if |known| >= ATTRIBUTE_CACHE_CAPACITY then map[] else known)[hash := attribute]
  }

  /** The second half: the attribute read from the store enters the cache. */
  function DoRemember(o: Oracle, s: State, r: nat): State
    requires r in s.readers
  {
    var reader := s.readers[r];
    if !reader.phase.Fetched? then s
    else
      var known := if reader.node in s.caches then s.caches[reader.node] else map[];
      var hash := PointerOf(o, reader.phase.body).catalogHash;
      SetReader(s.(caches := s.caches[reader.node := Cached(known, hash, reader.phase.attribute)]), r,
                Decided(reader.phase.body, reader.phase.attribute))
  }

  /** The reader is permitted and gets the stored bundle with its entity tag. */
  function DoPermit(o: Oracle, s: State, r: nat): State
    requires r in s.readers
  {
    var phase := s.readers[r].phase;
    if !phase.Decided? then s
    else SetReader(s, r, Replied(Served(phase.body, PointerOf(o, phase.body).seqNo, phase.attribute)))
  }

  function Apply(o: Oracle, s: State, step: Step): State {
    match step
    case Admit(p, request) =>
      if p in s.publishers || !Admissible(o, request) then s
      else s.(publishers := s.publishers[p := Publisher(request, Arrived)])
    case ReadPointer(p) => if p in s.publishers then DoReadPointer(o, s, p) else s
    case ReadIndex(p, blocked) => if p in s.publishers then DoReadIndex(o, s, p, blocked) else s
    case Write(p, lost) => if p in s.publishers then DoWrite(o, s, p, lost) else s
    case Swap(p, fate) => if p in s.publishers then DoSwap(o, s, p, fate) else s
    case Stop(p) =>
      if p in s.publishers && !s.publishers[p].phase.Ended? then SetPhase(s, p, Ended(StorageFailed)) else s
    case Ask(r, sub, node) =>
      if r in s.readers then s else s.(readers := s.readers[r := Reader(sub, node, Asked)])
    case Resolve(r, blocked) => if r in s.readers then DoResolve(o, s, r, blocked) else s
    case FetchAttribute(r) => if r in s.readers then DoFetchAttribute(o, s, r) else s
    case Remember(r) => if r in s.readers then DoRemember(o, s, r) else s
    case Permit(r) => if r in s.readers then DoPermit(o, s, r) else s
    case StopReader(r) =>
      if r in s.readers && !s.readers[r].phase.Replied? then SetReader(s, r, Replied(Failed)) else s
    case Restart(node) => s.(caches := s.caches[node := map[]])
  }

  /** The state after a run. */
  function After(o: Oracle, s0: State, steps: seq<Step>): State {
    if steps == [] then s0 else Apply(o, After(o, s0, steps[..|steps| - 1]), steps[|steps| - 1])
  }

  /** A catalog hash no envelope has: the documents stored before envelopes. */
  ghost predicate Legacy(o: Oracle, hash: string) {
    forall d, sub :: o.digest.hash(d) == hash ==> EnvelopeAttribute(o, d, sub).None?
  }

  /** Before the first envelope: no index record, and whatever pointers, documents and outboards earlier versions
      left. */
  ghost predicate Init(o: Oracle, s: State) {
    && s.store.indexes == map[] && s.publishers == map[] && s.readers == map[] && s.caches == map[]
    && forall sub :: sub in s.store.pointers && o.parse(s.store.pointers[sub]).Some? ==>
         Legacy(o, PointerOf(o, s.store.pointers[sub]).catalogHash)
  }
}
