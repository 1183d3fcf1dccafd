/** What every run of catalog publishing and resolving keeps. */
module CatalogSafety {
  import opened Wrappers
  import opened Preconditions
  import opened CatalogPublish
  import opened Bao

  /** A pointer at an envelope (not at a document from before envelopes). */
  ghost predicate Envelope(o: Oracle, body: Bytes) {
    o.parse(body).Some? && !Legacy(o, PointerOf(o, body).catalogHash)
  }

  /** `b` is an envelope pointer, newer than `a`: nothing, a pointer from before envelopes, or a smaller seq. */
  ghost predicate Older(o: Oracle, a: Option<Bytes>, b: Option<Bytes>) {
    && b.Some? && Envelope(o, b.value)
    && (a.Some? && Envelope(o, a.value) ==> PointerOf(o, a.value).seqNo < PointerOf(o, b.value).seqNo)
  }

  // ---- The invariant --------------------------------------------------------------------------

  /** An index record's document and outboard are stored under its hash, and its attribute is the document's. */
  ghost predicate IndexBacked(o: Oracle, c: Store, hash: string)
    requires hash in c.indexes
  {
    && hash in c.documents && o.digest.hash(c.documents[hash].body) == hash
    && hash in c.outboards && c.outboards[hash] == o.digest.outboard(c.documents[hash].body)
    && EnvelopeAttribute(o, c.documents[hash].body, c.indexes[hash].owner) == Some(c.indexes[hash].attribute)
  }

  ghost predicate IndexesBacked(o: Oracle, c: Store) {
    forall hash :: hash in c.indexes ==> IndexBacked(o, c, hash)
  }

  /** A stored pointer: of a catalog with an index record and the stated size, or from before envelopes. */
  ghost predicate Known(o: Oracle, c: Store, body: Bytes) {
    var pointer := PointerOf(o, body);
    || Legacy(o, pointer.catalogHash)
    || (&& pointer.catalogHash in c.indexes && pointer.catalogHash in c.documents
        && |c.documents[pointer.catalogHash].body| == pointer.catalogSize)
  }

  ghost predicate StoreInv(o: Oracle, c: Store) {
    && IndexesBacked(o, c)
    && forall sub :: sub in c.pointers && o.parse(c.pointers[sub]).Some? ==> Known(o, c, c.pointers[sub])
  }

  /** What a publisher learned in step 7 still describes the pointer it read. */
  ghost predicate BaseOk(o: Oracle, c: Store, r: Request, base: Base) {
    && (base.stored.Some? ==>
          && o.parse(base.stored.value).Some? && Known(o, c, base.stored.value)
          && (base.live <==> Envelope(o, base.stored.value)))
    && PreconditionsHold(r.headers, ServedTag(ServedSeq(o, base)))
    && Older(o, base.stored, Some(r.body))
  }

  ghost predicate HasDocument(c: Store, o: Oracle, d: Bytes) {
    o.digest.hash(d) in c.documents && c.documents[o.digest.hash(d)].body == d
  }

  ghost predicate HasOutboard(c: Store, o: Oracle, d: Bytes) {
    o.digest.hash(d) in c.outboards && c.outboards[o.digest.hash(d)] == o.digest.outboard(d)
  }

  ghost predicate PhaseOk(o: Oracle, c: Store, r: Request, phase: Phase) {
    match phase
    case Arrived => true
    case HasPointer(stored) => stored.Some? ==> o.parse(stored.value).Some? && Known(o, c, stored.value)
    case Checked(base) => BaseOk(o, c, r, base)
    case WroteDocument(base) => BaseOk(o, c, r, base) && HasDocument(c, o, r.document)
    case WroteOutboard(base) =>
      BaseOk(o, c, r, base) && HasDocument(c, o, r.document) && HasOutboard(c, o, r.document)
    case WroteIndex(base) => BaseOk(o, c, r, base) && o.digest.hash(r.document) in c.indexes
    case Ended(Accepted(base, replaced)) =>
      BaseOk(o, c, r, base) && replaced == base.stored && Older(o, replaced, Find(c.pointers, r.sub))
    case Ended(_) => true
  }

  ghost predicate PublisherOk(o: Oracle, c: Store, pub: Publisher) {
    Admissible(o, pub.request) && PhaseOk(o, c, pub.request, pub.phase)
  }

  ghost predicate PublisherInv(o: Oracle, c: Store, publishers: map<nat, Publisher>) {
    forall p :: p in publishers ==> PublisherOk(o, c, publishers[p])
  }

  ghost predicate Won(publishers: map<nat, Publisher>, p: nat) {
    p in publishers && publishers[p].phase.Ended? && publishers[p].phase.outcome.Accepted?
  }

  /** Of two accepted publishes for a subject, one replaced an older pointer than the other. */
  ghost predicate DistinctBases(o: Oracle, publishers: map<nat, Publisher>) {
    forall p, q :: Won(publishers, p) && Won(publishers, q) && p != q ==>
      publishers[p].request.sub == publishers[q].request.sub ==>
        var a, b := publishers[p].phase.outcome.replaced, publishers[q].phase.outcome.replaced;
        Older(o, a, b) || Older(o, b, a)
  }

  ghost predicate CacheInv(c: Store, caches: map<nat, map<string, string>>) {
    forall node, hash :: node in caches && hash in caches[node] ==>
      hash in c.indexes && c.indexes[hash].attribute == caches[node][hash]
  }

  /** `body` was the stored pointer once: the stored one is it, or newer. */
  ghost predicate Seen(o: Oracle, c: Store, sub: string, body: Bytes) {
    && o.parse(body).Some? && Known(o, c, body)
    && (Find(c.pointers, sub) == Some(body) || Older(o, Some(body), Find(c.pointers, sub)))
  }

  ghost predicate Attributed(o: Oracle, c: Store, body: Bytes, attribute: string) {
    var hash := PointerOf(o, body).catalogHash;
    hash in c.indexes && c.indexes[hash].attribute == attribute
  }

  ghost predicate ReaderOk(o: Oracle, c: Store, reader: Reader) {
    match reader.phase
    case Resolved(body) => Seen(o, c, reader.sub, body)
    case Fetched(body, attribute) => Seen(o, c, reader.sub, body) && Attributed(o, c, body, attribute)
    case Decided(body, attribute) => Seen(o, c, reader.sub, body) && Attributed(o, c, body, attribute)
    case Replied(Served(body, seqNo, attribute)) =>
      && Seen(o, c, reader.sub, body) && Attributed(o, c, body, attribute)
      && seqNo == PointerOf(o, body).seqNo
    case _ => true
  }

  ghost predicate ReaderInv(o: Oracle, c: Store, readers: map<nat, Reader>) {
    forall r :: r in readers ==> ReaderOk(o, c, readers[r])
  }

  ghost predicate Inv(o: Oracle, s: State) {
    && StoreInv(o, s.store) && PublisherInv(o, s.store, s.publishers) && DistinctBases(o, s.publishers)
    && CacheInv(s.store, s.caches) && ReaderInv(o, s.store, s.readers)
  }

  // ---- Stability: the store only grows, and pointers only advance -----------------------------

  /** What every step does to the store. */
  ghost predicate Grows(o: Oracle, c: Store, d: Store) {
    && (forall hash :: hash in c.indexes ==>
          hash in d.indexes && d.indexes[hash].attribute == c.indexes[hash].attribute)
    && (forall b :: HasDocument(c, o, b) ==> HasDocument(d, o, b))
    && (forall b :: HasOutboard(c, o, b) ==> HasOutboard(d, o, b))
    && (forall sub :: Find(d.pointers, sub) == Find(c.pointers, sub)
                      || Older(o, Find(c.pointers, sub), Find(d.pointers, sub)))
  }

  lemma KnownStable(o: Oracle, c: Store, d: Store, body: Bytes)
    requires IndexesBacked(o, c) && Grows(o, c, d) && Known(o, c, body)
    ensures Known(o, d, body)
  {
    var hash := PointerOf(o, body).catalogHash;
    if hash in c.indexes {
      assert IndexBacked(o, c, hash);
      assert HasDocument(c, o, c.documents[hash].body);
    }
  }

  /** An index record is only ever written for an envelope. */
  lemma IndexedIsEnvelope(o: Oracle, c: Store, body: Bytes)
    requires IndexesBacked(o, c) && o.parse(body).Some? && Known(o, c, body)
    ensures PointerOf(o, body).catalogHash in c.indexes <==> Envelope(o, body)
  {
    var hash := PointerOf(o, body).catalogHash;
    if hash in c.indexes {
      assert IndexBacked(o, c, hash);
      assert EnvelopeAttribute(o, c.documents[hash].body, c.indexes[hash].owner).Some?;
    }
  }

  lemma OlderTransitive(o: Oracle, a: Option<Bytes>, b: Option<Bytes>, c: Option<Bytes>)
    requires (a == b || Older(o, a, b)) && (b == c || Older(o, b, c))
    ensures a == c || Older(o, a, c)
    ensures Older(o, a, b) || Older(o, b, c) ==> Older(o, a, c)
  {
  }

  lemma BaseStable(o: Oracle, c: Store, d: Store, r: Request, base: Base)
    requires IndexesBacked(o, c) && Grows(o, c, d) && BaseOk(o, c, r, base)
    ensures BaseOk(o, d, r, base)
  {
    if base.stored.Some? { KnownStable(o, c, d, base.stored.value); }
  }

  lemma PhaseStable(o: Oracle, c: Store, d: Store, r: Request, phase: Phase)
    requires IndexesBacked(o, c) && Grows(o, c, d) && PhaseOk(o, c, r, phase)
    ensures PhaseOk(o, d, r, phase)
  {
    match phase
    case Arrived =>
    case HasPointer(stored) => if stored.Some? { KnownStable(o, c, d, stored.value); }
    case Checked(base) => BaseStable(o, c, d, r, base);
    case WroteDocument(base) => BaseStable(o, c, d, r, base);
    case WroteOutboard(base) => BaseStable(o, c, d, r, base);
    case WroteIndex(base) => BaseStable(o, c, d, r, base);
    case Ended(Accepted(base, replaced)) =>
      BaseStable(o, c, d, r, base);
      OlderTransitive(o, replaced, Find(c.pointers, r.sub), Find(d.pointers, r.sub));
    case Ended(_) =>
  }

  lemma PublishersStable(o: Oracle, c: Store, d: Store, publishers: map<nat, Publisher>)
    requires IndexesBacked(o, c) && Grows(o, c, d) && PublisherInv(o, c, publishers)
    ensures PublisherInv(o, d, publishers)
  {
    forall p | p in publishers ensures PublisherOk(o, d, publishers[p]) {
      PhaseStable(o, c, d, publishers[p].request, publishers[p].phase);
    }
  }

  lemma SeenStable(o: Oracle, c: Store, d: Store, sub: string, body: Bytes)
    requires IndexesBacked(o, c) && Grows(o, c, d) && Seen(o, c, sub, body)
    ensures Seen(o, d, sub, body)
  {
    KnownStable(o, c, d, body);
    OlderTransitive(o, Some(body), Find(c.pointers, sub), Find(d.pointers, sub));
  }

  lemma ReadersStable(o: Oracle, c: Store, d: Store, readers: map<nat, Reader>)
    requires IndexesBacked(o, c) && Grows(o, c, d) && ReaderInv(o, c, readers)
    ensures ReaderInv(o, d, readers)
  {
    forall r | r in readers ensures ReaderOk(o, d, readers[r]) {
      assert ReaderOk(o, c, readers[r]);
      match readers[r].phase
      case Resolved(body) => SeenStable(o, c, d, readers[r].sub, body);
      case Fetched(body, _) => SeenStable(o, c, d, readers[r].sub, body);
      case Decided(body, _) => SeenStable(o, c, d, readers[r].sub, body);
      case Replied(Served(body, _, _)) => SeenStable(o, c, d, readers[r].sub, body);
      case _ =>
    }
  }

  /** What everyone relies on survives a change of the store that only grows it. */
  lemma InvStable(o: Oracle, s: State, d: Store)
    requires Inv(o, s) && Grows(o, s.store, d) && StoreInv(o, d)
    ensures Inv(o, s.(store := d))
  {
    PublishersStable(o, s.store, d, s.publishers);
    ReadersStable(o, s.store, d, s.readers);
  }

  // ---- Every step keeps the invariant ---------------------------------------------------------

  lemma PublisherUpdated(o: Oracle, c: Store, publishers: map<nat, Publisher>, p: nat, pub: Publisher)
    requires PublisherInv(o, c, publishers) && PublisherOk(o, c, pub)
    ensures PublisherInv(o, c, publishers[p := pub])
  {
  }

  lemma ReaderUpdated(o: Oracle, c: Store, readers: map<nat, Reader>, r: nat, reader: Reader)
    requires ReaderInv(o, c, readers) && ReaderOk(o, c, reader)
    ensures ReaderInv(o, c, readers[r := reader])
  {
  }

  lemma CacheUpdated(c: Store, caches: map<nat, map<string, string>>, node: nat, hash: string, attribute: string)
    requires CacheInv(c, caches) && hash in c.indexes && c.indexes[hash].attribute == attribute
    ensures var known := if node in caches then caches[node] else map[];
            CacheInv(c, caches[node := Cached(known, hash, attribute)])
  {
  }

  lemma DistinctUpdated(o: Oracle, publishers: map<nat, Publisher>, p: nat, pub: Publisher)
    requires DistinctBases(o, publishers) && !(pub.phase.Ended? && pub.phase.outcome.Accepted?)
    ensures DistinctBases(o, publishers[p := pub])
  {
    var after := publishers[p := pub];
    assert forall q :: Won(after, q) ==> Won(publishers, q) && q != p;
  }

  /** A publisher moves to a phase that is sound for the store as it is, and is not accepted by that. */
  lemma PhaseChangeKeeps(o: Oracle, s: State, p: nat, phase: Phase)
    requires Inv(o, s) && p in s.publishers && !Won(s.publishers, p)
    requires PhaseOk(o, s.store, s.publishers[p].request, phase)
    requires phase.Ended? ==> !phase.outcome.Accepted?
    ensures Inv(o, SetPhase(s, p, phase))
  {
    var pub := s.publishers[p].(phase := phase);
    assert PublisherOk(o, s.store, s.publishers[p]);
    PublisherUpdated(o, s.store, s.publishers, p, pub);
    DistinctUpdated(o, s.publishers, p, pub);
  }

  lemma ReadPointerKeeps(o: Oracle, s: State, p: nat)
    requires Inv(o, s) && p in s.publishers && s.publishers[p].phase.Arrived?
    ensures Inv(o, DoReadPointer(o, s, p))
  {
    PhaseChangeKeeps(o, s, p, DoReadPointer(o, s, p).publishers[p].phase);
  }

  lemma PublisherIn(o: Oracle, s: State, p: nat)
    requires Inv(o, s) && p in s.publishers
    ensures PublisherOk(o, s.store, s.publishers[p]) && StoreInv(o, s.store)
  {
  }

  lemma ReadIndexKeeps(o: Oracle, s: State, p: nat, blocked: bool)
    requires Inv(o, s) && p in s.publishers && s.publishers[p].phase.HasPointer?
    ensures Inv(o, DoReadIndex(o, s, p, blocked))
  {
    hide Inv, Legacy, Known, IndexBacked, PreconditionsHold, Admissible;
    var r := s.publishers[p].request;
    var stored := s.publishers[p].phase.stored;
    PublisherIn(o, s, p);
    AdmissibleIsEnvelope(o, r);
    if stored.Some? { IndexedIsEnvelope(o, s.store, stored.value); }
    PhaseChangeKeeps(o, s, p, DoReadIndex(o, s, p, blocked).publishers[p].phase);
  }

  lemma AdmissibleIsEnvelope(o: Oracle, r: Request)
    requires Admissible(o, r)
    ensures Envelope(o, r.body)
  {
    assert EnvelopeAttribute(o, r.document, r.sub).Some?;
  }

  /** A write that keeps documents, outboards and attributes of the catalogs with an index record keeps what the
      store promises. */
  lemma GrowthKeepsStore(o: Oracle, c: Store, d: Store)
    requires StoreInv(o, c) && IndexesBacked(o, d) && Grows(o, c, d) && d.pointers == c.pointers
    ensures StoreInv(o, d)
  {
    forall sub | sub in d.pointers && o.parse(d.pointers[sub]).Some? ensures Known(o, d, d.pointers[sub]) {
      KnownStable(o, c, d, d.pointers[sub]);
    }
  }

  /** Writing a document under its hash loses nothing: another publisher of the hash has the same bytes. */
  lemma DocumentWriteGrows(o: Oracle, c: Store, b: Bytes, owner: string)
    requires IdealOracle(o) && StoreInv(o, c)
    ensures var d := c.(documents := c.documents[o.digest.hash(b) := StoredDocument(b, owner)]);
            Grows(o, c, d) && StoreInv(o, d)
  {
    var d := c.(documents := c.documents[o.digest.hash(b) := StoredDocument(b, owner)]);
    forall hash | hash in d.indexes ensures IndexBacked(o, d, hash) { assert IndexBacked(o, c, hash); }
    GrowthKeepsStore(o, c, d);
  }

  lemma OutboardWriteGrows(o: Oracle, c: Store, b: Bytes)
    requires IdealOracle(o) && StoreInv(o, c)
    ensures var d := c.(outboards := c.outboards[o.digest.hash(b) := o.digest.outboard(b)]); Grows(o, c, d) && StoreInv(o, d)
  {
    var d := c.(outboards := c.outboards[o.digest.hash(b) := o.digest.outboard(b)]);
    forall hash | hash in d.indexes ensures IndexBacked(o, d, hash) { assert IndexBacked(o, c, hash); }
    GrowthKeepsStore(o, c, d);
  }

  /** The attribute is a function of the document alone, whichever subjects it is accepted for. */
  lemma OneAttribute(o: Oracle, b: Bytes, sub: string, other: string)
    requires EnvelopeAttribute(o, b, sub).Some? && EnvelopeAttribute(o, b, other).Some?
    ensures EnvelopeAttribute(o, b, sub) == EnvelopeAttribute(o, b, other)
  {
  }

  /** An index record may be overwritten for another owner, but its attribute is the document's. */
  lemma IndexWriteGrows(o: Oracle, c: Store, b: Bytes, record: IndexRecord)
    requires IdealOracle(o) && StoreInv(o, c) && HasDocument(c, o, b) && HasOutboard(c, o, b)
    requires EnvelopeAttribute(o, b, record.owner) == Some(record.attribute)
    ensures var d := c.(indexes := c.indexes[o.digest.hash(b) := record]); Grows(o, c, d) && StoreInv(o, d)
  {
    hide Legacy, IdealOracle, Older, EnvelopeAttribute;
    var h := o.digest.hash(b);
    var d := c.(indexes := c.indexes[h := record]);
    if h in c.indexes {
      assert IndexBacked(o, c, h);
      OneAttribute(o, b, record.owner, c.indexes[h].owner);
    }
    assert IndexBacked(o, d, h);
    forall hash | hash in c.indexes && hash != h ensures IndexBacked(o, d, hash) {
      assert IndexBacked(o, c, hash);
    }
    GrowthKeepsStore(o, c, d);
  }

  lemma WriteGrowsStore(o: Oracle, s: State, p: nat, lost: bool)
    requires IdealOracle(o) && StoreInv(o, s.store) && p in s.publishers && PublisherOk(o, s.store, s.publishers[p])
    requires var phase := s.publishers[p].phase; phase.Checked? || phase.WroteDocument? || phase.WroteOutboard?
    ensures var d := DoWrite(o, s, p, lost).store; StoreInv(o, d) && Grows(o, s.store, d)
  {
    var r := s.publishers[p].request;
    match s.publishers[p].phase {
      case Checked(_) => DocumentWriteGrows(o, s.store, r.document, r.sub);
      case WroteDocument(_) => OutboardWriteGrows(o, s.store, r.document);
      case WroteOutboard(_) =>
        IndexWriteGrows(o, s.store, r.document, IndexRecord(r.sub, EnvelopeAttribute(o, r.document, r.sub).value, r.entries));
    }
  }

  lemma WriteReachesPhase(o: Oracle, s: State, p: nat, lost: bool)
    requires IdealOracle(o) && StoreInv(o, s.store) && p in s.publishers && PublisherOk(o, s.store, s.publishers[p])
    requires var phase := s.publishers[p].phase; phase.Checked? || phase.WroteDocument? || phase.WroteOutboard?
    ensures var t := DoWrite(o, s, p, lost); var pub := t.publishers[p];
      && pub.request == s.publishers[p].request && PhaseOk(o, t.store, pub.request, pub.phase)
      && (pub.phase.Ended? ==> !pub.phase.outcome.Accepted?)
      && t == SetPhase(s.(store := t.store), p, pub.phase)
  {
    WriteGrowsStore(o, s, p, lost);
    PhaseStable(o, s.store, DoWrite(o, s, p, lost).store, s.publishers[p].request, s.publishers[p].phase);
  }

  lemma WriteKeeps(o: Oracle, s: State, p: nat, lost: bool)
    requires IdealOracle(o) && Inv(o, s) && p in s.publishers
    requires var phase := s.publishers[p].phase; phase.Checked? || phase.WroteDocument? || phase.WroteOutboard?
    ensures Inv(o, DoWrite(o, s, p, lost)) && Grows(o, s.store, DoWrite(o, s, p, lost).store)
  {
    var t := DoWrite(o, s, p, lost);
    assert PublisherOk(o, s.store, s.publishers[p]);
    WriteGrowsStore(o, s, p, lost);
    InvStable(o, s, t.store);
    WriteReachesPhase(o, s, p, lost);
    PhaseChangeKeeps(o, s.(store := t.store), p, t.publishers[p].phase);
  }

  lemma PointerWriteGrows(o: Oracle, c: Store, sub: string, body: Bytes)
    requires StoreInv(o, c) && Older(o, Find(c.pointers, sub), Some(body)) && Known(o, c, body)
    ensures var d := c.(pointers := c.pointers[sub := body]); Grows(o, c, d) && StoreInv(o, d)
  {
    hide Legacy, Older, EnvelopeAttribute;
    var d := c.(pointers := c.pointers[sub := body]);
    assert Known(o, d, body);
    assert forall hash :: hash in d.indexes ==> IndexBacked(o, c, hash);
    assert forall other :: other in c.pointers && o.parse(c.pointers[other]).Some? ==> Known(o, c, c.pointers[other]);
  }

  /** A conditional write that goes through replaces exactly the pointer the publisher read. */
  lemma SwapGrows(o: Oracle, c: Store, r: Request, base: Base)
    requires IdealOracle(o) && StoreInv(o, c) && Admissible(o, r) && PhaseOk(o, c, r, WroteIndex(base))
    requires Unmoved(o, Find(c.pointers, r.sub), base.stored)
    ensures Find(c.pointers, r.sub) == base.stored
    ensures var d := c.(pointers := c.pointers[r.sub := r.body]); Grows(o, c, d) && StoreInv(o, d)
  {
    hide Legacy, PreconditionsHold, Grows;
    assert IndexBacked(o, c, o.digest.hash(r.document));
    PointerWriteGrows(o, c, r.sub, r.body);
  }

  lemma SwapKeeps(o: Oracle, s: State, p: nat, fate: Fate)
    requires IdealOracle(o) && Inv(o, s) && p in s.publishers && s.publishers[p].phase.WroteIndex?
    ensures Inv(o, DoSwap(o, s, p, fate)) && Grows(o, s.store, DoSwap(o, s, p, fate).store)
  {
    var t := DoSwap(o, s, p, fate);
    var r, base := s.publishers[p].request, s.publishers[p].phase.base;
    assert PublisherOk(o, s.store, s.publishers[p]);
    if Unmoved(o, Find(s.store.pointers, r.sub), base.stored) && !fate.Busy? {
      SwapGrows(o, s.store, r, base);
      InvStable(o, s, t.store);
      if fate.Acknowledged? {
        AcceptKeeps(o, s, t, p);
      } else {
        PhaseChangeKeeps(o, s.(store := t.store), p, t.publishers[p].phase);
      }
    } else {
      PhaseChangeKeeps(o, s, p, Ended(LostRace));
    }
  }

  /** Every publish accepted earlier replaced something older than what this one replaces. */
  lemma AcceptKeepsDistinct(o: Oracle, c: Store, publishers: map<nat, Publisher>, p: nat, base: Base)
    requires PublisherInv(o, c, publishers) && DistinctBases(o, publishers)
    requires p in publishers && !Won(publishers, p) && Find(c.pointers, publishers[p].request.sub) == base.stored
    ensures DistinctBases(o, publishers[p := publishers[p].(phase := Ended(Accepted(base, base.stored)))])
  {
    var after := publishers[p := publishers[p].(phase := Ended(Accepted(base, base.stored)))];
    forall q | Won(after, q) && q != p
      ensures Won(publishers, q)
      ensures publishers[q].request.sub == publishers[p].request.sub ==>
                Older(o, publishers[q].phase.outcome.replaced, base.stored)
    {
      assert PublisherOk(o, c, publishers[q]);
    }
  }

  lemma AcceptKeeps(o: Oracle, s: State, t: State, p: nat)
    requires Inv(o, s) && Inv(o, s.(store := t.store))
    requires p in s.publishers && s.publishers[p].phase.WroteIndex?
    requires Find(s.store.pointers, s.publishers[p].request.sub) == s.publishers[p].phase.base.stored
    requires var base := s.publishers[p].phase.base;
             t == SetPhase(s.(store := t.store), p, Ended(Accepted(base, base.stored)))
    requires Find(t.store.pointers, s.publishers[p].request.sub) == Some(s.publishers[p].request.body)
    ensures Inv(o, t)
  {
    var base := s.publishers[p].phase.base;
    AcceptKeepsDistinct(o, s.store, s.publishers, p, base);
    assert PublisherOk(o, t.store, s.publishers[p]);
    assert PublisherOk(o, t.store, t.publishers[p]);
    PublisherUpdated(o, t.store, s.publishers, p, t.publishers[p]);
  }

  lemma ReaderStepKeeps(o: Oracle, s: State, r: nat, phase: ReaderPhase)
    requires Inv(o, s) && r in s.readers
    requires ReaderOk(o, s.store, s.readers[r].(phase := phase))
    ensures Inv(o, SetReader(s, r, phase))
  {
    ReaderUpdated(o, s.store, s.readers, r, s.readers[r].(phase := phase));
  }

  lemma RememberKeeps(o: Oracle, s: State, r: nat)
    requires Inv(o, s) && r in s.readers && s.readers[r].phase.Fetched?
    ensures Inv(o, DoRemember(o, s, r))
  {
    var t := DoRemember(o, s, r);
    var phase := s.readers[r].phase;
    assert ReaderOk(o, s.store, s.readers[r]);
    CacheUpdated(s.store, s.caches, s.readers[r].node, PointerOf(o, phase.body).catalogHash, phase.attribute);
    ReaderStepKeeps(o, s, r, Decided(phase.body, phase.attribute));
  }

  lemma ResolveKeeps(o: Oracle, s: State, r: nat, blocked: bool)
    requires Inv(o, s) && r in s.readers && s.readers[r].phase.Asked?
    ensures Inv(o, DoResolve(o, s, r, blocked))
  {
    ReaderStepKeeps(o, s, r, DoResolve(o, s, r, blocked).readers[r].phase);
  }

  lemma FetchAttributeKeeps(o: Oracle, s: State, r: nat)
    requires Inv(o, s) && r in s.readers && s.readers[r].phase.Resolved?
    ensures Inv(o, DoFetchAttribute(o, s, r))
  {
    assert ReaderOk(o, s.store, s.readers[r]);
    ReaderStepKeeps(o, s, r, DoFetchAttribute(o, s, r).readers[r].phase);
  }

  lemma PermitKeeps(o: Oracle, s: State, r: nat)
    requires Inv(o, s) && r in s.readers && s.readers[r].phase.Decided?
    ensures Inv(o, DoPermit(o, s, r))
  {
    assert ReaderOk(o, s.store, s.readers[r]);
    ReaderStepKeeps(o, s, r, DoPermit(o, s, r).readers[r].phase);
  }

  lemma AdmitKeeps(o: Oracle, s: State, p: nat, request: Request)
    requires Inv(o, s) && p !in s.publishers && Admissible(o, request)
    ensures Inv(o, Apply(o, s, Admit(p, request)))
  {
    PublisherUpdated(o, s.store, s.publishers, p, Publisher(request, Arrived));
    DistinctUpdated(o, s.publishers, p, Publisher(request, Arrived));
  }

  lemma AskKeeps(o: Oracle, s: State, r: nat, reader: Reader)
    requires Inv(o, s) && r !in s.readers && reader.phase.Asked?
    ensures Inv(o, s.(readers := s.readers[r := reader]))
  {
    ReaderUpdated(o, s.store, s.readers, r, reader);
  }

  lemma RestartKeeps(o: Oracle, s: State, node: nat)
    requires Inv(o, s)
    ensures Inv(o, s.(caches := s.caches[node := map[]]))
  {
  }

  // ---- One step -------------------------------------------------------------------------------

  ghost predicate Kept(o: Oracle, s: State, t: State) { Inv(o, t) && Grows(o, s.store, t.store) }

  lemma SameStore(o: Oracle, s: State, t: State)
    requires Inv(o, t) && t.store == s.store
    ensures Kept(o, s, t)
  {
  }

  lemma AdmitStep(o: Oracle, s: State, p: nat, request: Request)
    requires Inv(o, s)
    ensures Kept(o, s, Apply(o, s, Admit(p, request)))
  {
    hide Inv, Kept, Admissible;
    if p !in s.publishers && Admissible(o, request) { AdmitKeeps(o, s, p, request); }
    SameStore(o, s, Apply(o, s, Admit(p, request)));
  }

  lemma ReadPointerStep(o: Oracle, s: State, p: nat)
    requires Inv(o, s)
    ensures Kept(o, s, Apply(o, s, ReadPointer(p)))
  {
    hide Inv, Kept;
    if p in s.publishers && s.publishers[p].phase.Arrived? { ReadPointerKeeps(o, s, p); }
    SameStore(o, s, Apply(o, s, ReadPointer(p)));
  }

  lemma ReadIndexStep(o: Oracle, s: State, p: nat, blocked: bool)
    requires Inv(o, s)
    ensures Kept(o, s, Apply(o, s, ReadIndex(p, blocked)))
  {
    hide Inv, Kept, PreconditionsHold;
    if p in s.publishers && s.publishers[p].phase.HasPointer? { ReadIndexKeeps(o, s, p, blocked); }
    SameStore(o, s, Apply(o, s, ReadIndex(p, blocked)));
  }

  lemma WriteStep(o: Oracle, s: State, p: nat, lost: bool)
    requires IdealOracle(o) && Inv(o, s)
    ensures Kept(o, s, Apply(o, s, Write(p, lost)))
  {
    hide Inv, IdealOracle, Grows, EnvelopeAttribute, ComputeOutboard;
    if p in s.publishers
       && (s.publishers[p].phase.Checked? || s.publishers[p].phase.WroteDocument? || s.publishers[p].phase.WroteOutboard?) {
      WriteKeeps(o, s, p, lost);
    } else {
      SameStore(o, s, s);
    }
  }

  lemma SwapStep(o: Oracle, s: State, p: nat, fate: Fate)
    requires IdealOracle(o) && Inv(o, s)
    ensures Kept(o, s, Apply(o, s, Swap(p, fate)))
  {
    hide Inv, IdealOracle, Grows, Unmoved;
    if p in s.publishers && s.publishers[p].phase.WroteIndex? {
      SwapKeeps(o, s, p, fate);
    } else {
      SameStore(o, s, s);
    }
  }

  lemma StopStep(o: Oracle, s: State, p: nat)
    requires Inv(o, s)
    ensures Kept(o, s, Apply(o, s, Stop(p)))
  {
    hide Inv, Kept;
    if p in s.publishers && !s.publishers[p].phase.Ended? { PhaseChangeKeeps(o, s, p, Ended(StorageFailed)); }
    SameStore(o, s, Apply(o, s, Stop(p)));
  }

  lemma AskStep(o: Oracle, s: State, r: nat, sub: string, node: nat)
    requires Inv(o, s)
    ensures Kept(o, s, Apply(o, s, Ask(r, sub, node)))
  {
    hide Inv, Kept;
    if r !in s.readers { AskKeeps(o, s, r, Reader(sub, node, Asked)); }
    SameStore(o, s, Apply(o, s, Ask(r, sub, node)));
  }

  lemma ResolveStep(o: Oracle, s: State, r: nat, blocked: bool)
    requires Inv(o, s)
    ensures Kept(o, s, Apply(o, s, Resolve(r, blocked)))
  {
    hide Inv, Kept;
    if r in s.readers && s.readers[r].phase.Asked? { ResolveKeeps(o, s, r, blocked); }
    SameStore(o, s, Apply(o, s, Resolve(r, blocked)));
  }

  lemma FetchAttributeStep(o: Oracle, s: State, r: nat)
    requires Inv(o, s)
    ensures Kept(o, s, Apply(o, s, FetchAttribute(r)))
  {
    hide Inv, Kept;
    if r in s.readers && s.readers[r].phase.Resolved? { FetchAttributeKeeps(o, s, r); }
    SameStore(o, s, Apply(o, s, FetchAttribute(r)));
  }

  lemma RememberStep(o: Oracle, s: State, r: nat)
    requires Inv(o, s)
    ensures Kept(o, s, Apply(o, s, Remember(r)))
  {
    hide Inv, Kept;
    if r in s.readers && s.readers[r].phase.Fetched? { RememberKeeps(o, s, r); }
    SameStore(o, s, Apply(o, s, Remember(r)));
  }

  lemma PermitStep(o: Oracle, s: State, r: nat)
    requires Inv(o, s)
    ensures Kept(o, s, Apply(o, s, Permit(r)))
  {
    hide Inv, Kept;
    if r in s.readers && s.readers[r].phase.Decided? { PermitKeeps(o, s, r); }
    SameStore(o, s, Apply(o, s, Permit(r)));
  }

  lemma StopReaderStep(o: Oracle, s: State, r: nat)
    requires Inv(o, s)
    ensures Kept(o, s, Apply(o, s, StopReader(r)))
  {
    hide Inv, Kept;
    if r in s.readers && !s.readers[r].phase.Replied? { ReaderStepKeeps(o, s, r, Replied(Failed)); }
    SameStore(o, s, Apply(o, s, StopReader(r)));
  }

  lemma RestartStep(o: Oracle, s: State, node: nat)
    requires Inv(o, s)
    ensures Kept(o, s, Apply(o, s, Restart(node)))
  {
    hide Inv, Kept;
    RestartKeeps(o, s, node);
    SameStore(o, s, Apply(o, s, Restart(node)));
  }

  lemma StepKeeps(o: Oracle, s: State, step: Step)
    requires IdealOracle(o) && Inv(o, s)
    ensures Kept(o, s, Apply(o, s, step))
  {
    hide *;
    match step
    case Admit(p, request) => AdmitStep(o, s, p, request);
    case ReadPointer(p) => ReadPointerStep(o, s, p);
    case ReadIndex(p, blocked) => ReadIndexStep(o, s, p, blocked);
    case Write(p, lost) => WriteStep(o, s, p, lost);
    case Swap(p, fate) => SwapStep(o, s, p, fate);
    case Stop(p) => StopStep(o, s, p);
    case Ask(r, sub, node) => AskStep(o, s, r, sub, node);
    case Resolve(r, blocked) => ResolveStep(o, s, r, blocked);
    case FetchAttribute(r) => FetchAttributeStep(o, s, r);
    case Remember(r) => RememberStep(o, s, r);
    case Permit(r) => PermitStep(o, s, r);
    case StopReader(r) => StopReaderStep(o, s, r);
    case Restart(node) => RestartStep(o, s, node);
  }

  // ---- Whole runs -----------------------------------------------------------------------------

  lemma {:induction false} Reachable(o: Oracle, s0: State, steps: seq<Step>)
    requires IdealOracle(o) && Init(o, s0)
    ensures Inv(o, After(o, s0, steps))
  {
    if steps != [] {
      Reachable(o, s0, steps[..|steps| - 1]);
      StepKeeps(o, After(o, s0, steps[..|steps| - 1]), steps[|steps| - 1]);
    }
  }

  ghost function At(o: Oracle, s0: State, steps: seq<Step>, i: nat): State
    requires i <= |steps|
  {
    After(o, s0, steps[..i])
  }

  lemma AtNext(o: Oracle, s0: State, steps: seq<Step>, i: nat)
    requires i < |steps|
    ensures At(o, s0, steps, i + 1) == Apply(o, At(o, s0, steps, i), steps[i])
  {
    assert steps[..i + 1][..i] == steps[..i];
  }

  /** Under every interleaving, from any moment of a run to any later one, a subject's stored pointer is unchanged
      or was replaced by an envelope pointer of a greater seq. */
  lemma {:induction false} PointerOnlyAdvances(o: Oracle, s0: State, steps: seq<Step>, i: nat, j: nat, sub: string)
    requires IdealOracle(o) && Init(o, s0) && i <= j <= |steps|
    ensures var a, b := Find(At(o, s0, steps, i).store.pointers, sub), Find(At(o, s0, steps, j).store.pointers, sub);
            a == b || Older(o, a, b)
    decreases j - i
  {
    hide Apply, IdealOracle, Init;
    if i < j {
      PointerOnlyAdvances(o, s0, steps, i, j - 1, sub);
      Reachable(o, s0, steps[..j - 1]);
      AtNext(o, s0, steps, j - 1);
      StepKeeps(o, At(o, s0, steps, j - 1), steps[j - 1]);
      OlderTransitive(o, Find(At(o, s0, steps, i).store.pointers, sub),
                      Find(At(o, s0, steps, j - 1).store.pointers, sub), Find(At(o, s0, steps, j).store.pointers, sub));
    }
  }

  /** The compare-and-swap has no ABA: a pointer that is there twice was there all the while, although its ETag
      depends on its bytes alone. */
  lemma NoAba(o: Oracle, s0: State, steps: seq<Step>, i: nat, k: nat, j: nat, sub: string)
    requires IdealOracle(o) && Init(o, s0) && i <= k <= j <= |steps|
    requires Find(At(o, s0, steps, i).store.pointers, sub) == Find(At(o, s0, steps, j).store.pointers, sub)
    ensures Find(At(o, s0, steps, k).store.pointers, sub) == Find(At(o, s0, steps, i).store.pointers, sub)
  {
    PointerOnlyAdvances(o, s0, steps, i, k, sub);
    PointerOnlyAdvances(o, s0, steps, k, j, sub);
  }

  ghost predicate Resolves(o: Oracle, c: Store, sub: string) {
    sub in c.pointers && Envelope(o, c.pointers[sub]) ==>
      var pointer := PointerOf(o, c.pointers[sub]);
      && pointer.catalogHash in c.documents
      && o.digest.hash(c.documents[pointer.catalogHash].body) == pointer.catalogHash
      && |c.documents[pointer.catalogHash].body| == pointer.catalogSize
      && pointer.catalogHash in c.outboards && c.outboards[pointer.catalogHash].root == pointer.catalogHash
      && pointer.catalogHash in c.indexes
  }

  lemma KnownResolves(o: Oracle, c: Store, sub: string)
    requires IdealOracle(o) && StoreInv(o, c)
    ensures Resolves(o, c, sub)
  {
    if sub in c.pointers && Envelope(o, c.pointers[sub]) {
      assert Known(o, c, c.pointers[sub]);
      assert IndexBacked(o, c, PointerOf(o, c.pointers[sub]).catalogHash);
    }
  }

  /** In every reachable state an envelope pointer names a document that is stored with the stated hash and size,
      whose outboard is stored with that root, and whose index record exists. */
  lemma EnvelopePointersResolve(o: Oracle, s0: State, steps: seq<Step>, sub: string)
    requires IdealOracle(o) && Init(o, s0)
    ensures Resolves(o, After(o, s0, steps).store, sub)
  {
    hide Apply, IdealOracle, Init, StoreInv, Resolves;
    Reachable(o, s0, steps);
    KnownResolves(o, After(o, s0, steps).store, sub);
  }

  lemma WonWithTag(o: Oracle, s: State, p: nat, n: nat)
    requires Inv(o, s) && Won(s.publishers, p) && NamesOneTag(s.publishers[p].request.headers, n)
    ensures var replaced := s.publishers[p].phase.outcome.replaced;
            replaced.Some? && Envelope(o, replaced.value) && PointerOf(o, replaced.value).seqNo == n
  {
    hide Inv, Legacy, Known, PreconditionsHold, NamesOneTag, Admissible;
    PublisherIn(o, s, p);
    OneTagMeansServed(s.publishers[p].request.headers, n, ServedSeq(o, s.publishers[p].phase.outcome.base));
  }

  /** An accepted publish that named one base tag replaced exactly the envelope pointer with that seq. */
  lemma WinnerReplacedItsBase(o: Oracle, s0: State, steps: seq<Step>, p: nat, n: nat)
    requires IdealOracle(o) && Init(o, s0)
    requires var pubs := After(o, s0, steps).publishers; Won(pubs, p) && NamesOneTag(pubs[p].request.headers, n)
    ensures var replaced := After(o, s0, steps).publishers[p].phase.outcome.replaced;
            replaced.Some? && Envelope(o, replaced.value) && PointerOf(o, replaced.value).seqNo == n
  {
    hide *;
    Reachable(o, s0, steps);
    WonWithTag(o, After(o, s0, steps), p, n);
  }

  lemma OneWonWithTag(o: Oracle, s: State, p: nat, q: nat, n: nat)
    requires Inv(o, s) && Won(s.publishers, p) && Won(s.publishers, q)
    requires s.publishers[p].request.sub == s.publishers[q].request.sub
    requires NamesOneTag(s.publishers[p].request.headers, n) && NamesOneTag(s.publishers[q].request.headers, n)
    ensures p == q
  {
    WonWithTag(o, s, p, n);
    WonWithTag(o, s, q, n);
  }

  /** Of any number of publishes for a subject naming the same single `If-Match` tag, at most one is accepted. */
  lemma AtMostOneWinner(o: Oracle, s0: State, steps: seq<Step>, p: nat, q: nat, n: nat)
    requires IdealOracle(o) && Init(o, s0)
    requires var pubs := After(o, s0, steps).publishers;
      && Won(pubs, p) && Won(pubs, q) && pubs[p].request.sub == pubs[q].request.sub
      && NamesOneTag(pubs[p].request.headers, n) && NamesOneTag(pubs[q].request.headers, n)
    ensures p == q
  {
    hide *;
    Reachable(o, s0, steps);
    OneWonWithTag(o, After(o, s0, steps), p, q, n);
  }

  lemma WonWithStar(o: Oracle, s: State, p: nat)
    requires Inv(o, s) && Won(s.publishers, p) && RefusesAny(s.publishers[p].request.headers)
    ensures var outcome := s.publishers[p].phase.outcome;
      && outcome.replaced == outcome.base.stored
      && (outcome.replaced.None? || !Envelope(o, outcome.replaced.value) || outcome.base.blocked)
  {
    hide Inv, Legacy, Known, PreconditionsHold, RefusesAny, Admissible;
    PublisherIn(o, s, p);
    StarMeansNoneServed(s.publishers[p].request.headers, ServedSeq(o, s.publishers[p].phase.outcome.base));
  }

  /** An accepted publish with `If-None-Match: *`, alone or in a list, replaced nothing that a read would have served
      when it was checked: no pointer, one from before envelopes, or one whose catalog was blocked. */
  lemma StarReplacedNothingServed(o: Oracle, s0: State, steps: seq<Step>, p: nat)
    requires IdealOracle(o) && Init(o, s0)
    requires var pubs := After(o, s0, steps).publishers; Won(pubs, p) && RefusesAny(pubs[p].request.headers)
    ensures var outcome := After(o, s0, steps).publishers[p].phase.outcome;
      && outcome.replaced == outcome.base.stored
      && (outcome.replaced.None? || !Envelope(o, outcome.replaced.value) || outcome.base.blocked)
  {
    hide *;
    Reachable(o, s0, steps);
    WonWithStar(o, After(o, s0, steps), p);
  }

  /** A reader was served its document's own attribute. */
  ghost predicate ServedOwn(o: Oracle, c: Store, reader: Reader) {
    reader.phase.Replied? && reader.phase.reply.Served? ==>
      var reply := reader.phase.reply;
      var hash := PointerOf(o, reply.body).catalogHash;
      && Envelope(o, reply.body) && reply.seqNo == PointerOf(o, reply.body).seqNo
      && hash in c.documents && hash in c.indexes
      && EnvelopeAttribute(o, c.documents[hash].body, c.indexes[hash].owner) == Some(reply.attribute)
  }

  lemma ReaderServedOwn(o: Oracle, c: Store, reader: Reader)
    requires StoreInv(o, c) && ReaderOk(o, c, reader)
    ensures ServedOwn(o, c, reader)
  {
    hide EnvelopeAttribute;
    if reader.phase.Replied? && reader.phase.reply.Served? {
      var body := reader.phase.reply.body;
      assert IndexBacked(o, c, PointerOf(o, body).catalogHash);
      IndexedIsEnvelope(o, c, body);
    }
  }

  lemma InvCaches(o: Oracle, s: State)
    requires Inv(o, s)
    ensures CacheInv(s.store, s.caches)
  {
  }

  /** In every reachable state each node's cache agrees with the stored index records, whoever published the same
      bytes meanwhile and whatever was evicted; and a served attribute is the served document's own. */
  lemma CachedAttributesAgree(o: Oracle, s0: State, steps: seq<Step>)
    requires IdealOracle(o) && Init(o, s0)
    ensures CacheInv(After(o, s0, steps).store, After(o, s0, steps).caches)
    ensures var s := After(o, s0, steps); forall r :: r in s.readers ==> ServedOwn(o, s.store, s.readers[r])
  {
    hide *;
    Reachable(o, s0, steps);
    var s := After(o, s0, steps);
    InvCaches(o, s);
    forall r | r in s.readers ensures ServedOwn(o, s.store, s.readers[r]) {
      ReaderIn(o, s, r);
      ReaderServedOwn(o, s.store, s.readers[r]);
    }
  }

  /** The index record as a reader finds it, when the store answers. */
  function ReadIndexRecord(c: Store, hash: string): IndexRead {
    if hash in c.indexes then Found(c.indexes[hash].attribute) else Absent
  }

  function CacheOf(s: State, node: nat): map<string, string> { if node in s.caches then s.caches[node] else map[] }

  lemma Fetching(o: Oracle, s: State, r: nat, body: Bytes)
    requires r in s.readers && s.readers[r].phase == Resolved(body)
    ensures var hash := PointerOf(o, body).catalogHash;
      var known, read := CacheOf(s, s.readers[r].node), ReadIndexRecord(s.store, hash);
      DoFetchAttribute(o, s, r) ==
        SetReader(s, r, if hash in known then Decided(body, known[hash])
                        else if read.Found? then Fetched(body, read.attribute) else Replied(NotFound))
  {
  }

  /** The protocol's two halves of `catalog_attribute` decide, and leave the node's cache, as the cache object does. */
  lemma ReaderUsesTheCache(o: Oracle, s: State, r: nat, body: Bytes)
    requires r in s.readers && s.readers[r].phase == Resolved(body)
    ensures var hash := PointerOf(o, body).catalogHash;
      var known, read := CacheOf(s, s.readers[r].node), ReadIndexRecord(s.store, hash);
      var t := DoRemember(o, DoFetchAttribute(o, s, r), r);
      && t.store == s.store && CacheOf(t, s.readers[r].node) == Remembering(known, hash, read)
      && t.readers[r].phase == (match KnownOrRead(known, hash, read)
                                case Ok(Some(attribute)) => Decided(body, attribute)
                                case _ => Replied(NotFound))
  {
    hide DoFetchAttribute, Cached, PointerOf;
    Fetching(o, s, r, body);
  }

  /** And from a cache that agrees with the store the answer is the stored attribute. */
  lemma AgreeingCacheAnswers(c: Store, caches: map<nat, map<string, string>>, node: nat, hash: string)
    requires CacheInv(c, caches) && node in caches
    ensures KnownOrRead(caches[node], hash, ReadIndexRecord(c, hash)) == KnownOrRead(map[], hash, ReadIndexRecord(c, hash))
  {
  }

  // ---- Successive reads -----------------------------------------------------------------------

  ghost predicate AtLeast(o: Oracle, body: Bytes, n: nat) {
    Envelope(o, body) && PointerOf(o, body).seqNo >= n
  }

  /** The pointer a reader goes by, once it has resolved one. */
  function Told(readers: map<nat, Reader>, r: nat): Option<Bytes> {
    if r !in readers then None
    else
      match readers[r].phase
      case Resolved(body) => Some(body)
      case Fetched(body, _) => Some(body)
      case Decided(body, _) => Some(body)
      case Replied(Served(body, _, _)) => Some(body)
      case _ => None
  }

  /** From `s` to `t`, reader `r` is told of nothing but the pointer stored in `s`. */
  ghost predicate ToldWhatIsStored(s: State, t: State, r: nat) {
    && (r in s.readers ==> r in t.readers && t.readers[r].sub == s.readers[r].sub)
    && (|| Told(t.readers, r).None? || Told(t.readers, r) == Told(s.readers, r)
        || (r in t.readers && Told(t.readers, r) == Find(s.store.pointers, t.readers[r].sub)))
  }

  predicate ReaderStep(step: Step) {
    step.Ask? || step.Resolve? || step.FetchAttribute? || step.Remember? || step.Permit? || step.StopReader?
  }

  lemma OtherStepTellsNothing(o: Oracle, s: State, step: Step)
    requires !ReaderStep(step)
    ensures Apply(o, s, step).readers == s.readers
  {
    hide Admissible, PreconditionsHold, EnvelopeAttribute, ComputeOutboard, Unmoved;
  }

  lemma AskOrResolveTells(o: Oracle, s: State, step: Step, r: nat)
    requires step.Ask? || step.Resolve?
    ensures ToldWhatIsStored(s, Apply(o, s, step), r)
  {
    hide DoReadPointer, DoReadIndex, DoWrite, DoSwap, DoFetchAttribute, DoRemember, DoPermit, Admissible;
  }

  lemma LaterReaderStepTells(o: Oracle, s: State, step: Step, r: nat)
    requires step.FetchAttribute? || step.Remember? || step.Permit? || step.StopReader?
    ensures ToldWhatIsStored(s, Apply(o, s, step), r)
  {
    hide DoReadPointer, DoReadIndex, DoWrite, DoSwap, DoResolve, Admissible, PointerOf, Cached, Find;
  }

  lemma StepTells(o: Oracle, s: State, step: Step, r: nat)
    ensures ToldWhatIsStored(s, Apply(o, s, step), r)
  {
    hide Apply;
    if step.Ask? || step.Resolve? {
      AskOrResolveTells(o, s, step, r);
    } else if ReaderStep(step) {
      LaterReaderStepTells(o, s, step, r);
    } else {
      OtherStepTellsNothing(o, s, step);
    }
  }

  lemma RunTells(o: Oracle, s0: State, steps: seq<Step>, i: nat, r: nat)
    requires i < |steps|
    ensures ToldWhatIsStored(At(o, s0, steps, i), At(o, s0, steps, i + 1), r)
  {
    AtNext(o, s0, steps, i);
    StepTells(o, At(o, s0, steps, i), steps[i], r);
  }

  /** The stored pointer is at least `n`, and so is the one reader `r` goes by. */
  ghost predicate NotBehind(o: Oracle, s: State, r: nat, sub: string, n: nat) {
    && sub in s.store.pointers && AtLeast(o, s.store.pointers[sub], n)
    && (r in s.readers && s.readers[r].sub == sub && Told(s.readers, r).Some? ==>
          AtLeast(o, Told(s.readers, r).value, n))
  }

  lemma NotBehindStep(o: Oracle, s: State, t: State, r: nat, sub: string, n: nat)
    requires NotBehind(o, s, r, sub, n) && ToldWhatIsStored(s, t, r)
    requires Find(t.store.pointers, sub) == Find(s.store.pointers, sub)
             || Older(o, Find(s.store.pointers, sub), Find(t.store.pointers, sub))
    ensures NotBehind(o, t, r, sub, n)
  {
  }

  lemma NotBehindNext(o: Oracle, s0: State, steps: seq<Step>, i: nat, r: nat, sub: string, n: nat)
    requires IdealOracle(o) && Init(o, s0) && i < |steps| && NotBehind(o, At(o, s0, steps, i), r, sub, n)
    ensures NotBehind(o, At(o, s0, steps, i + 1), r, sub, n)
  {
    PointerOnlyAdvances(o, s0, steps, i, i + 1, sub);
    RunTells(o, s0, steps, i, r);
    NotBehindStep(o, At(o, s0, steps, i), At(o, s0, steps, i + 1), r, sub, n);
  }

  /** What each step of a run carries on holds to its end. */
  lemma {:induction false} Carried(holds: nat -> bool, i: nat, j: nat)
    requires i <= j && holds(i) && forall k: nat :: i <= k < j && holds(k) ==> holds(k + 1)
    ensures holds(j)
    decreases j
  {
    if i < j {
      Carried(holds, i, j - 1);
      assert holds(j - 1 + 1);
    }
  }

  lemma NotBehindLater(o: Oracle, s0: State, steps: seq<Step>, i: nat, j: nat, r: nat, sub: string, n: nat)
    requires IdealOracle(o) && Init(o, s0) && i <= j <= |steps|
    requires NotBehind(o, At(o, s0, steps, i), r, sub, n)
    ensures NotBehind(o, At(o, s0, steps, j), r, sub, n)
  {
    hide *;
    var holds := (k: nat) => k <= |steps| && NotBehind(o, At(o, s0, steps, k), r, sub, n);
    forall k: nat | i <= k < j && holds(k) ensures holds(k + 1) { NotBehindNext(o, s0, steps, k, r, sub, n); }
    Carried(holds, i, j);
  }

  lemma ReaderIn(o: Oracle, s: State, r: nat)
    requires Inv(o, s) && r in s.readers
    ensures ReaderOk(o, s.store, s.readers[r]) && StoreInv(o, s.store)
  {
  }

  /** A read that starts after another one was answered never goes back: its seq is at least the other's. */
  lemma ReadsNeverGoBack(o: Oracle, s0: State, steps: seq<Step>, i: nat, first: nat, second: nat)
    requires IdealOracle(o) && Init(o, s0) && i <= |steps|
    requires var early := At(o, s0, steps, i).readers;
      && first in early && early[first].phase.Replied? && early[first].phase.reply.Served?
      && second !in early
    requires var late := After(o, s0, steps).readers;
      && second in late && late[second].phase.Replied? && late[second].phase.reply.Served?
      && late[second].sub == At(o, s0, steps, i).readers[first].sub
    ensures At(o, s0, steps, i).readers[first].phase.reply.seqNo
            <= After(o, s0, steps).readers[second].phase.reply.seqNo
  {
    hide Apply, Init, IdealOracle, Legacy, Inv;
    var s := At(o, s0, steps, i);
    Reachable(o, s0, steps[..i]);
    var reply := s.readers[first].phase.reply;
    ReaderIn(o, s, first);
    IndexedIsEnvelope(o, s.store, reply.body);
    NotBehindLater(o, s0, steps, i, |steps|, second, s.readers[first].sub, reply.seqNo);
    assert steps[..|steps|] == steps;
    Reachable(o, s0, steps);
    ReaderIn(o, After(o, s0, steps), second);
  }

  // ---- A publish nobody interferes with -------------------------------------------------------

  /** A publish that runs alone. */
  function Publish(o: Oracle, s: State, p: nat, r: Request, blocked: bool): State {
    Finish(o, Check(o, s, p, r, blocked), p)
  }

  /** Step 7. */
  function Check(o: Oracle, s: State, p: nat, r: Request, blocked: bool): State {
    Apply(o, Apply(o, Apply(o, s, Admit(p, r)), ReadPointer(p)), ReadIndex(p, blocked))
  }

  /** Step 8. */
  function Finish(o: Oracle, s: State, p: nat): State {
    Apply(o, Apply(o, Apply(o, Apply(o, s, Write(p, false)), Write(p, false)), Write(p, false)), Swap(p, Acknowledged))
  }

  ghost function EnvelopeSeq(o: Oracle, stored: Option<Bytes>): Option<nat> {
    if stored.Some? && Envelope(o, stored.value) then Some(PointerOf(o, stored.value).seqNo) else None
  }

  lemma CheckPasses(o: Oracle, s: State, p: nat, r: Request, blocked: bool)
    requires Inv(o, s) && p !in s.publishers && Admissible(o, r)
    requires r.sub in s.store.pointers ==> o.parse(s.store.pointers[r.sub]).Some?
    ensures var t, current := Check(o, s, p, r, blocked), EnvelopeSeq(o, Find(s.store.pointers, r.sub));
      && t.store == s.store && p in t.publishers && t.publishers[p].request == r
      && (t.publishers[p].phase.Checked? || t.publishers[p].phase.Ended?) && !Won(t.publishers, p)
      && (t.publishers[p].phase.Checked? ==> t.publishers[p].phase.base.stored == Find(s.store.pointers, r.sub))
      && (t.publishers[p].phase.Checked? <==>
            && PreconditionsHold(r.headers, ServedTag(if blocked then None else current))
            && (current.Some? ==> current.value < PointerOf(o, r.body).seqNo))
  {
    hide Legacy, PreconditionsHold, IndexBacked, EnvelopeAttribute;
    var stored := Find(s.store.pointers, r.sub);
    if stored.Some? { IndexedIsEnvelope(o, s.store, stored.value); }
  }

  /** The phase after an acknowledged write. */
  function Written(phase: Phase): Phase
    requires phase.Checked? || phase.WroteDocument? || phase.WroteOutboard?
  {
    match phase
    case Checked(base) => WroteDocument(base)
    case WroteDocument(base) => WroteOutboard(base)
    case WroteOutboard(base) => WroteIndex(base)
  }

  lemma WriteGoesOn(o: Oracle, s: State, p: nat)
    requires IdealOracle(o) && p in s.publishers && Admissible(o, s.publishers[p].request)
    ensures var phase, t := s.publishers[p].phase, Apply(o, s, Write(p, false));
      && (phase.Ended? ==> t == s)
      && (phase.Checked? || phase.WroteDocument? || phase.WroteOutboard? ==>
            t.store.pointers == s.store.pointers && t.publishers == s.publishers[p := s.publishers[p].(phase := Written(phase))])
  {
  }

  lemma SwapGoesThrough(o: Oracle, s: State, p: nat)
    requires p in s.publishers
    ensures var r, phase, t := s.publishers[p].request, s.publishers[p].phase, Apply(o, s, Swap(p, Acknowledged));
      && (phase.Ended? ==> t == s)
      && (phase.WroteIndex? && phase.base.stored == Find(s.store.pointers, r.sub) ==>
            Won(t.publishers, p) && t.store.pointers == s.store.pointers[r.sub := r.body])
  {
  }

  lemma FinishAccepts(o: Oracle, s: State, p: nat)
    requires IdealOracle(o) && p in s.publishers && Admissible(o, s.publishers[p].request)
    ensures var t, r := Finish(o, s, p), s.publishers[p].request;
      && (s.publishers[p].phase.Ended? ==> t == s)
      && (s.publishers[p].phase.Checked? && s.publishers[p].phase.base.stored == Find(s.store.pointers, r.sub) ==>
            Won(t.publishers, p) && t.store.pointers == s.store.pointers[r.sub := r.body])
  {
    hide Apply, IdealOracle, Admissible, Won;
    if s.publishers[p].phase.Ended? || s.publishers[p].phase.Checked? {
      WriteGoesOn(o, s, p);
      var one := Apply(o, s, Write(p, false));
      WriteGoesOn(o, one, p);
      var two := Apply(o, one, Write(p, false));
      WriteGoesOn(o, two, p);
      SwapGoesThrough(o, Apply(o, two, Write(p, false)), p);
    }
  }

  /** On a store whose pointer for the subject can be read, a publish that runs alone is accepted exactly when its
      preconditions hold for what is served and its seq is greater than a stored envelope's; then its bundle is the
      stored pointer. */
  lemma UncontendedPublish(o: Oracle, s: State, p: nat, r: Request, blocked: bool)
    requires IdealOracle(o) && Inv(o, s) && p !in s.publishers && Admissible(o, r)
    requires r.sub in s.store.pointers ==> o.parse(s.store.pointers[r.sub]).Some?
    ensures var t, current := Publish(o, s, p, r, blocked), EnvelopeSeq(o, Find(s.store.pointers, r.sub));
      && (Won(t.publishers, p) <==>
            && PreconditionsHold(r.headers, ServedTag(if blocked then None else current))
            && (current.Some? ==> current.value < PointerOf(o, r.body).seqNo))
      && t.store.pointers == if Won(t.publishers, p) then s.store.pointers[r.sub := r.body] else s.store.pointers
  {
    CheckPasses(o, s, p, r, blocked);
    FinishAccepts(o, Check(o, s, p, r, blocked), p);
  }
}
