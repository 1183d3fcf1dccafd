/** The publish checks on a catalog's recordings: every distinct payload is looked up once per phase, a few at a time,
    and the verdict is that of looking up every entry in turn. */
module Payloads {
  import opened Wrappers
  import opened CatalogMetadata

  const INGEST_CHECK_CONCURRENCY := 16

  datatype Entry = Entry(contentId: string, payloadHash: string, payloadSize: nat)

  datatype Refusal =
    | Blocked
    | StorageUnavailable
    | NotIngested(hash: string)
    | SizeMismatch(hash: string)
    | ManifestNotStored(hash: string)
    | ManifestUnreadable(hash: string)
    | WrongPolicy(contentId: string)

  /** A storage read: an answer, or a failure. */
  datatype Reading<T> = Answer(value: Option<T>) | Failed

  /** What a check meets: the block list, and what the store answers for each hash while it runs. */
  datatype Storage = Storage(
    blocked: set<string>,
    size: string -> Reading<nat>,
    manifest: string -> Reading<Bytes>,
    read: Bytes -> Option<ManifestPolicy>,
    decode: Decoder)

  /** A hash's size, or why it is refused. */
  function Sizes(storage: Storage): string -> Result<nat, Refusal> {
    hash =>
      match storage.size(hash)
      case Answer(Some(size)) => Ok(size)
      case Answer(None) => Err(NotIngested(hash))
      case Failed => Err(StorageUnavailable)
  }

  /** A hash's manifest policy, or why it is refused. */
  function Manifests(storage: Storage): string -> Result<ManifestPolicy, Refusal> {
    hash =>
      match storage.manifest(hash)
      case Answer(Some(bytes)) =>
        (match storage.read(bytes)
         case Some(policy) => Ok(policy)
         case None => Err(ManifestUnreadable(hash)))
      case Answer(None) => Err(ManifestNotStored(hash))
      case Failed => Err(StorageUnavailable)
  }

  // ---- The plain check ------------------------------------------------------------------------

  function PayloadHashes(entries: seq<Entry>): seq<string> {
    seq(|entries|, i requires 0 <= i < |entries| => entries[i].payloadHash)
  }

  lemma HashesListed(entries: seq<Entry>)
    ensures forall e :: e in entries ==> e.payloadHash in PayloadHashes(entries)
  {
    forall e | e in entries ensures e.payloadHash in PayloadHashes(entries) {
      var i :| 0 <= i < |entries| && entries[i] == e;
      assert PayloadHashes(entries)[i] == e.payloadHash;
    }
  }

  /** The refusal of the first hash in order that is refused. */
  function FirstRefusal<T>(hashes: seq<string>, ask: string -> Result<T, Refusal>): Option<Refusal> {
    if hashes == [] then None
    else if ask(hashes[0]).Err? then Some(ask(hashes[0]).error)
    else FirstRefusal(hashes[1..], ask)
  }

  /** The first entry in order that a test rejects. */
  function FirstRejected(entries: seq<Entry>, accept: Entry -> bool): Option<Entry> {
    if entries == [] then None
    else if !accept(entries[0]) then Some(entries[0])
    else FirstRejected(entries[1..], accept)
  }

  function SizeAgrees(storage: Storage): Entry -> bool {
    (e: Entry) => Sizes(storage)(e.payloadHash) == Ok(e.payloadSize)
  }

  function PolicyAgrees(storage: Storage, attribute: string): Entry -> bool {
    (e: Entry) =>
      var manifest := Manifests(storage)(e.payloadHash);
      manifest.Ok? && HasAttribute(manifest.value, attribute, storage.decode)
  }

  /** Every entry asked in order, in every phase. None is acceptance. */
  function PlainCheck(storage: Storage, entries: seq<Entry>, attribute: string): Option<Refusal> {
    if exists e :: e in entries && e.payloadHash in storage.blocked then Some(Blocked)
    else
      var unsized := FirstRefusal(PayloadHashes(entries), Sizes(storage));
      if unsized.Some? then unsized
      else
        var resized := FirstRejected(entries, SizeAgrees(storage));
        if resized.Some? then Some(SizeMismatch(resized.value.payloadHash))
        else
          var unread := FirstRefusal(PayloadHashes(entries), Manifests(storage));
          if unread.Some? then unread
          else
            var foreign := FirstRejected(entries, PolicyAgrees(storage, attribute));
            if foreign.Some? then Some(WrongPolicy(foreign.value.contentId)) else None
  }

  lemma {:induction false} NoneRefused<T>(hashes: seq<string>, ask: string -> Result<T, Refusal>)
    ensures FirstRefusal(hashes, ask).None? <==> forall h :: h in hashes ==> ask(h).Ok?
  {
    if hashes != [] {
      assert hashes == [hashes[0]] + hashes[1..];
      NoneRefused(hashes[1..], ask);
    }
  }

  lemma {:induction false} NoneRejected(entries: seq<Entry>, accept: Entry -> bool)
    ensures FirstRejected(entries, accept).None? <==> forall e :: e in entries ==> accept(e)
  {
    if entries != [] {
      assert entries == [entries[0]] + entries[1..];
      NoneRejected(entries[1..], accept);
    }
  }

  ghost predicate EntryAgrees(storage: Storage, e: Entry, attribute: string) {
    && e.payloadHash !in storage.blocked && storage.size(e.payloadHash) == Answer(Some(e.payloadSize))
    && PolicyAgrees(storage, attribute)(e)
  }

  lemma EntryPasses(storage: Storage, e: Entry, attribute: string)
    ensures EntryAgrees(storage, e, attribute) <==>
      && e.payloadHash !in storage.blocked && Sizes(storage)(e.payloadHash).Ok? && SizeAgrees(storage)(e)
      && Manifests(storage)(e.payloadHash).Ok? && PolicyAgrees(storage, attribute)(e)
  {
  }

  lemma EveryHash<T>(entries: seq<Entry>, ask: string -> Result<T, Refusal>)
    ensures FirstRefusal(PayloadHashes(entries), ask).None? <==> forall e :: e in entries ==> ask(e.payloadHash).Ok?
  {
    HashesListed(entries);
    NoneRefused(PayloadHashes(entries), ask);
    assert forall h :: h in PayloadHashes(entries) ==> exists e :: e in entries && e.payloadHash == h;
  }

  /** Acceptance, whatever the order of the entries: each one's payload is unblocked, ingested at the stated size, and
      has a readable manifest whose policy names the catalog's attribute. */
  lemma AcceptedMeansEveryEntryAgrees(storage: Storage, entries: seq<Entry>, attribute: string)
    ensures PlainCheck(storage, entries, attribute).None? <==>
            forall e :: e in entries ==> EntryAgrees(storage, e, attribute)
  {
    hide EntryAgrees, Sizes, Manifests, SizeAgrees, PolicyAgrees, FirstRefusal, FirstRejected, PayloadHashes;
    EveryHash(entries, Sizes(storage));
    EveryHash(entries, Manifests(storage));
    NoneRejected(entries, SizeAgrees(storage));
    NoneRejected(entries, PolicyAgrees(storage, attribute));
    forall e ensures EntryAgrees(storage, e, attribute) <==>
      && e.payloadHash !in storage.blocked && Sizes(storage)(e.payloadHash).Ok? && SizeAgrees(storage)(e)
      && Manifests(storage)(e.payloadHash).Ok? && PolicyAgrees(storage, attribute)(e)
    {
      EntryPasses(storage, e, attribute);
    }
  }

  // ---- Distinct hashes ------------------------------------------------------------------------

  predicate Distinct(hashes: seq<string>) {
    forall i, j :: 0 <= i < j < |hashes| ==> hashes[i] != hashes[j]
  }

  /** `hashes` without those seen before, in order of first appearance. */
  function Fresh(hashes: seq<string>, seen: set<string>): seq<string> {
    if hashes == [] then []
    else if hashes[0] in seen then Fresh(hashes[1..], seen)
    else [hashes[0]] + Fresh(hashes[1..], seen + {hashes[0]})
  }

  lemma {:induction false} FreshIsDistinct(hashes: seq<string>, seen: set<string>)
    ensures Distinct(Fresh(hashes, seen))
    ensures forall h :: h in Fresh(hashes, seen) <==> h in hashes && h !in seen
  {
    if hashes != [] {
      assert hashes == [hashes[0]] + hashes[1..];
      FreshIsDistinct(hashes[1..], if hashes[0] in seen then seen else seen + {hashes[0]});
    }
  }

  /** Leaving out repeats of hashes that were answered changes neither whether nor where a refusal is met. */
  lemma {:induction false} RepeatsDoNotMatter<T>(hashes: seq<string>, seen: set<string>, ask: string -> Result<T, Refusal>)
    requires forall h :: h in seen ==> ask(h).Ok?
    ensures FirstRefusal(Fresh(hashes, seen), ask) == FirstRefusal(hashes, ask)
  {
    if hashes != [] {
      if hashes[0] in seen {
        RepeatsDoNotMatter(hashes[1..], seen, ask);
      } else if ask(hashes[0]).Ok? {
        RepeatsDoNotMatter(hashes[1..], seen + {hashes[0]}, ask);
        assert Fresh(hashes, seen)[1..] == Fresh(hashes[1..], seen + {hashes[0]});
      }
    }
  }

  lemma {:induction false} FreshAppend(hashes: seq<string>, seen: set<string>, last: string)
    ensures Fresh(hashes + [last], seen) == Fresh(hashes, seen) + if last in seen || last in hashes then [] else [last]
  {
    if hashes == [] {
      assert [last][1..] == [];
    } else {
      assert (hashes + [last])[1..] == hashes[1..] + [last];
      assert hashes == [hashes[0]] + hashes[1..];
      FreshAppend(hashes[1..], if hashes[0] in seen then seen else seen + {hashes[0]}, last);
    }
  }

  /** The distinct payload hashes, in entry order. */
  method Hashes(entries: seq<Entry>) returns (hashes: seq<string>)
    ensures hashes == Fresh(PayloadHashes(entries), {}) && Distinct(hashes)
    ensures forall h :: h in hashes <==> h in PayloadHashes(entries)
  {
    var seen := {};
    hashes := [];
    var i := 0;
    ghost var all := PayloadHashes(entries);
    while i < |entries|
      invariant i <= |entries| && hashes == Fresh(all[..i], {})
      invariant forall h :: h in seen <==> h in all[..i]
    {
      var h := entries[i].payloadHash;
      FreshAppend(all[..i], {}, h);
      assert all[..i + 1] == all[..i] + [h];
      if h !in seen {
        seen := seen + {h};
        hashes := hashes + [h];
      }
      i := i + 1;
    }
    assert all[..i] == all;
    FreshIsDistinct(all, {});
  }

  // ---- Looking up -----------------------------------------------------------------------------

  lemma {:induction false} RefusedAt<T>(hashes: seq<string>, ask: string -> Result<T, Refusal>, i: nat)
    requires i <= |hashes| && (forall j :: 0 <= j < i ==> ask(hashes[j]).Ok?)
    ensures FirstRefusal(hashes, ask) == FirstRefusal(hashes[i..], ask)
  {
    if i > 0 {
      RefusedAt(hashes, ask, i - 1);
      assert hashes[i - 1..][1..] == hashes[i..];
    }
  }

  /** Ask for each hash, a bounded number ahead of the one awaited, and stop at the first refusal in order. `asked`
      is every lookup made, in the order it was started. */
  method LookUp<T>(hashes: seq<string>, ask: string -> Result<T, Refusal>)
    returns (r: Result<map<string, T>, Refusal>, asked: seq<string>)
    ensures r.Err? ==> FirstRefusal(hashes, ask) == Some(r.error)
    ensures r.Ok? ==> FirstRefusal(hashes, ask) == None && (forall h :: h in r.value <==> h in hashes)
    ensures r.Ok? ==> forall h :: h in hashes ==> Ok(r.value[h]) == ask(h)
    ensures asked <= hashes && (r.Ok? ==> asked == hashes)
    ensures forall j :: 0 <= j < |asked| - INGEST_CHECK_CONCURRENCY ==> ask(hashes[j]).Ok?
  {
    var found: map<string, T> := map[];
    var issued, i := 0, 0;
    while i < |hashes|
      invariant i <= issued <= |hashes| && issued - i <= INGEST_CHECK_CONCURRENCY
      invariant forall j :: 0 <= j < i ==> ask(hashes[j]).Ok?
      invariant forall h :: h in found <==> h in hashes[..i]
      invariant forall h :: h in found ==> Ok(found[h]) == ask(h)
    {
      while issued < |hashes| && issued - i < INGEST_CHECK_CONCURRENCY
        invariant i <= issued <= |hashes| && issued - i <= INGEST_CHECK_CONCURRENCY
      {
        issued := issued + 1;
      }
      var h := hashes[i];
      var answer := ask(h);
      if answer.Err? {
        RefusedAt(hashes, ask, i);
        return Err(answer.error), hashes[..issued];
      }
      found := found[h := answer.value];
      assert hashes[..i + 1] == hashes[..i] + [h];
      i := i + 1;
    }
    RefusedAt(hashes, ask, i);
    assert hashes[..i] == hashes;
    return Ok(found), hashes;
  }

  lemma {:induction false} SameRejection(entries: seq<Entry>, p: Entry -> bool, q: Entry -> bool)
    requires forall e :: e in entries ==> p(e) == q(e)
    ensures FirstRejected(entries, p) == FirstRejected(entries, q)
  {
    if entries != [] { SameRejection(entries[1..], p, q); }
  }

  /** The verdict, with the first failing hash or entry it names, is the plain check's, though no phase looks a hash
      up twice. */
  method CheckPayloads(storage: Storage, entries: seq<Entry>, attribute: string)
    returns (refusal: Option<Refusal>, sizesAsked: seq<string>, manifestsAsked: seq<string>)
    ensures refusal == PlainCheck(storage, entries, attribute)
    ensures Distinct(sizesAsked) && Distinct(manifestsAsked)
    ensures forall h :: h in sizesAsked || h in manifestsAsked ==> h in PayloadHashes(entries)
    ensures refusal.None? ==> forall e :: e in entries ==> e.payloadHash in sizesAsked && e.payloadHash in manifestsAsked
  {
    sizesAsked, manifestsAsked := [], [];
    if exists e :: e in entries && e.payloadHash in storage.blocked { return Some(Blocked), [], []; }

    var hashes := Hashes(entries);
    HashesListed(entries);
    RepeatsDoNotMatter(PayloadHashes(entries), {}, Sizes(storage));
    var sizes;
    sizes, sizesAsked := LookUp(hashes, Sizes(storage));
    if sizes.Err? { return Some(sizes.error), sizesAsked, []; }
    var sizeAgrees := (e: Entry) => e.payloadHash in sizes.value && sizes.value[e.payloadHash] == e.payloadSize;
    var resized := FirstRejected(entries, sizeAgrees);
    SameRejection(entries, sizeAgrees, SizeAgrees(storage));
    if resized.Some? { return Some(SizeMismatch(resized.value.payloadHash)), sizesAsked, []; }

    RepeatsDoNotMatter(PayloadHashes(entries), {}, Manifests(storage));
    var manifests;
    manifests, manifestsAsked := LookUp(hashes, Manifests(storage));
    if manifests.Err? { return Some(manifests.error), sizesAsked, manifestsAsked; }
    var policyAgrees := (e: Entry) => e.payloadHash in manifests.value
                                      && HasAttribute(manifests.value[e.payloadHash], attribute, storage.decode);
    var foreign := FirstRejected(entries, policyAgrees);
    SameRejection(entries, policyAgrees, PolicyAgrees(storage, attribute));
    refusal := if foreign.Some? then Some(WrongPolicy(foreign.value.contentId)) else None;
  }
}
