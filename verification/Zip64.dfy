/** The scan of an archive's tail for ZIP64 end records (sections 4.3.14 to 4.3.16 of PKWARE APPNOTE.TXT), run before
    the archive is opened, and the reader that caps what opening it may read. */
module Zip64 {
  import opened Wrappers

  const MAX_ARCHIVE_ENTRIES := 65_535
  const MAX_CENTRAL_DIRECTORY_READ := 16 * 1024 * 1024
  const MAX_ZIP64_CANDIDATES := 4
  const MAX_SCAN_READ := 5 * MAX_CENTRAL_DIRECTORY_READ + 4 * (20 + 56)
  const U64_MAX := 0xFFFF_FFFF_FFFF_FFFF

  const EOCD: Bytes := [0x50, 0x4B, 0x05, 0x06]
  const LOCATOR: Bytes := [0x50, 0x4B, 0x06, 0x07]
  const EOCD64: Bytes := [0x50, 0x4B, 0x06, 0x06]
  const EOCD_LEN := 22
  const LOCATOR_LEN := 20
  const EOCD64_LEN := 56

  function Min(a: nat, b: nat): nat { if a < b then a else b }

  function LittleEndian(bytes: Bytes): nat {
    if bytes == [] then 0 else bytes[0] as nat + 256 * LittleEndian(bytes[1..])
  }

  function SaturatingAdd(a: nat, b: nat): nat { Min(a + b, U64_MAX) }

  predicate StartsAt(bytes: Bytes, at: nat, signature: Bytes) {
    at + |signature| <= |bytes| && bytes[at..at + |signature|] == signature
  }

  // ---- What the scan is for, stated on the archive's own offsets ------------------------------

  /** How far back from the end the opener can search. */
  function Window(data: Bytes): nat { Min(|data|, MAX_CENTRAL_DIRECTORY_READ) }

  /** An end record within the window that leaves its member count or directory offset to ZIP64. */
  predicate Defers(data: Bytes, window: nat, at: nat) {
    && |data| - window <= at && at + EOCD_LEN <= |data| && StartsAt(data, at, EOCD)
    && (LittleEndian(data[at + 10..at + 12]) == 0xFFFF || LittleEndian(data[at + 16..at + 20]) == 0xFFFF_FFFF)
  }

  ghost function DeferringBefore(data: Bytes, window: nat, end: nat): set<nat> {
    set at: nat | at < end && Defers(data, window, at)
  }

  ghost function Deferring(data: Bytes, window: nat, end: nat): nat { |DeferringBefore(data, window, end)| }

  /** The offset a deferring end record's locator gives, when it has one that points before itself. */
  function Located(data: Bytes, eocd: nat): Option<nat>
    requires eocd <= |data|
  {
    if eocd < LOCATOR_LEN || !StartsAt(data, eocd - LOCATOR_LEN, LOCATOR) then None
    else
      var start := LittleEndian(data[eocd - 12..eocd - 4]);
      if start < eocd - LOCATOR_LEN then Some(start) else None
  }

  /** A ZIP64 end record that lies wholly where the opener would look for it. */
  predicate Reaches(data: Bytes, window: nat, eocd: nat, record: nat)
    requires eocd <= |data|
  {
    && Located(data, eocd).Some?
    && Located(data, eocd).value <= record
    && record + EOCD64_LEN <= Min(eocd - LOCATOR_LEN, Located(data, eocd).value + window + EOCD64_LEN)
    && StartsAt(data, record, EOCD64)
  }

  /** The larger of the two member counts of a ZIP64 end record. */
  function Listed(data: Bytes, record: nat): nat
    requires record + EOCD64_LEN <= |data|
  {
    var onDisk, files := LittleEndian(data[record + 24..record + 32]), LittleEndian(data[record + 32..record + 40]);
    if files < onDisk then onDisk else files
  }

  ghost predicate AllModest(data: Bytes, window: nat, eocd: nat) {
    eocd <= |data| && forall r: nat :: Reaches(data, window, eocd, r) ==> Listed(data, r) <= MAX_ARCHIVE_ENTRIES
  }

  /** A ZIP64 record reached from this end record lists `n` members, too many. */
  ghost predicate Excess(data: Bytes, window: nat, eocd: nat, n: nat) {
    eocd <= |data| && exists r: nat :: Reaches(data, window, eocd, r) && Listed(data, r) == n > MAX_ARCHIVE_ENTRIES
  }

  ghost predicate ModestBefore(data: Bytes, window: nat, end: nat) {
    forall eocd: nat :: eocd < end && Defers(data, window, eocd) ==> AllModest(data, window, eocd)
  }

  ghost predicate Acceptable(data: Bytes, window: nat) {
    Deferring(data, window, |data|) <= MAX_ZIP64_CANDIDATES && ModestBefore(data, window, |data|)
  }

  /** What the scan may read in all: the tail, then per candidate its locator, a window and a record. */
  function ReadBound(window: nat, candidates: nat): nat {
    if candidates == 0 then window
    else ReadBound(window, candidates - 1) + LOCATOR_LEN + window + EOCD64_LEN
  }

  // ---- The scan -------------------------------------------------------------------------------

  datatype Verdict = Accepted | TooManyEndRecords | TooManyMembers(listed: nat) | ReadFailed

  /** The archive file: its bytes, and how much of them has been read. Any read may fail. */
  class Archive {
    const data: Bytes
    const works: nat -> bool
    var asked: nat
    var total: nat

    constructor (data: Bytes, works: nat -> bool)
      ensures this.data == data && this.works == works && total == 0
    {
      this.data, this.works, asked, total := data, works, 0, 0;
    }

    /** Up to `len` bytes from `offset`; fewer where the file ends. */
    method ReadAt(offset: nat, len: nat) returns (r: Option<Bytes>)
      modifies this
      ensures r.Some? ==> r.value == if offset <= |data| then data[offset..Min(offset + len, |data|)] else []
      ensures r.None? ==> !Dependable(works)
      ensures old(total) <= total <= old(total) + len
    {
      asked := asked + 1;
      if !works(asked) { return None; }
      r := Some(if offset <= |data| then data[offset..Min(offset + len, |data|)] else []);
      total := total + |r.value|;
    }
  }

  ghost predicate Dependable(works: nat -> bool) {
    forall i :: works(i)
  }

  lemma SliceOfSlice(data: Bytes, start: nat, end: nat, from: nat, to: nat)
    requires start <= end <= |data| && from <= to <= end - start
    ensures data[start..end][from..to] == data[start + from..start + to]
  {
    var slice := data[start..end];
    assert forall i :: from <= i < to ==> slice[i] == data[start + i];
  }

  ghost predicate Within(data: Bytes, start: nat, end: nat, record: nat) {
    start <= record && record + EOCD64_LEN <= end && StartsAt(data, record, EOCD64)
  }

  /** No record that starts in the first `width` bytes of a region lists too many members. */
  ghost predicate ModestWithin(data: Bytes, start: nat, end: nat, width: nat)
    requires end <= |data|
  {
    forall r: nat :: r < start + width && Within(data, start, end, r) ==> Listed(data, r) <= MAX_ARCHIVE_ENTRIES
  }

  /** The first excessive count in a region of the archive that starts at `start`. */
  method ScanRegion(ghost data: Bytes, ghost start: nat, region: Bytes) returns (excess: Option<nat>)
    requires start + |region| <= |data| && region == data[start..start + |region|]
    ensures excess.None? ==> ModestWithin(data, start, start + |region|, |region|)
    ensures excess.Some? ==> exists r: nat :: Within(data, start, start + |region|, r)
                                              && Listed(data, r) == excess.value > MAX_ARCHIVE_ENTRIES
  {
    var q := 0;
    while q < |region|
      invariant q <= |region|
      invariant ModestWithin(data, start, start + |region|, q)
    {
      if q + EOCD64_LEN <= |region| {
        RecordInRegion(data, start, region, q);
        if StartsAt(region, q, EOCD64) {
          var record := region[q..q + EOCD64_LEN];
          var onDisk, files := LittleEndian(record[24..32]), LittleEndian(record[32..40]);
          var listed := if files < onDisk then onDisk else files;
          if listed > MAX_ARCHIVE_ENTRIES {
            assert Within(data, start, start + |region|, start + q) && Listed(data, start + q) == listed;
            return Some(listed);
          }
        }
      }
      q := q + 1;
    }
    return None;
  }

  lemma RecordInRegion(data: Bytes, start: nat, region: Bytes, q: nat)
    requires start + |region| <= |data| && region == data[start..start + |region|] && q + EOCD64_LEN <= |region|
    ensures StartsAt(region, q, EOCD64) <==> StartsAt(data, start + q, EOCD64)
    ensures var record := region[q..q + EOCD64_LEN];
      && record[24..32] == data[start + q + 24..start + q + 32]
      && record[32..40] == data[start + q + 32..start + q + 40]
  {
    SliceOfSlice(data, start, start + |region|, q, q + 4);
    SliceOfSlice(data, start, start + |region|, q, q + EOCD64_LEN);
    SliceOfSlice(data, start + q, start + q + EOCD64_LEN, 24, 32);
    SliceOfSlice(data, start + q, start + q + EOCD64_LEN, 32, 40);
  }

  /** Whether a whole end record in the tail defers to ZIP64. */
  predicate DefersAt(tail: Bytes, p: nat) {
    && StartsAt(tail, p, EOCD) && p + EOCD_LEN <= |tail|
    && var eocd := tail[p..p + EOCD_LEN];
       LittleEndian(eocd[10..12]) == 0xFFFF || LittleEndian(eocd[16..20]) == 0xFFFF_FFFF
  }

  ghost predicate IsTail(data: Bytes, tail: Bytes) {
    |tail| <= |data| && tail == data[|data| - |tail|..|data|]
  }

  lemma DefersInTail(data: Bytes, tail: Bytes, p: nat)
    requires IsTail(data, tail) && p <= |tail|
    ensures DefersAt(tail, p) <==> Defers(data, |tail|, |data| - |tail| + p)
  {
    if |tail| < p + EOCD_LEN { return; }
    var start := |data| - |tail|;
    SliceOfSlice(data, start, |data|, p, p + 4);
    SliceOfSlice(data, start, |data|, p, p + EOCD_LEN);
    SliceOfSlice(data, start + p, start + p + EOCD_LEN, 10, 12);
    SliceOfSlice(data, start + p, start + p + EOCD_LEN, 16, 20);
  }

  lemma LocatorRead(data: Bytes, eocd: nat, locator: Bytes)
    requires LOCATOR_LEN <= eocd <= |data| && locator == data[eocd - LOCATOR_LEN..eocd]
    ensures locator[..4] != LOCATOR ==> Located(data, eocd) == None
    ensures var start := LittleEndian(locator[8..16]);
      locator[..4] == LOCATOR ==>
        Located(data, eocd) == if start < eocd - LOCATOR_LEN then Some(start) else None
  {
    SliceOfSlice(data, eocd - LOCATOR_LEN, eocd, 0, 4);
    SliceOfSlice(data, eocd - LOCATOR_LEN, eocd, 8, 16);
  }

  function RegionEnd(locatorAt: nat, start: nat, window: nat): nat {
    Min(locatorAt, SaturatingAdd(SaturatingAdd(start, window), EOCD64_LEN))
  }

  /** The region the scan reads is the one the opener searches; saturation never shortens it. */
  lemma RegionIsSearched(data: Bytes, window: nat, eocd: nat, start: nat, end: nat)
    requires eocd <= |data| <= U64_MAX && Located(data, eocd) == Some(start)
    requires end == RegionEnd(eocd - LOCATOR_LEN, start, window)
    ensures start < end <= |data| && end - start <= window + EOCD64_LEN
    ensures ModestWithin(data, start, end, end - start) ==> AllModest(data, window, eocd)
    ensures forall r: nat :: Within(data, start, end, r) ==> Reaches(data, window, eocd, r)
  {
    assert end == Min(eocd - LOCATOR_LEN, start + window + EOCD64_LEN);
  }

  /** The ZIP64 records that one deferring end record leads to. */
  method CheckCandidate(archive: Archive, tail: Bytes, p: nat) returns (verdict: Verdict)
    requires IsTail(archive.data, tail) && p <= |tail| && |archive.data| <= U64_MAX
    modifies archive
    ensures var eocd := |archive.data| - |tail| + p;
      match verdict
      case Accepted => AllModest(archive.data, |tail|, eocd)
      case TooManyMembers(n) => Excess(archive.data, |tail|, eocd, n)
      case ReadFailed => !Dependable(archive.works)
      case TooManyEndRecords => false
    ensures archive.total <= old(archive.total) + LOCATOR_LEN + |tail| + EOCD64_LEN
  {
    var data, eocdAt := archive.data, |archive.data| - |tail| + p;
    if eocdAt < LOCATOR_LEN { return Accepted; }
    var locatorAt := eocdAt - LOCATOR_LEN;
    var locator;
    if LOCATOR_LEN <= p {
      locator := tail[p - LOCATOR_LEN..p];
      SliceOfSlice(data, |data| - |tail|, |data|, p - LOCATOR_LEN, p);
    } else {
      var read := archive.ReadAt(locatorAt, LOCATOR_LEN);
      if read.None? { return ReadFailed; }
      locator := read.value;
    }
    LocatorRead(data, eocdAt, locator);
    if locator[..4] != LOCATOR { return Accepted; }
    var start := LittleEndian(locator[8..16]);
    if start >= locatorAt { return Accepted; }
    verdict := CheckRegion(archive, |tail|, eocdAt, start);
  }

  method CheckRegion(archive: Archive, window: nat, eocdAt: nat, start: nat) returns (verdict: Verdict)
    requires eocdAt <= |archive.data| <= U64_MAX && Located(archive.data, eocdAt) == Some(start)
    modifies archive
    ensures
      match verdict
      case Accepted => AllModest(archive.data, window, eocdAt)
      case TooManyMembers(n) => Excess(archive.data, window, eocdAt, n)
      case ReadFailed => !Dependable(archive.works)
      case TooManyEndRecords => false
    ensures archive.total <= old(archive.total) + window + EOCD64_LEN
  {
    var end := RegionEnd(eocdAt - LOCATOR_LEN, start, window);
    RegionIsSearched(archive.data, window, eocdAt, start, end);
    var region := archive.ReadAt(start, end - start);
    if region.None? { return ReadFailed; }
    var excess := ScanRegion(archive.data, start, region.value);
    if excess.Some? { return TooManyMembers(excess.value); }
    return Accepted;
  }

  /** The positions before `at` hold `candidates` deferring end records, all of them modest. */
  ghost predicate Scanned(data: Bytes, window: nat, at: nat, candidates: nat) {
    Deferring(data, window, at) == candidates && ModestBefore(data, window, at)
  }

  lemma NoneBeforeTail(data: Bytes, window: nat)
    requires window <= |data|
    ensures Scanned(data, window, |data| - window, 0)
  {
    assert DeferringBefore(data, window, |data| - window) == {};
  }

  lemma NextDeferring(data: Bytes, window: nat, at: nat)
    ensures Deferring(data, window, at + 1) == Deferring(data, window, at) + if Defers(data, window, at) then 1 else 0
  {
    var before, after := DeferringBefore(data, window, at), DeferringBefore(data, window, at + 1);
    if Defers(data, window, at) {
      assert after == before + {at};
    } else {
      assert after == before;
    }
  }

  lemma ScannedNext(data: Bytes, window: nat, at: nat, candidates: nat)
    requires Scanned(data, window, at, candidates)
    ensures !Defers(data, window, at) ==> Scanned(data, window, at + 1, candidates)
    ensures Defers(data, window, at) && AllModest(data, window, at) ==> Scanned(data, window, at + 1, candidates + 1)
  {
    NextDeferring(data, window, at);
  }

  lemma TooMany(data: Bytes, window: nat, at: nat)
    requires at < |data| && Scanned(data, window, at, MAX_ZIP64_CANDIDATES) && Defers(data, window, at)
    ensures Deferring(data, window, |data|) > MAX_ZIP64_CANDIDATES
  {
    NextDeferring(data, window, at);
    var some, all := DeferringBefore(data, window, at + 1), DeferringBefore(data, window, |data|);
    assert all == some + (all - some);
  }

  lemma ScannedAll(data: Bytes, window: nat, candidates: nat)
    requires Scanned(data, window, |data|, candidates) && candidates <= MAX_ZIP64_CANDIDATES
    ensures Acceptable(data, window)
  {
  }

  lemma ExcessRefuses(data: Bytes, window: nat, eocd: nat, n: nat)
    requires Defers(data, window, eocd) && Excess(data, window, eocd, n)
    ensures !Acceptable(data, window)
  {
    assert !AllModest(data, window, eocd);
  }

  method ScanTail(archive: Archive, tail: Bytes) returns (verdict: Verdict, candidates: nat)
    requires IsTail(archive.data, tail) && |archive.data| <= U64_MAX && archive.total <= |tail|
    modifies archive
    ensures
      match verdict
      case Accepted => Acceptable(archive.data, |tail|)
      case TooManyEndRecords => Deferring(archive.data, |tail|, |archive.data|) > MAX_ZIP64_CANDIDATES
      case TooManyMembers(n) =>
        && !Acceptable(archive.data, |tail|)
        && exists eocd: nat :: Defers(archive.data, |tail|, eocd) && Excess(archive.data, |tail|, eocd, n)
      case ReadFailed => !Dependable(archive.works)
    ensures candidates <= MAX_ZIP64_CANDIDATES && archive.total <= ReadBound(|tail|, candidates)
  {
    hide Defers, DefersAt, Scanned, AllModest, Excess, Acceptable, Deferring, Dependable;
    ghost var data, at := archive.data, |archive.data| - |tail|;
    var p := 0;
    candidates := 0;
    NoneBeforeTail(data, |tail|);
    while p < |tail|
      invariant p <= |tail| && at == |data| - |tail| + p
      invariant candidates <= MAX_ZIP64_CANDIDATES && Scanned(data, |tail|, at, candidates)
      invariant archive.total <= ReadBound(|tail|, candidates)
    {
      ScannedNext(data, |tail|, at, candidates);
      DefersInTail(data, tail, p);
      if DefersAt(tail, p) {
        if candidates + 1 > MAX_ZIP64_CANDIDATES {
          TooMany(data, |tail|, at);
          return TooManyEndRecords, candidates;
        }
        candidates := candidates + 1;
        verdict := CheckCandidate(archive, tail, p);
        if verdict.TooManyMembers? { ExcessRefuses(data, |tail|, at, verdict.listed); }
        if !verdict.Accepted? { return; }
      }
      p, at := p + 1, at + 1;
    }
    ScannedAll(data, |tail|, candidates);
    verdict := Accepted;
  }

  /** The archive is accepted exactly when it defers to ZIP64 at most four times and every ZIP64 record the opener
      could reach is modest, having read no more than a constant. */
  method CheckEntryCounts(archive: Archive) returns (verdict: Verdict)
    requires |archive.data| <= U64_MAX && archive.total == 0
    modifies archive
    ensures verdict.ReadFailed? ==> !Dependable(archive.works)
    ensures !verdict.ReadFailed? ==> (verdict.Accepted? <==> Acceptable(archive.data, Window(archive.data)))
    ensures verdict.TooManyEndRecords? ==>
      Deferring(archive.data, Window(archive.data), |archive.data|) > MAX_ZIP64_CANDIDATES
    ensures verdict.TooManyMembers? ==>
      exists eocd: nat :: Defers(archive.data, Window(archive.data), eocd)
                          && Excess(archive.data, Window(archive.data), eocd, verdict.listed)
    ensures archive.total <= MAX_SCAN_READ
  {
    var window := Window(archive.data);
    ReadAtMost(window, 0);
    var tail := archive.ReadAt(|archive.data| - window, window);
    if tail.None? { return ReadFailed; }
    ghost var candidates;
    verdict, candidates := ScanTail(archive, tail.value);
    ReadAtMost(window, candidates);
  }

  lemma {:induction false} ReadAtMost(window: nat, candidates: nat)
    requires window <= MAX_CENTRAL_DIRECTORY_READ && candidates <= MAX_ZIP64_CANDIDATES
    ensures ReadBound(window, candidates) <= MAX_CENTRAL_DIRECTORY_READ + candidates * 16_777_292 <= MAX_SCAN_READ
  {
    if candidates > 0 { ReadAtMost(window, candidates - 1); }
  }

  // ---- Opening within a budget ----------------------------------------------------------------

  /** What `read` may take from a budget, None being unlimited: it refuses only a non-empty read of a spent one. */
  class BudgetReader {
    var budget: Option<nat>
    /** Bytes read under the budget set last. */
    ghost var spent: nat
    ghost const granted: nat

    ghost predicate Valid()
      reads this
    {
      budget.Some? ==> spent + budget.value == granted
    }

    constructor (budget: nat)
      ensures Valid() && this.budget == Some(budget) && spent == 0 && granted == budget
    {
      this.budget, spent, granted := Some(budget), 0, budget;
    }

    /** `available` is what the file would give a read of `len` bytes, None a failed read. */
    method Read(len: nat, available: Option<nat>) returns (n: Option<nat>)
      requires Valid()
      modifies this
      ensures Valid() && budget.None? == old(budget.None?) && (budget.Some? ==> spent <= granted)
      ensures n.Some? ==> n.value <= len && spent == old(spent) + n.value
      ensures n.None? ==> spent == old(spent) && budget == old(budget)
      ensures n.None? <==> available.None? || (old(budget) == Some(0) && len > 0)
    {
      var limit := len;
      if budget.Some? {
        if budget.value == 0 && len > 0 { return None; }
        limit := Min(len, budget.value);
      }
      if available.None? { return None; }
      var got := Min(available.value, limit);
      if budget.Some? { budget := Some(budget.value - got); }
      spent := spent + got;
      return Some(got);
    }
  }
}
