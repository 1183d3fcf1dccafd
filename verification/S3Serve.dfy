/** Ingest into the bucket and serving from it: uploads that write the outboard before the blob, serve checks, and
    the outboards a node computes in the background for objects that lack one.

    Uploads, checks and computations interleave freely, every storage call may fail, a write may take effect and be
    reported as failed, and any of them may stop between two steps. */
module S3Serve {
  import opened Wrappers
  import opened Bao

  const BACKFILLS := 2
  const BAD_CAPACITY := 10_000
  const SIZES_CAPACITY := 100_000
  const BACKFILL_COOLDOWN := 600

  /** `blobs/` and `catalog-documents/`, each with its outboards. */
  datatype Kind = Blob | Document

  datatype Key = Key(kind: Kind, hash: string)

  datatype Bucket = Bucket(data: map<Key, Bytes>, outboards: map<Key, Outboard>)

  // ---- Uploads --------------------------------------------------------------------------------

  /** A validated push: its bytes are exported from a store that verified them against the hash. */
  datatype UploadPhase = Validated | WroteOutboard | Absent | Stored | Failed

  datatype Upload = Upload(bytes: Bytes, phase: UploadPhase, retries: nat)

  // ---- Checks and background computations -----------------------------------------------------

  datatype Servable = Servable(size: nat, kind: Kind)

  datatype Reply = Serve(servable: Servable) | Gone | Busy

  datatype CheckPhase =
    | AskBlob
    | AskDocument
    | Found(servable: Servable)
    | Missing(servable: Servable)
    | Warm(servable: Servable)
    | Holding(servable: Servable)
    | Ended(reply: Reply)

  datatype Check = Check(hash: string, phase: CheckPhase)

  datatype TaskPhase =
    | Computing
    | Storing(outboard: Outboard)
    | Mismatch
    | Broken
    | Finished
    | Releasing

  datatype Task = Task(hash: string, servable: Servable, phase: TaskPhase)

  /** What the node keeps in memory. */
  datatype Server = Server(
    servable: map<string, Servable>,
    corrupt: set<string>,
    failedAt: map<string, nat>,
    backfilling: set<string>,
    permits: int,
    checks: map<nat, Check>,
    tasks: map<nat, Task>)

  datatype State = State(now: nat, bucket: Bucket, server: Server, uploads: map<nat, Upload>)

  const FRESH := Server(map[], {}, map[], {}, BACKFILLS, map[], map[])

  // ---- In-memory updates ----------------------------------------------------------------------

  /** `mark_corrupt`: at capacity the set is cleared first. */
  function MarkCorrupt(v: Server, hash: string): Server {
    v.(corrupt := (if |v.corrupt| >= BAD_CAPACITY then {} else v.corrupt) + {hash}, servable := v.servable - {hash})
  }

  /** A failed computation is remembered; at capacity those past the cooldown go first. */
  function MarkFailed(v: Server, hash: string, now: nat): Server {
    var kept := if |v.failedAt| >= BAD_CAPACITY
                then map h | h in v.failedAt && now < v.failedAt[h] + BACKFILL_COOLDOWN :: v.failedAt[h]
                else v.failedAt;
    v.(failedAt := kept[hash := now])
  }

  function Remember(v: Server, hash: string, servable: Servable): Server {
    v.(servable := (if |v.servable| >= SIZES_CAPACITY then map[] else v.servable)[hash := servable])
  }

  function SetCheck(v: Server, c: nat, phase: CheckPhase): Server
    requires c in v.checks
  {
    v.(checks := v.checks[c := v.checks[c].(phase := phase)])
  }

  function SetTask(v: Server, t: nat, phase: TaskPhase): Server
    requires t in v.tasks
  {
    v.(tasks := v.tasks[t := v.tasks[t].(phase := phase)])
  }

  // ---- Steps of a check -----------------------------------------------------------------------

  function Start(v: Server, c: nat, hash: string): Server {
    if c in v.checks then v
    else
      var phase := if hash in v.corrupt then Ended(Gone)
                   else if hash in v.servable then Ended(Serve(v.servable[hash]))
                   else AskBlob;
      v.(checks := v.checks[c := Check(hash, phase)])
  }

  function HeadData(v: Server, b: Bucket, c: nat): Server
    requires c in v.checks
  {
    var check := v.checks[c];
    if check.phase.AskBlob? then
      var key := Key(Blob, check.hash);
      SetCheck(v, c, if key in b.data then Found(Servable(|b.data[key]|, Blob)) else AskDocument)
    else if check.phase.AskDocument? then
      var key := Key(Document, check.hash);
      SetCheck(v, c, if key in b.data then Found(Servable(|b.data[key]|, Document)) else Ended(Gone))
    else v
  }

  function HeadOutboard(v: Server, b: Bucket, c: nat): Server
    requires c in v.checks
  {
    var check := v.checks[c];
    if !check.phase.Found? then v
    else
      var servable := check.phase.servable;
      var key, expected := Key(servable.kind, check.hash), OutboardSize(servable.size);
      if expected == 0 || (key in b.outboards && |b.outboards[key].data| == expected)
      then SetCheck(Remember(v, check.hash, servable), c, Ended(Serve(servable)))
      else SetCheck(v, c, Missing(servable))
  }

  /** `backfill`: the cooldown, then a permit, then the set of running hashes. */
  function Backfill(v: Server, now: nat, c: nat, t: nat): Server
    requires c in v.checks
  {
    var hash, phase := v.checks[c].hash, v.checks[c].phase;
    if phase.Missing? then
      SetCheck(v, c, if hash in v.failedAt && now < v.failedAt[hash] + BACKFILL_COOLDOWN then Ended(Busy)
                     else Warm(phase.servable))
    else if phase.Warm? then
      if v.permits <= 0 then SetCheck(v, c, Ended(Busy))
      else SetCheck(v, c, Holding(phase.servable)).(permits := v.permits - 1)
    else if phase.Holding? then
      if hash in v.backfilling then SetCheck(v, c, Ended(Busy)).(permits := v.permits + 1)
      else if t in v.tasks then v
      else SetCheck(v, c, Ended(Busy)).(backfilling := v.backfilling + {hash},
                                        tasks := v.tasks[t := Task(hash, phase.servable, Computing)])
    else v
  }

  // ---- Steps of a computation -----------------------------------------------------------------

  /** The object is streamed (`None`: a read failed); a root other than the hash stores nothing. */
  function Compute(d: Digest, v: Server, t: nat, read: Option<Bytes>): Server
    requires t in v.tasks
  {
    if !v.tasks[t].phase.Computing? then v
    else if read.None? then SetTask(v, t, Broken)
    else
      var outboard := ComputeOutboard(d, read.value, v.tasks[t].hash);
      SetTask(v, t, if outboard.Some? then Storing(outboard.value) else Mismatch)
  }

  /** The end of a computation: what it found is recorded, the hash leaves the set, the permit is released. */
  function Wind(v: Server, now: nat, t: nat): Server
    requires t in v.tasks
  {
    var hash := v.tasks[t].hash;
    match v.tasks[t].phase
    case Mismatch => SetTask(MarkCorrupt(v, hash), t, Finished)
    case Broken => SetTask(MarkFailed(v, hash, now), t, Finished)
    case Finished => SetTask(v, t, Releasing).(backfilling := v.backfilling - {hash})
    case Releasing => v.(tasks := v.tasks - {t}, permits := v.permits + 1)
    case _ => v
  }

  // ---- The protocol ---------------------------------------------------------------------------

  /** What became of a write: done, refused, or done and reported as failed. */
  datatype Fate = Done | Refused | DoneThenError

  datatype Step =
    | Tick(elapsed: nat)
    | BeginUpload(u: nat, hash: string, bytes: Bytes)
    | UploadCall(u: nat, fate: Fate)
    | StopUpload(u: nat)
    | StartCheck(c: nat, hash: string)
    | HeadDataOf(c: nat, failed: bool)
    | HeadOutboardOf(c: nat, failed: bool)
    | BackfillFor(c: nat, t: nat)
    | ComputeFor(t: nat, read: Option<Bytes>)
    | StoreFor(t: nat, fate: Fate)
    | WindUp(t: nat)
    | ServeMismatch(hash: string)
    | Forget(hash: string)
    | Restart
    | PutDocument(bytes: Bytes)
    | PutDocumentOutboard(bytes: Bytes)
    | Tamper(key: Key, contents: Option<Bytes>)

  function PutOutboard(b: Bucket, key: Key, outboard: Outboard): Bucket {
    b.(outboards := b.outboards[key := outboard])
  }

  /** One storage call of `upload`: the outboard always, the blob unless it is already there. A failed call starts
      the next attempt, up to two retries. */
  function DoUploadCall(d: Digest, s: State, u: nat, fate: Fate): State
    requires u in s.uploads
  {
    var up := s.uploads[u];
    var key := Key(Blob, d.hash(up.bytes));
    var again := if up.retries < 2 then up.(phase := Validated, retries := up.retries + 1) else up.(phase := Failed);
    match up.phase
    case Validated =>
      var bucket := if fate.Refused? then s.bucket else PutOutboard(s.bucket, key, d.outboard(up.bytes));
      s.(bucket := bucket, uploads := s.uploads[u := if fate.Done? then up.(phase := WroteOutboard) else again])
    case WroteOutboard =>
      if !fate.Done? then s.(uploads := s.uploads[u := again])
      else s.(uploads := s.uploads[u := up.(phase := if key in s.bucket.data then Stored else Absent)])
    case Absent =>
      var bucket := if fate.Refused? then s.bucket else s.bucket.(data := s.bucket.data[key := up.bytes]);
      s.(bucket := bucket, uploads := s.uploads[u := if fate.Done? then up.(phase := Stored) else again])
    case _ => s
  }

  function DoStore(s: State, t: nat, fate: Fate): State
    requires t in s.server.tasks
  {
    var task := s.server.tasks[t];
    if !task.phase.Storing? then s
    else
      var bucket := if fate.Refused? then s.bucket
                    else PutOutboard(s.bucket, Key(task.servable.kind, task.hash), task.phase.outboard);
      s.(bucket := bucket, server := SetTask(s.server, t, if fate.Done? then Finished else Broken))
  }

  function Apply(d: Digest, s: State, step: Step): State {
    var v := s.server;
    match step
    case Tick(elapsed) => s.(now := s.now + elapsed)
    case BeginUpload(u, hash, bytes) =>
      // `validate_from_store` keeps only bytes whose outboard has the pushed hash as its root.
      if u in s.uploads || ComputeOutboard(d, bytes, hash).None? then s
      else s.(uploads := s.uploads[u := Upload(bytes, Validated, 0)])
    case UploadCall(u, fate) => if u in s.uploads then DoUploadCall(d, s, u, fate) else s
    case StopUpload(u) => s.(uploads := s.uploads - {u})
    case StartCheck(c, hash) => s.(server := Start(v, c, hash))
    case HeadDataOf(c, failed) =>
      if c !in v.checks then s
      else if !failed then s.(server := HeadData(v, s.bucket, c))
      else if v.checks[c].phase.AskBlob? || v.checks[c].phase.AskDocument?
      then s.(server := SetCheck(v, c, Ended(Busy))) else s
    case HeadOutboardOf(c, failed) =>
      if c !in v.checks then s
      else if !failed then s.(server := HeadOutboard(v, s.bucket, c))
      else if v.checks[c].phase.Found? then s.(server := SetCheck(v, c, Ended(Busy))) else s
    case BackfillFor(c, t) => if c in v.checks then s.(server := Backfill(v, s.now, c, t)) else s
    case ComputeFor(t, read) => if t in v.tasks then s.(server := Compute(d, v, t, read)) else s
    case StoreFor(t, fate) => if t in v.tasks then DoStore(s, t, fate) else s
    case WindUp(t) => if t in v.tasks then s.(server := Wind(v, s.now, t)) else s
    case ServeMismatch(hash) => s.(server := MarkCorrupt(v, hash))
    case Forget(hash) => s.(server := v.(servable := v.servable - {hash}))
    case Restart => s.(server := FRESH)
    // A catalog publish on this or another node: the document, then its outboard.
    case PutDocument(bytes) =>
      s.(bucket := s.bucket.(data := s.bucket.data[Key(Document, d.hash(bytes)) := bytes]))
    case PutDocumentOutboard(bytes) =>
      s.(bucket := PutOutboard(s.bucket, Key(Document, d.hash(bytes)), d.outboard(bytes)))
    case Tamper(key, contents) =>
      var data := if contents.Some? then s.bucket.data[key := contents.value] else s.bucket.data - {key};
      s.(bucket := s.bucket.(data := data))
  }

  function After(d: Digest, s0: State, steps: seq<Step>): State {
    if steps == [] then s0 else Apply(d, After(d, s0, steps[..|steps| - 1]), steps[|steps| - 1])
  }

  /** A started node on any bucket. */
  predicate Init(s: State) {
    s.server == FRESH && s.uploads == map[]
  }
}
