/** What every run of ingest and serving keeps. */
module ServeSafety {
  import opened Wrappers
  import opened Bao
  import opened S3Serve

  // ---- Background computations ----------------------------------------------------------------

  /** A computation that has its hash in the running set. */
  predicate Active(tasks: map<nat, Task>, t: nat) {
    t in tasks && !tasks[t].phase.Releasing?
  }

  ghost function ActiveHashes(tasks: map<nat, Task>): set<string> {
    set t | Active(tasks, t) && t in tasks :: tasks[t].hash
  }

  ghost function HoldingChecks(checks: map<nat, Check>): set<nat> {
    set c | c in checks && checks[c].phase.Holding?
  }

  ghost predicate RunningInv(backfilling: set<string>, tasks: map<nat, Task>) {
    && backfilling == ActiveHashes(tasks)
    && (forall t, u :: Active(tasks, t) && Active(tasks, u) && t != u ==> tasks[t].hash != tasks[u].hash)
  }

  /** An outboard about to be stored has its computation's hash as its root. */
  ghost predicate StoringInv(tasks: map<nat, Task>) {
    forall t :: t in tasks && tasks[t].phase.Storing? ==> tasks[t].phase.outboard.root == tasks[t].hash
  }

  /** Every permit is free, held by a check that just took it, or held by a computation. */
  ghost predicate PermitInv(permits: int, checks: map<nat, Check>, running: nat) {
    permits >= 0 && permits + |HoldingChecks(checks)| + running == BACKFILLS
  }

  ghost predicate ServerInv(v: Server) {
    PermitInv(v.permits, v.checks, |v.tasks|) && RunningInv(v.backfilling, v.tasks) && StoringInv(v.tasks)
  }

  lemma HoldingOthers(checks: map<nat, Check>, c: nat)
    ensures |HoldingChecks(checks)| ==
            |HoldingChecks(checks - {c})| + if c in checks && checks[c].phase.Holding? then 1 else 0
  {
    var others := HoldingChecks(checks - {c});
    if c in checks && checks[c].phase.Holding? {
      assert HoldingChecks(checks) == others + {c};
    } else {
      assert HoldingChecks(checks) == others;
    }
  }

  lemma HoldingUpdated(checks: map<nat, Check>, c: nat, check: Check)
    ensures |HoldingChecks(checks[c := check])| + (if c in checks && checks[c].phase.Holding? then 1 else 0)
            == |HoldingChecks(checks)| + (if check.phase.Holding? then 1 else 0)
  {
    var after := checks[c := check];
    HoldingOthers(checks, c);
    HoldingOthers(after, c);
    assert after - {c} == checks - {c};
  }

  lemma TaskPhaseKeeps(v: Server, w: Server, t: nat)
    requires ServerInv(v) && Active(v.tasks, t) && w.checks == v.checks && w.permits == v.permits
    requires w.backfilling == v.backfilling
    requires t in w.tasks && w.tasks == v.tasks[t := v.tasks[t].(phase := w.tasks[t].phase)]
    requires !w.tasks[t].phase.Releasing?
    requires w.tasks[t].phase.Storing? ==> w.tasks[t].phase.outboard.root == v.tasks[t].hash
    ensures ServerInv(w)
  {
    assert w.tasks.Keys == v.tasks.Keys;
    assert forall u :: Active(w.tasks, u) <==> Active(v.tasks, u);
    assert forall u :: Active(v.tasks, u) ==> w.tasks[u].hash == v.tasks[u].hash;
    assert ActiveHashes(w.tasks) == ActiveHashes(v.tasks);
  }

  lemma CheckPhaseKeeps(v: Server, w: Server, c: nat, check: Check)
    requires ServerInv(v) && w.tasks == v.tasks && w.backfilling == v.backfilling && w.checks == v.checks[c := check]
    requires w.permits == v.permits + (if c in v.checks && v.checks[c].phase.Holding? then 1 else 0)
                          - (if check.phase.Holding? then 1 else 0)
    requires w.permits >= 0
    ensures ServerInv(w)
  {
    HoldingUpdated(v.checks, c, check);
  }

  lemma SpawnKeeps(v: Server, w: Server, c: nat, t: nat, task: Task)
    requires ServerInv(v) && c in v.checks && v.checks[c].phase.Holding? && t !in v.tasks
    requires task.phase.Computing? && task.hash !in v.backfilling
    requires w.checks == v.checks[c := v.checks[c].(phase := Ended(Busy))] && w.permits == v.permits
    requires w.tasks == v.tasks[t := task] && w.backfilling == v.backfilling + {task.hash}
    ensures ServerInv(w)
  {
    HoldingUpdated(v.checks, c, w.checks[c]);
    assert w.tasks.Keys == v.tasks.Keys + {t};
    ActiveAdded(v.backfilling, v.tasks, t, task);
  }

  lemma ActiveAdded(backfilling: set<string>, tasks: map<nat, Task>, t: nat, task: Task)
    requires RunningInv(backfilling, tasks) && t !in tasks && task.phase.Computing? && task.hash !in backfilling
    ensures RunningInv(backfilling + {task.hash}, tasks[t := task])
  {
    var after := tasks[t := task];
    assert forall u: nat :: Active(after, u) <==> Active(tasks, u) || u == t;
    assert forall u: nat :: Active(tasks, u) ==> after[u] == tasks[u] && tasks[u].hash in ActiveHashes(tasks);
    forall h ensures h in ActiveHashes(after) <==> h in ActiveHashes(tasks) || h == task.hash {
      if h in ActiveHashes(tasks) {
        var u: nat :| Active(tasks, u) && tasks[u].hash == h;
        assert Active(after, u);
      }
      if h == task.hash { assert Active(after, t) && after[t].hash == h; }
    }
  }

  lemma ClearKeeps(v: Server, t: nat)
    requires ServerInv(v) && t in v.tasks && v.tasks[t].phase.Finished?
    ensures ServerInv(SetTask(v, t, Releasing).(backfilling := v.backfilling - {v.tasks[t].hash}))
  {
    var w := SetTask(v, t, Releasing).(backfilling := v.backfilling - {v.tasks[t].hash});
    assert w.tasks.Keys == v.tasks.Keys && Active(v.tasks, t);
    assert forall u :: Active(w.tasks, u) <==> Active(v.tasks, u) && u != t;
    assert forall u :: Active(w.tasks, u) ==> w.tasks[u] == v.tasks[u] && w.tasks[u].hash != v.tasks[t].hash;
    assert ActiveHashes(w.tasks) == ActiveHashes(v.tasks) - {v.tasks[t].hash};
  }

  lemma ReleaseKeeps(v: Server, t: nat)
    requires ServerInv(v) && t in v.tasks && v.tasks[t].phase.Releasing?
    ensures ServerInv(v.(tasks := v.tasks - {t}, permits := v.permits + 1))
  {
    var w := v.(tasks := v.tasks - {t}, permits := v.permits + 1);
    assert w.tasks.Keys == v.tasks.Keys - {t};
    assert forall u :: Active(w.tasks, u) <==> Active(v.tasks, u);
    assert ActiveHashes(w.tasks) == ActiveHashes(v.tasks);
  }

  lemma WindKeeps(v: Server, now: nat, t: nat)
    requires ServerInv(v) && t in v.tasks
    ensures ServerInv(Wind(v, now, t))
  {
    match v.tasks[t].phase
    case Mismatch => TaskPhaseKeeps(v, Wind(v, now, t), t);
    case Broken => TaskPhaseKeeps(v, Wind(v, now, t), t);
    case Finished => ClearKeeps(v, t);
    case Releasing => ReleaseKeeps(v, t);
    case _ =>
  }

  lemma BackfillKeeps(v: Server, now: nat, c: nat, t: nat)
    requires ServerInv(v) && c in v.checks
    ensures ServerInv(Backfill(v, now, c, t))
  {
    var w, phase := Backfill(v, now, c, t), v.checks[c].phase;
    if phase.Holding? && v.checks[c].hash !in v.backfilling {
      if t !in v.tasks { SpawnKeeps(v, w, c, t, w.tasks[t]); }
    } else if w != v {
      CheckPhaseKeeps(v, w, c, w.checks[c]);
    }
  }

  lemma StartKeeps(v: Server, c: nat, hash: string)
    requires ServerInv(v)
    ensures ServerInv(Start(v, c, hash))
  {
    if c !in v.checks { CheckPhaseKeeps(v, Start(v, c, hash), c, Start(v, c, hash).checks[c]); }
  }

  lemma BusyKeeps(v: Server, c: nat)
    requires ServerInv(v) && c in v.checks && !v.checks[c].phase.Holding?
    ensures ServerInv(SetCheck(v, c, Ended(Busy)))
  {
    CheckPhaseKeeps(v, SetCheck(v, c, Ended(Busy)), c, v.checks[c].(phase := Ended(Busy)));
  }

  lemma HeadDataKeeps(v: Server, b: Bucket, c: nat)
    requires ServerInv(v) && c in v.checks
    ensures ServerInv(HeadData(v, b, c))
  {
    var w := HeadData(v, b, c);
    if w != v { CheckPhaseKeeps(v, w, c, w.checks[c]); }
  }

  lemma HeadOutboardKeeps(v: Server, b: Bucket, c: nat)
    requires ServerInv(v) && c in v.checks
    ensures ServerInv(HeadOutboard(v, b, c))
  {
    var w := HeadOutboard(v, b, c);
    if w != v { CheckPhaseKeeps(v, w, c, w.checks[c]); }
  }

  lemma ComputeKeeps(d: Digest, v: Server, t: nat, read: Option<Bytes>)
    requires ServerInv(v) && t in v.tasks
    ensures ServerInv(Compute(d, v, t, read))
  {
    var w := Compute(d, v, t, read);
    if w != v { TaskPhaseKeeps(v, w, t); }
  }

  lemma StoredKeeps(s: State, t: nat, fate: Fate)
    requires ServerInv(s.server) && t in s.server.tasks
    ensures ServerInv(DoStore(s, t, fate).server)
  {
    var w := DoStore(s, t, fate).server;
    if w != s.server { TaskPhaseKeeps(s.server, w, t); }
  }

  predicate LookupStep(step: Step) { step.StartCheck? || step.HeadDataOf? || step.HeadOutboardOf? || step.BackfillFor? }

  predicate TaskStep(step: Step) { step.ComputeFor? || step.StoreFor? || step.WindUp? }

  lemma LookupStepKeeps(d: Digest, s: State, step: Step)
    requires ServerInv(s.server) && LookupStep(step)
    ensures ServerInv(Apply(d, s, step).server)
  {
    hide ServerInv, Start, HeadData, HeadOutboard, Backfill, DoUploadCall, DoStore, Compute, Wind;
    var v := s.server;
    match step
    case StartCheck(c, hash) => StartKeeps(v, c, hash);
    case HeadDataOf(c, failed) =>
      if c in v.checks {
        HeadDataKeeps(v, s.bucket, c);
        if !v.checks[c].phase.Holding? { BusyKeeps(v, c); }
      }
    case HeadOutboardOf(c, failed) =>
      if c in v.checks {
        HeadOutboardKeeps(v, s.bucket, c);
        if !v.checks[c].phase.Holding? { BusyKeeps(v, c); }
      }
    case BackfillFor(c, t) => if c in v.checks { BackfillKeeps(v, s.now, c, t); }
  }

  lemma TaskStepKeeps(d: Digest, s: State, step: Step)
    requires ServerInv(s.server) && TaskStep(step)
    ensures ServerInv(Apply(d, s, step).server)
  {
    hide ServerInv, Start, HeadData, HeadOutboard, Backfill, DoUploadCall, DoStore, Compute, Wind;
    var v := s.server;
    match step
    case ComputeFor(t, read) => if t in v.tasks { ComputeKeeps(d, v, t, read); }
    case StoreFor(t, fate) => if t in v.tasks { StoredKeeps(s, t, fate); }
    case WindUp(t) => if t in v.tasks { WindKeeps(v, s.now, t); }
  }

  lemma UploadLeavesServer(d: Digest, s: State, u: nat, fate: Fate)
    requires u in s.uploads
    ensures DoUploadCall(d, s, u, fate).server == s.server
  {
  }

  lemma OtherStepKeeps(d: Digest, s: State, step: Step)
    requires ServerInv(s.server) && !LookupStep(step) && !TaskStep(step)
    ensures ServerInv(Apply(d, s, step).server)
  {
    hide Start, HeadData, HeadOutboard, Backfill, DoUploadCall, DoStore, Compute, Wind, RunningInv, StoringInv, PermitInv;
    if step.UploadCall? && step.u in s.uploads { UploadLeavesServer(d, s, step.u, step.fate); }
    if step.Restart? { FreshServer(); }
  }

  lemma ServerStepKeeps(d: Digest, s: State, step: Step)
    requires ServerInv(s.server)
    ensures ServerInv(Apply(d, s, step).server)
  {
    hide *;
    if LookupStep(step) { LookupStepKeeps(d, s, step); }
    else if TaskStep(step) { TaskStepKeeps(d, s, step); }
    else { OtherStepKeeps(d, s, step); }
  }

  lemma FreshServer()
    ensures ServerInv(FRESH)
  {
    assert ActiveHashes(FRESH.tasks) == {} && HoldingChecks(FRESH.checks) == {};
  }

  lemma {:induction false} ServerReachable(d: Digest, s0: State, steps: seq<Step>)
    requires Init(s0)
    ensures ServerInv(After(d, s0, steps).server)
  {
    if steps == [] {
      FreshServer();
    } else {
      ServerReachable(d, s0, steps[..|steps| - 1]);
      ServerStepKeeps(d, After(d, s0, steps[..|steps| - 1]), steps[|steps| - 1]);
    }
  }

  /** In every run at most two computations are going on, at most one per hash, and the running set is exactly their
      hashes. */
  lemma AtMostTwoComputations(d: Digest, s0: State, steps: seq<Step>)
    requires Init(s0)
    ensures var v := After(d, s0, steps).server;
      && |v.tasks| <= BACKFILLS && v.backfilling == ActiveHashes(v.tasks)
      && forall t, u :: Active(v.tasks, t) && Active(v.tasks, u) && v.tasks[t].hash == v.tasks[u].hash ==> t == u
  {
    ServerReachable(d, s0, steps);
  }

  /** Whatever the bucket held and whoever changed its objects, an outboard the node writes has its key's hash as its
      root. */
  lemma WrittenOutboardsHaveTheirRoot(d: Digest, s0: State, steps: seq<Step>, step: Step, key: Key)
    requires Bao.Ideal(d) && Init(s0)
    requires var s := After(d, s0, steps); var t := Apply(d, s, step);
      key in t.bucket.outboards && !(key in s.bucket.outboards && s.bucket.outboards[key] == t.bucket.outboards[key])
    ensures Apply(d, After(d, s0, steps), step).bucket.outboards[key].root == key.hash
  {
    ServerReachable(d, s0, steps);
  }

  // ---- Corrupt objects ------------------------------------------------------------------------

  /** A step that clears the corrupt set: marking at capacity, or a restart. */
  predicate Clears(s: State, step: Step) {
    || step.Restart?
    || (|s.server.corrupt| >= BAD_CAPACITY
        && (step.ServeMismatch?
            || (step.WindUp? && step.t in s.server.tasks && s.server.tasks[step.t].phase.Mismatch?)))
  }

  lemma CorruptStays(d: Digest, s: State, step: Step, hash: string)
    requires hash in s.server.corrupt && !Clears(s, step)
    ensures hash in Apply(d, s, step).server.corrupt
  {
  }

  /** Every check that starts after a hash was marked corrupt is refused as gone, until the set is cleared. */
  lemma {:induction false} CorruptIsGone(d: Digest, s0: State, steps: seq<Step>, i: nat, hash: string, c: nat)
    requires i <= |steps| && hash in After(d, s0, steps[..i]).server.corrupt
    requires forall k :: i <= k < |steps| ==> !Clears(After(d, s0, steps[..k]), steps[k])
    requires c !in After(d, s0, steps).server.checks
    ensures hash in After(d, s0, steps).server.corrupt
    ensures Apply(d, After(d, s0, steps), StartCheck(c, hash)).server.checks[c].phase == Ended(Gone)
  {
    StaysCorrupt(d, s0, steps, i, |steps|, hash);
    assert steps[..|steps|] == steps;
  }

  lemma {:induction false} StaysCorrupt(d: Digest, s0: State, steps: seq<Step>, i: nat, j: nat, hash: string)
    requires i <= j <= |steps| && hash in After(d, s0, steps[..i]).server.corrupt
    requires forall k :: i <= k < j ==> !Clears(After(d, s0, steps[..k]), steps[k])
    ensures hash in After(d, s0, steps[..j]).server.corrupt
    decreases j
  {
    if i < j {
      StaysCorrupt(d, s0, steps, i, j - 1, hash);
      assert steps[..j][..j - 1] == steps[..j - 1];
      CorruptStays(d, After(d, s0, steps[..j - 1]), steps[j - 1], hash);
    }
  }

  // ---- A bucket where every blob has its outboard ---------------------------------------------

  /** Every blob matches its hash and has its outboard. */
  ghost predicate Sound(d: Digest, b: Bucket) {
    forall key :: key in b.data && key.kind == Blob ==>
      && d.hash(b.data[key]) == key.hash
      && key in b.outboards && b.outboards[key] == d.outboard(b.data[key])
  }

  /** Once an upload wrote its outboard it stays. */
  ghost predicate UploadsOk(d: Digest, b: Bucket, uploads: map<nat, Upload>) {
    forall u :: u in uploads && (uploads[u].phase.WroteOutboard? || uploads[u].phase.Absent?) ==>
      var key := Key(Blob, d.hash(uploads[u].bytes));
      key in b.outboards && b.outboards[key] == d.outboard(uploads[u].bytes)
  }

  /** What is said of a blob is so: it is in the bucket, at that size. */
  ghost predicate AtSize(b: Bucket, hash: string, servable: Servable) {
    servable.kind == Blob ==> Key(Blob, hash) in b.data && |b.data[Key(Blob, hash)]| == servable.size
  }

  /** A check that found or serves a blob describes it, and none is looking for a blob's outboard. */
  ghost predicate CheckOk(b: Bucket, check: Check) {
    match check.phase
    case Found(servable) => AtSize(b, check.hash, servable)
    case Missing(servable) => servable.kind == Document
    case Warm(servable) => servable.kind == Document
    case Holding(servable) => servable.kind == Document
    case Ended(Serve(servable)) => AtSize(b, check.hash, servable)
    case _ => true
  }

  ghost predicate ChecksOk(b: Bucket, checks: map<nat, Check>) {
    forall c :: c in checks ==> CheckOk(b, checks[c])
  }

  ghost predicate TasksOk(tasks: map<nat, Task>) {
    forall t :: t in tasks ==> tasks[t].servable.kind == Document
  }

  ghost predicate CacheOk(b: Bucket, cache: map<string, Servable>) {
    forall hash :: hash in cache ==> AtSize(b, hash, cache[hash])
  }

  ghost predicate ServingOk(b: Bucket, v: Server) {
    ChecksOk(b, v.checks) && TasksOk(v.tasks) && CacheOk(b, v.servable)
  }

  ghost predicate BucketInv(d: Digest, s: State) {
    Sound(d, s.bucket) && UploadsOk(d, s.bucket, s.uploads) && ServingOk(s.bucket, s.server)
  }

  /** Blobs and what uploads rely on survive. */
  ghost predicate Keeps(d: Digest, b: Bucket, e: Bucket) {
    && (forall key :: key in b.data && key.kind == Blob ==> key in e.data && e.data[key] == b.data[key])
    && (forall x :: Key(Blob, d.hash(x)) in b.outboards && b.outboards[Key(Blob, d.hash(x))] == d.outboard(x) ==>
          Key(Blob, d.hash(x)) in e.outboards && e.outboards[Key(Blob, d.hash(x))] == d.outboard(x))
  }

  lemma KeepsServing(d: Digest, b: Bucket, e: Bucket, v: Server)
    requires Keeps(d, b, e) && ServingOk(b, v)
    ensures ServingOk(e, v)
  {
    forall c | c in v.checks ensures CheckOk(e, v.checks[c]) { assert CheckOk(b, v.checks[c]); }
    forall h | h in v.servable ensures AtSize(e, h, v.servable[h]) { assert AtSize(b, h, v.servable[h]); }
  }

  lemma KeepsUploads(d: Digest, b: Bucket, e: Bucket, uploads: map<nat, Upload>)
    requires Keeps(d, b, e) && UploadsOk(d, b, uploads)
    ensures UploadsOk(d, e, uploads)
  {
  }

  /** Writing a blob's outboard, or a blob whose outboard is there, under the bytes' own hash. */
  lemma WriteKeepsSound(d: Digest, b: Bucket, x: Bytes)
    requires Bao.Ideal(d) && Sound(d, b)
    ensures var key := Key(Blob, d.hash(x));
      && (var e := PutOutboard(b, key, d.outboard(x)); Sound(d, e) && Keeps(d, b, e))
      && (key in b.outboards && b.outboards[key] == d.outboard(x) ==>
            var e := b.(data := b.data[key := x]); Sound(d, e) && Keeps(d, b, e))
  {
  }

  /** What one call of an upload does to the bucket keeps it sound, and loses nothing. */
  lemma UploadKeepsBucket(d: Digest, s: State, u: nat, fate: Fate)
    requires Bao.Ideal(d) && Sound(d, s.bucket) && UploadsOk(d, s.bucket, s.uploads) && u in s.uploads
    ensures var e := DoUploadCall(d, s, u, fate).bucket; Sound(d, e) && Keeps(d, s.bucket, e)
  {
    hide Sound, Keeps;
    SameBucket(d, s.bucket);
    WriteKeepsSound(d, s.bucket, s.uploads[u].bytes);
  }

  lemma SameBucket(d: Digest, b: Bucket)
    ensures Keeps(d, b, b)
  {
  }

  /** An upload gets past writing its outboard only when the outboard is there. */
  lemma UploadGoesOn(d: Digest, s: State, u: nat, fate: Fate)
    requires u in s.uploads && UploadsOk(d, s.bucket, s.uploads)
    requires var t := DoUploadCall(d, s, u, fate); UploadsOk(d, t.bucket, s.uploads)
    ensures var t := DoUploadCall(d, s, u, fate); UploadsOk(d, t.bucket, t.uploads) && t.server == s.server
  {
    var t := DoUploadCall(d, s, u, fate);
    forall w | w in t.uploads && (t.uploads[w].phase.WroteOutboard? || t.uploads[w].phase.Absent?)
      ensures var key := Key(Blob, d.hash(t.uploads[w].bytes));
        key in t.bucket.outboards && t.bucket.outboards[key] == d.outboard(t.uploads[w].bytes)
    {
    }
  }

  lemma UploadKeeps(d: Digest, s: State, u: nat, fate: Fate)
    requires Bao.Ideal(d) && BucketInv(d, s) && u in s.uploads
    ensures BucketInv(d, DoUploadCall(d, s, u, fate))
  {
    hide Sound, Keeps, UploadsOk, ServingOk, DoUploadCall;
    var e := DoUploadCall(d, s, u, fate).bucket;
    UploadKeepsBucket(d, s, u, fate);
    KeepsUploads(d, s.bucket, e, s.uploads);
    UploadGoesOn(d, s, u, fate);
    KeepsServing(d, s.bucket, e, s.server);
  }

  lemma TaskUpdated(tasks: map<nat, Task>, t: nat, phase: TaskPhase)
    requires TasksOk(tasks) && t in tasks
    ensures TasksOk(tasks[t := tasks[t].(phase := phase)]) && TasksOk(tasks - {t})
  {
    var after := tasks[t := tasks[t].(phase := phase)];
    assert forall u :: u in after ==> u in tasks && after[u].servable == tasks[u].servable;
  }

  /** A change to documents and their outboards alone. */
  lemma DocumentsKeep(d: Digest, s: State, e: Bucket)
    requires BucketInv(d, s)
    requires forall key: Key :: key.kind == Blob ==>
      && (key in e.data <==> key in s.bucket.data) && (key in e.data ==> e.data[key] == s.bucket.data[key])
      && (key in e.outboards <==> key in s.bucket.outboards)
      && (key in e.outboards ==> e.outboards[key] == s.bucket.outboards[key])
    ensures BucketInv(d, s.(bucket := e))
  {
    hide ServingOk;
    assert Keeps(d, s.bucket, e);
    KeepsServing(d, s.bucket, e, s.server);
    KeepsUploads(d, s.bucket, e, s.uploads);
  }

  lemma StoreKeeps(d: Digest, s: State, t: nat, fate: Fate)
    requires BucketInv(d, s) && t in s.server.tasks
    ensures BucketInv(d, DoStore(s, t, fate))
  {
    hide Sound, UploadsOk, ChecksOk, CacheOk;
    var u := DoStore(s, t, fate);
    DocumentsKeep(d, s, u.bucket);
    TaskUpdated(s.server.tasks, t, u.server.tasks[t].phase);
  }

  lemma CheckUpdated(b: Bucket, checks: map<nat, Check>, c: nat, check: Check)
    requires ChecksOk(b, checks) && CheckOk(b, check)
    ensures ChecksOk(b, checks[c := check])
  {
  }

  /** In a sound bucket the outboard of a blob that was found is there at the expected size. */
  lemma FoundBlobHasOutboard(d: Digest, b: Bucket, v: Server, c: nat)
    requires Bao.Ideal(d) && Sound(d, b) && c in v.checks && CheckOk(b, v.checks[c])
    ensures var w := HeadOutboard(v, b, c);
      && CheckOk(b, w.checks[c])
      && (v.checks[c].phase.Found? && v.checks[c].phase.servable.kind == Blob ==>
            w.checks[c].phase == Ended(Serve(v.checks[c].phase.servable)))
  {
  }

  lemma StartServes(b: Bucket, v: Server, c: nat, hash: string)
    requires ServingOk(b, v)
    ensures ServingOk(b, Start(v, c, hash))
  {
    var w := Start(v, c, hash);
    if c !in v.checks { CheckUpdated(b, v.checks, c, w.checks[c]); }
  }

  lemma BusyServes(b: Bucket, v: Server, c: nat)
    requires ServingOk(b, v) && c in v.checks
    ensures ServingOk(b, SetCheck(v, c, Ended(Busy)))
  {
    CheckUpdated(b, v.checks, c, v.checks[c].(phase := Ended(Busy)));
  }

  lemma HeadDataServes(b: Bucket, v: Server, c: nat)
    requires ServingOk(b, v) && c in v.checks
    ensures ServingOk(b, HeadData(v, b, c))
  {
    CheckUpdated(b, v.checks, c, HeadData(v, b, c).checks[c]);
  }

  lemma Remembered(b: Bucket, v: Server, hash: string, servable: Servable)
    requires CacheOk(b, v.servable) && AtSize(b, hash, servable)
    ensures CacheOk(b, Remember(v, hash, servable).servable)
  {
  }

  lemma HeadOutboardServes(d: Digest, b: Bucket, v: Server, c: nat)
    requires Bao.Ideal(d) && Sound(d, b) && ServingOk(b, v) && c in v.checks
    ensures ServingOk(b, HeadOutboard(v, b, c))
  {
    hide Bao.Ideal, Sound, ChecksOk, TasksOk, CacheOk, AtSize, OutboardSize;
    CheckIn(b, v, c);
    FoundBlobHasOutboard(d, b, v, c);
    CheckUpdated(b, v.checks, c, HeadOutboard(v, b, c).checks[c]);
    if v.checks[c].phase.Found? { Remembered(b, v, v.checks[c].hash, v.checks[c].phase.servable); }
  }

  lemma CheckIn(b: Bucket, v: Server, c: nat)
    requires ServingOk(b, v) && c in v.checks
    ensures CheckOk(b, v.checks[c])
  {
  }

  lemma BackfillServes(b: Bucket, v: Server, now: nat, c: nat, t: nat)
    requires ServingOk(b, v) && c in v.checks
    ensures ServingOk(b, Backfill(v, now, c, t))
  {
    hide ChecksOk, CacheOk, AtSize;
    CheckIn(b, v, c);
    CheckUpdated(b, v.checks, c, Backfill(v, now, c, t).checks[c]);
  }

  lemma ComputeServes(d: Digest, b: Bucket, v: Server, t: nat, read: Option<Bytes>)
    requires ServingOk(b, v) && t in v.tasks
    ensures ServingOk(b, Compute(d, v, t, read))
  {
    hide ChecksOk, CacheOk, TasksOk;
    TaskUpdated(v.tasks, t, Compute(d, v, t, read).tasks[t].phase);
  }

  lemma WindServes(b: Bucket, v: Server, now: nat, t: nat)
    requires ServingOk(b, v) && t in v.tasks
    ensures ServingOk(b, Wind(v, now, t))
  {
    hide ChecksOk, TasksOk;
    var w := Wind(v, now, t);
    TaskUpdated(v.tasks, t, if t in w.tasks then w.tasks[t].phase else Releasing);
  }

  lemma ForgetServes(b: Bucket, v: Server, hash: string)
    requires ServingOk(b, v)
    ensures ServingOk(b, v.(servable := v.servable - {hash})) && ServingOk(b, MarkCorrupt(v, hash))
  {
  }

  lemma BucketLookupKeeps(d: Digest, s: State, step: Step)
    requires Bao.Ideal(d) && BucketInv(d, s) && LookupStep(step)
    ensures BucketInv(d, Apply(d, s, step))
  {
    hide Bao.Ideal, Sound, UploadsOk, ServingOk, Start, HeadData, HeadOutboard, Backfill, DoUploadCall, DoStore, Compute, Wind;
    var v := s.server;
    match step
    case StartCheck(c, hash) => StartServes(s.bucket, v, c, hash);
    case HeadDataOf(c, failed) =>
      if c in v.checks {
        HeadDataServes(s.bucket, v, c);
        BusyServes(s.bucket, v, c);
      }
    case HeadOutboardOf(c, failed) =>
      if c in v.checks {
        HeadOutboardServes(d, s.bucket, v, c);
        BusyServes(s.bucket, v, c);
      }
    case BackfillFor(c, t) => if c in v.checks { BackfillServes(s.bucket, v, s.now, c, t); }
  }

  lemma BucketTaskKeeps(d: Digest, s: State, step: Step)
    requires BucketInv(d, s) && TaskStep(step)
    ensures BucketInv(d, Apply(d, s, step))
  {
    hide Sound, UploadsOk, ServingOk, Start, HeadData, HeadOutboard, Backfill, DoUploadCall, DoStore, Compute, Wind;
    var v := s.server;
    match step
    case ComputeFor(t, read) => if t in v.tasks { ComputeServes(d, s.bucket, v, t, read); }
    case StoreFor(t, fate) => if t in v.tasks { StoreKeeps(d, s, t, fate); }
    case WindUp(t) => if t in v.tasks { WindServes(s.bucket, v, s.now, t); }
  }

  lemma UploadsChange(d: Digest, s: State, step: Step)
    requires BucketInv(d, s) && (step.BeginUpload? || step.StopUpload?)
    ensures BucketInv(d, Apply(d, s, step))
  {
    hide Sound, ServingOk, ComputeOutboard, Start, HeadData, HeadOutboard, Backfill, DoUploadCall, DoStore, Compute, Wind;
  }

  lemma RestartServes(b: Bucket)
    ensures ServingOk(b, FRESH)
  {
  }

  lemma BucketOtherKeeps(d: Digest, s: State, step: Step)
    requires BucketInv(d, s) && (step.Tick? || step.ServeMismatch? || step.Forget? || step.Restart?)
    ensures BucketInv(d, Apply(d, s, step))
  {
    hide Sound, UploadsOk, ServingOk, MarkCorrupt, Start, HeadData, HeadOutboard, Backfill, DoUploadCall, DoStore, Compute, Wind;
    match step
    case Tick(_) =>
    case ServeMismatch(hash) => ForgetServes(s.bucket, s.server, hash);
    case Forget(hash) => ForgetServes(s.bucket, s.server, hash);
    case Restart => RestartServes(s.bucket);
  }

  lemma DocumentStepKeeps(d: Digest, s: State, step: Step)
    requires BucketInv(d, s)
    requires step.PutDocument? || step.PutDocumentOutboard? || (step.Tamper? && step.key.kind == Document)
    ensures BucketInv(d, Apply(d, s, step))
  {
    hide BucketInv, Start, HeadData, HeadOutboard, Backfill, DoUploadCall, DoStore, Compute, Wind;
    DocumentsKeep(d, s, Apply(d, s, step).bucket);
  }

  lemma BucketUploadKeeps(d: Digest, s: State, u: nat, fate: Fate)
    requires Bao.Ideal(d) && BucketInv(d, s)
    ensures BucketInv(d, Apply(d, s, UploadCall(u, fate)))
  {
    hide Bao.Ideal, BucketInv, DoUploadCall;
    if u in s.uploads { UploadKeeps(d, s, u, fate); }
  }

  /** The only changes to the bucket from outside are to documents. */
  predicate Outside(step: Step) { step.Tamper? && step.key.kind == Blob }

  lemma BucketStepKeeps(d: Digest, s: State, step: Step)
    requires Bao.Ideal(d) && BucketInv(d, s) && !Outside(step)
    ensures BucketInv(d, Apply(d, s, step))
  {
    hide Bao.Ideal, BucketInv, Apply;
    match step
    case UploadCall(u, fate) => BucketUploadKeeps(d, s, u, fate);
    case BeginUpload(_, _, _) => UploadsChange(d, s, step);
    case StopUpload(_) => UploadsChange(d, s, step);
    case PutDocument(_) => DocumentStepKeeps(d, s, step);
    case PutDocumentOutboard(_) => DocumentStepKeeps(d, s, step);
    case Tamper(_, _) => DocumentStepKeeps(d, s, step);
    case ComputeFor(_, _) => BucketTaskKeeps(d, s, step);
    case StoreFor(_, _) => BucketTaskKeeps(d, s, step);
    case WindUp(_) => BucketTaskKeeps(d, s, step);
    case Tick(_) => BucketOtherKeeps(d, s, step);
    case ServeMismatch(_) => BucketOtherKeeps(d, s, step);
    case Forget(_) => BucketOtherKeeps(d, s, step);
    case Restart => BucketOtherKeeps(d, s, step);
    case _ => BucketLookupKeeps(d, s, step);
  }

  /** No blob is changed behind the node's back; documents may be. */
  ghost predicate BlobsUntouched(steps: seq<Step>) {
    forall i :: 0 <= i < |steps| ==> !Outside(steps[i])
  }

  /** From a sound bucket, every interleaving of uploads of any hashes, checks, computations and catalog publishes, with
      failed calls, retries and stops, and whatever happens to documents, keeps it sound. */
  lemma {:induction false} BucketStaysSound(d: Digest, s0: State, steps: seq<Step>)
    requires Bao.Ideal(d) && Init(s0) && Sound(d, s0.bucket) && BlobsUntouched(steps)
    ensures BucketInv(d, After(d, s0, steps))
  {
    hide Bao.Ideal, Sound, Apply;
    if steps != [] {
      BucketStaysSound(d, s0, steps[..|steps| - 1]);
      BucketStepKeeps(d, After(d, s0, steps[..|steps| - 1]), steps[|steps| - 1]);
    }
  }

  /** The blob of a hash is stored, at the stated size, with its outboard. */
  ghost predicate Stands(d: Digest, b: Bucket, hash: string, servable: Servable) {
    servable.kind == Blob ==>
      var key := Key(Blob, hash);
      && key in b.data && d.hash(b.data[key]) == hash && |b.data[key]| == servable.size
      && key in b.outboards && b.outboards[key] == d.outboard(b.data[key])
  }

  lemma AtSizeStands(d: Digest, b: Bucket, hash: string, servable: Servable)
    requires Sound(d, b) && AtSize(b, hash, servable)
    ensures Stands(d, b, hash, servable)
  {
  }

  /** So every blob a check serves, or the node remembers as servable, is in the bucket at that size with its outboard,
      and its bytes have that hash. */
  lemma ServedBlobsStand(d: Digest, s0: State, steps: seq<Step>)
    requires Bao.Ideal(d) && Init(s0) && Sound(d, s0.bucket) && BlobsUntouched(steps)
    ensures var s := After(d, s0, steps);
      && (forall c :: c in s.server.checks && s.server.checks[c].phase.Ended? && s.server.checks[c].phase.reply.Serve? ==>
            Stands(d, s.bucket, s.server.checks[c].hash, s.server.checks[c].phase.reply.servable))
      && (forall hash :: hash in s.server.servable ==> Stands(d, s.bucket, hash, s.server.servable[hash]))
  {
    hide Bao.Ideal, Sound, Apply, Init, AtSize, Stands;
    BucketStaysSound(d, s0, steps);
    var s := After(d, s0, steps);
    forall c | c in s.server.checks && s.server.checks[c].phase.Ended? && s.server.checks[c].phase.reply.Serve?
      ensures Stands(d, s.bucket, s.server.checks[c].hash, s.server.checks[c].phase.reply.servable)
    {
      assert CheckOk(s.bucket, s.server.checks[c]);
      AtSizeStands(d, s.bucket, s.server.checks[c].hash, s.server.checks[c].phase.reply.servable);
    }
    forall hash | hash in s.server.servable ensures Stands(d, s.bucket, hash, s.server.servable[hash]) {
      AtSizeStands(d, s.bucket, hash, s.server.servable[hash]);
    }
  }

  /** So once a check's blob lookup succeeded, it can only succeed when the store answers: it serves the blob at its
      size, and no computation is ever started for a blob. */
  lemma FoundBlobIsServed(d: Digest, s0: State, steps: seq<Step>, c: nat)
    requires Bao.Ideal(d) && Init(s0) && Sound(d, s0.bucket) && BlobsUntouched(steps)
    ensures var s := After(d, s0, steps);
      && (c in s.server.checks && s.server.checks[c].phase.Found? && s.server.checks[c].phase.servable.kind == Blob ==>
            var key := Key(Blob, s.server.checks[c].hash);
            && key in s.bucket.data && |s.bucket.data[key]| == s.server.checks[c].phase.servable.size
            && HeadOutboard(s.server, s.bucket, c).checks[c].phase == Ended(Serve(s.server.checks[c].phase.servable)))
      && (forall t :: t in s.server.tasks ==> s.server.tasks[t].servable.kind != Blob)
  {
    hide Bao.Ideal, Sound, Apply, Init, HeadOutboard;
    BucketStaysSound(d, s0, steps);
    var s := After(d, s0, steps);
    if c in s.server.checks {
      assert CheckOk(s.bucket, s.server.checks[c]);
      FoundBlobHasOutboard(d, s.bucket, s.server, c);
    }
  }
}
