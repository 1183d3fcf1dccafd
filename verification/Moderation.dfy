/** Moderation records on one node: suspensions, blocks and catalog blocks written to the store behind an audit trail,
    and the in-memory view that decisions are made from.

    Handlers run one at a time. Any storage call may fail, and a failed write may have taken effect. */
module Moderation {
  import opened Wrappers

  datatype Kind = Suspensions | Blocks | CatalogBlocks

  /** A subject or a hash, under one kind of record. */
  datatype Key = Key(kind: Kind, id: string)

  datatype Record = Record(
    id: string, reason: string, reportId: Option<string>, hideCatalog: bool, operator: string, at: nat,
    liftedBy: Option<string>, liftedAt: Option<nat>)

  /** A stored object; what does not parse is skipped when listing. */
  datatype Stored = Readable(record: Record) | Unreadable

  datatype Event = Event(action: string, record: Record)

  datatype AuditKey = AuditKey(key: Key, nanos: nat)

  /** What became of a storage call: done, refused, or done and reported as failed. */
  datatype Fate = Done | Refused | LostAck

  // ---- Operations on values -------------------------------------------------------------------

  /** The node's view, and the store's current records and audit trail. */
  datatype World = World(view: map<Key, Record>, records: map<Key, Stored>, audit: map<AuditKey, Event>)

  /** What the view should show for a record: a lifted one is gone. */
  function Effect(record: Record): Option<Record> {
    if record.liftedAt.Some? then None else Some(record)
  }

  function Applied(view: map<Key, Record>, key: Key, record: Record): map<Key, Record> {
    if record.liftedAt.Some? then view - {key} else view[key := record]
  }

  function Lifted(record: Record, operator: string, at: nat): Record {
    record.(liftedBy := Some(operator), liftedAt := Some(at))
  }

  function Audited(w: World, key: Key, event: Event, nanos: nat, fate: Fate): World {
    if fate.Refused? then w else w.(audit := w.audit[AuditKey(key, nanos) := event])
  }

  /** Audit event, then record, then view; each only when the one before was acknowledged. */
  function Changed(w: World, key: Key, event: Event, nanos: nat, audit: Fate, write: Fate): World {
    var a := Audited(w, key, event, nanos, audit);
    if !audit.Done? then a
    else
      var b := if write.Refused? then a else a.(records := a.records[key := Readable(event.record)]);
      if !write.Done? then b else b.(view := Applied(b.view, key, event.record))
  }

  function Current(records: map<Key, Stored>, key: Key): Option<Record> {
    if key in records && records[key].Readable? then Effect(records[key].record) else None
  }

  function Shown(view: map<Key, Record>, key: Key): Option<Record> { if key in view then Some(view[key]) else None }

  /** The unlifted records of the store. */
  function Unlifted(records: map<Key, Stored>): map<Key, Record> {
    map k | k in records && Current(records, k).Some? :: Current(records, k).value
  }

  datatype Op =
    | Impose(key: Key, record: Record, nanos: nat, audit: Fate, write: Fate)
    | Lift(key: Key, operator: string, at: nat, nanos: nat, audit: Fate, write: Fate)
    | Reload(listed: bool)

  function ImposeAction(kind: Kind): string {
    match kind
    case Suspensions => "suspend"
    case Blocks => "block"
    case CatalogBlocks => "block_catalog"
  }

  function LiftAction(kind: Kind): string {
    match kind
    case Suspensions => "lift_suspension"
    case Blocks => "lift_block"
    case CatalogBlocks => "lift_catalog_block"
  }

  /** The event an operation writes, if it gets as far as writing one: a lift needs an active record in the view. */
  function EventOf(w: World, op: Op): Option<Event> {
    match op
    case Impose(key, record, _, _, _) => Some(Event(ImposeAction(key.kind), record))
    case Lift(key, operator, at, _, _, _) =>
      if key in w.view then Some(Event(LiftAction(key.kind), Lifted(w.view[key], operator, at))) else None
    case Reload(_) => None
  }

  function Apply(w: World, op: Op): World {
    match op
    case Reload(listed) => if listed then w.(view := Unlifted(w.records)) else w
    case _ =>
      var event := EventOf(w, op);
      if event.None? then w else Changed(w, op.key, event.value, op.nanos, op.audit, op.write)
  }

  function After(w0: World, ops: seq<Op>): World {
    if ops == [] then w0 else Apply(After(w0, ops[..|ops| - 1]), ops[|ops| - 1])
  }

  // ---- The view and the store -----------------------------------------------------------------

  ghost predicate InStep(w: World) { w.view == Unlifted(w.records) }

  ghost predicate AgreesAt(w: World, key: Key) { Shown(w.view, key) == Current(w.records, key) }

  lemma InStepMeans(w: World)
    ensures InStep(w) <==> forall k :: AgreesAt(w, k)
  {
    if forall k :: AgreesAt(w, k) {
      forall k ensures k in w.view <==> k in Unlifted(w.records) { assert AgreesAt(w, k); }
      forall k | k in w.view ensures w.view[k] == Unlifted(w.records)[k] { assert AgreesAt(w, k); }
    }
  }

  /** A record write that took effect without being acknowledged, and whose effect the view does not already show. */
  ghost predicate LosesAWrite(w: World, op: Op) {
    && !op.Reload? && EventOf(w, op).Some? && op.audit.Done? && op.write.LostAck?
    && Shown(w.view, op.key) != Effect(EventOf(w, op).value.record)
  }

  lemma OthersUntouched(w: World, op: Op, key: Key)
    requires !op.Reload? && key != op.key
    ensures AgreesAt(Apply(w, op), key) <==> AgreesAt(w, key)
  {
  }

  lemma OwnKey(w: World, op: Op)
    requires !op.Reload? && AgreesAt(w, op.key)
    ensures AgreesAt(Apply(w, op), op.key) <==> !LosesAWrite(w, op)
  {
  }

  /** From a view in step, an operation leaves it in step exactly when it loses no write. */
  lemma StaysInStep(w: World, op: Op)
    requires InStep(w)
    ensures InStep(Apply(w, op)) <==> !LosesAWrite(w, op)
  {
    var u := Apply(w, op);
    InStepMeans(w);
    InStepMeans(u);
    if !op.Reload? {
      assert AgreesAt(w, op.key);
      OwnKey(w, op);
      forall k | k != op.key ensures AgreesAt(u, k) { assert AgreesAt(w, k); OthersUntouched(w, op, k); }
    }
  }

  lemma {:induction false} InStepAfter(w0: World, ops: seq<Op>)
    requires InStep(w0) && forall i :: 0 <= i < |ops| ==> !LosesAWrite(After(w0, ops[..i]), ops[i])
    ensures InStep(After(w0, ops))
  {
    if ops != [] {
      var n := |ops| - 1;
      var before := ops[..n];
      assert forall i :: 0 <= i < n ==> before[..i] == ops[..i] && before[i] == ops[i];
      InStepAfter(w0, before);
      assert !LosesAWrite(After(w0, ops[..n]), ops[n]);
      StaysInStep(After(w0, before), ops[n]);
    }
  }

  /** Over any run that starts in step, the view equals the unlifted records after every operation exactly when no
      operation loses a write. */
  lemma InStepThroughout(w0: World, ops: seq<Op>)
    requires InStep(w0)
    ensures (forall i :: 0 <= i <= |ops| ==> InStep(After(w0, ops[..i]))) <==>
            (forall i :: 0 <= i < |ops| ==> !LosesAWrite(After(w0, ops[..i]), ops[i]))
  {
    if forall i :: 0 <= i < |ops| ==> !LosesAWrite(After(w0, ops[..i]), ops[i]) {
      forall i | 0 <= i <= |ops| ensures InStep(After(w0, ops[..i])) {
        var before := ops[..i];
        assert forall j :: 0 <= j < i ==> before[..j] == ops[..j] && before[j] == ops[j];
        InStepAfter(w0, before);
      }
    }
    if forall i :: 0 <= i <= |ops| ==> InStep(After(w0, ops[..i])) {
      forall i | 0 <= i < |ops| ensures !LosesAWrite(After(w0, ops[..i]), ops[i]) {
        StepOfRun(w0, ops, i);
        assert InStep(After(w0, ops[..i + 1]));
        StaysInStep(After(w0, ops[..i]), ops[i]);
      }
    }
  }

  lemma StepOfRun(w0: World, ops: seq<Op>, i: nat)
    requires i < |ops|
    ensures After(w0, ops[..i + 1]) == Apply(After(w0, ops[..i]), ops[i])
  {
    assert ops[..i + 1][..i] == ops[..i];
  }

  /** The property is not unconditional: a lift whose write was applied and reported as failed leaves the subject
      suspended in the view and not in the store. */
  lemma LostLiftLeavesViewBehind(w: World, id: string, operator: string, at: nat, nanos: nat)
    requires InStep(w) && Key(Suspensions, id) in w.view
    ensures var key := Key(Suspensions, id);
      var u := Apply(w, Lift(key, operator, at, nanos, Done, LostAck));
      !InStep(u) && key in u.view && Current(u.records, key) == None
  {
    var key := Key(Suspensions, id);
    var op := Lift(key, operator, at, nanos, Done, LostAck);
    StaysInStep(w, op);
  }

  /** Keys whose last applied write was not acknowledged, with no reload since. */
  ghost function Unacknowledged(w0: World, ops: seq<Op>): set<Key> {
    if ops == [] then {}
    else
      var before, op := ops[..|ops| - 1], ops[|ops| - 1];
      var behind, w := Unacknowledged(w0, before), After(w0, before);
      match op
      case Reload(listed) => if listed then {} else behind
      case _ =>
        if EventOf(w, op).None? || !op.audit.Done? || op.write.Refused? then behind
        else if op.write.Done? then behind - {op.key}
        else behind + {op.key}
  }

  /** Whatever is lost, the view is wrong about nothing else. */
  lemma {:induction false} WrongOnlyWhereUnacknowledged(w0: World, ops: seq<Op>, key: Key)
    requires InStep(w0) && key !in Unacknowledged(w0, ops)
    ensures AgreesAt(After(w0, ops), key)
  {
    if ops != [] {
      var before, op := ops[..|ops| - 1], ops[|ops| - 1];
      if key !in Unacknowledged(w0, before) {
        WrongOnlyWhereUnacknowledged(w0, before, key);
        var w := After(w0, before);
        if !op.Reload? {
          if key == op.key { OwnKey(w, op); } else { OthersUntouched(w, op, key); }
        }
      }
    } else {
      InStepMeans(w0);
    }
  }

  // ---- The audit trail ------------------------------------------------------------------------

  /** Every current record is in an audit event for its key, with the same content. */
  ghost predicate OnRecord(w: World) {
    forall k :: k in w.records && w.records[k].Readable? ==>
      exists n :: AuditKey(k, n) in w.audit && w.audit[AuditKey(k, n)].record == w.records[k].record
  }

  /** The clock gave an operation a nanosecond that no event of its key has. */
  ghost predicate FreshTime(w: World, op: Op) {
    op.Reload? || AuditKey(op.key, op.nanos) !in w.audit
  }

  ghost predicate Extends(before: map<AuditKey, Event>, after: map<AuditKey, Event>) {
    forall a :: a in before ==> a in after && after[a] == before[a]
  }

  lemma AuditOnlyGrows(w: World, op: Op)
    requires FreshTime(w, op)
    ensures Extends(w.audit, Apply(w, op).audit)
  {
  }

  /** A record an operation put in the store was put in the audit trail first. */
  lemma WrittenAfterAudit(w: World, op: Op, key: Key)
    ensures var u := Apply(w, op);
      key in u.records && !(key in w.records && u.records[key] == w.records[key]) ==>
        && !op.Reload? && key == op.key && AuditKey(key, op.nanos) in u.audit && u.records[key].Readable?
        && u.audit[AuditKey(key, op.nanos)].record == u.records[key].record
  {
  }

  lemma StaysOnRecord(w: World, u: World, op: Op)
    requires OnRecord(w) && FreshTime(w, op) && u == Apply(w, op)
    ensures OnRecord(u) && Extends(w.audit, u.audit)
  {
    AuditOnlyGrows(w, op);
    forall k | k in u.records && u.records[k].Readable?
      ensures exists n :: AuditKey(k, n) in u.audit && u.audit[AuditKey(k, n)].record == u.records[k].record
    {
      WrittenAfterAudit(w, op, k);
      if k in w.records && u.records[k] == w.records[k] {
        var n :| AuditKey(k, n) in w.audit && w.audit[AuditKey(k, n)].record == w.records[k].record;
        assert AuditKey(k, n) in u.audit;
      }
    }
  }

  /** Over any run with distinct audit times, lost acknowledgements included, every current record is on record, and no
      audit event is ever changed. */
  lemma {:induction false} AlwaysOnRecord(w0: World, ops: seq<Op>)
    requires OnRecord(w0) && forall i :: 0 <= i < |ops| ==> FreshTime(After(w0, ops[..i]), ops[i])
    ensures OnRecord(After(w0, ops)) && Extends(w0.audit, After(w0, ops).audit)
  {
    if ops != [] {
      var n := |ops| - 1;
      var before := ops[..n];
      assert forall i :: 0 <= i < n ==> before[..i] == ops[..i] && before[i] == ops[i];
      AlwaysOnRecord(w0, before);
      assert FreshTime(After(w0, ops[..n]), ops[n]);
      StaysOnRecord(After(w0, before), After(w0, ops), ops[n]);
    }
  }

  // ---- The node -------------------------------------------------------------------------------

  /** The store, deciding the fate of each call by the script. */
  class Store {
    const script: nat -> Fate
    var calls: nat
    var records: map<Key, Stored>
    var audit: map<AuditKey, Event>

    constructor (script: nat -> Fate, records: map<Key, Stored>, audit: map<AuditKey, Event>)
      ensures this.script == script && this.records == records && this.audit == audit && calls == 0
    {
      this.script, this.records, this.audit, calls := script, records, audit, 0;
    }

    function Fated(after: nat): Fate
      reads this
    {
      script(calls + after)
    }

    method PutAudit(key: AuditKey, event: Event) returns (ok: bool)
      modifies this`calls, this`audit
      ensures calls == old(calls) + 1 && ok == old(Fated(0)).Done?
      ensures audit == if old(Fated(0)).Refused? then old(audit) else old(audit)[key := event]
    {
      var fate := script(calls);
      calls := calls + 1;
      if !fate.Refused? { audit := audit[key := event]; }
      ok := fate.Done?;
    }

    method PutRecord(key: Key, record: Record) returns (ok: bool)
      modifies this`calls, this`records
      ensures calls == old(calls) + 1 && ok == old(Fated(0)).Done?
      ensures records == if old(Fated(0)).Refused? then old(records) else old(records)[key := Readable(record)]
    {
      var fate := script(calls);
      calls := calls + 1;
      if !fate.Refused? { records := records[key := Readable(record)]; }
      ok := fate.Done?;
    }

    /** Every object of a kind, in no particular order. */
    method List(kind: Kind) returns (listed: Option<seq<Stored>>)
      modifies this`calls
      ensures calls == old(calls) + 1 && (listed.Some? <==> old(Fated(0)).Done?)
      ensures listed.Some? ==> IsListing(records, kind, listed.value)
    {
      var fate := script(calls);
      calls := calls + 1;
      if !fate.Done? { return None; }
      var keys, all := set k | k in records && k.kind == kind, [];
      ghost var whole := keys;
      while keys != {}
        invariant keys <= whole && whole == set k | k in records && k.kind == kind
        invariant forall k :: k in whole - keys ==> records[k] in all
        invariant forall o :: o in all ==> exists k :: k in whole && records[k] == o
      {
        var k :| k in keys;
        keys, all := keys - {k}, all + [records[k]];
      }
      return Some(all);
    }
  }

  ghost predicate IsListing(records: map<Key, Stored>, kind: Kind, listed: seq<Stored>) {
    && (forall k :: k in records && k.kind == kind ==> records[k] in listed)
    && (forall o :: o in listed ==> exists k :: k in records && k.kind == kind && records[k] == o)
  }

  /** Objects are stored under the id they carry. */
  ghost predicate WellKeyed(records: map<Key, Stored>) {
    forall k :: k in records && records[k].Readable? ==> records[k].record.id == k.id
  }

  class Node {
    const store: Store
    var view: map<Key, Record>

    ghost function Here(): World
      reads this, store
    {
      World(view, store.records, store.audit)
    }

    ghost predicate Valid()
      reads this, store
    {
      WellKeyed(store.records) && forall k :: k in view ==> view[k].id == k.id
    }

    constructor (store: Store)
      requires WellKeyed(store.records)
      ensures Valid() && this.store == store && view == map[]
    {
      this.store, view := store, map[];
    }

    method Change(key: Key, event: Event, nanos: nat) returns (ok: bool)
      requires Valid() && event.record.id == key.id
      modifies this`view, store
      ensures Valid() && Here() == Changed(old(Here()), key, event, nanos, old(store.Fated(0)), old(store.Fated(1)))
      ensures ok <==> old(store.Fated(0)).Done? && old(store.Fated(1)).Done?
    {
      ok := store.PutAudit(AuditKey(key, nanos), event);
      if !ok { return; }
      ok := store.PutRecord(key, event.record);
      if !ok { return; }
      view := if event.record.liftedAt.Some? then view - {key} else view[key := event.record];
    }

    /** `suspend`, `block` and `block_catalog`, after the request is checked. */
    method ImposeOn(key: Key, record: Record, nanos: nat) returns (ok: bool)
      requires Valid() && record.id == key.id && record.liftedAt.None?
      modifies this`view, store
      ensures Valid()
      ensures Here() == Apply(old(Here()), Impose(key, record, nanos, old(store.Fated(0)), old(store.Fated(1))))
      ensures ok ==> Shown(view, key) == Current(store.records, key) == Some(record)
    {
      ok := Change(key, Event(ImposeAction(key.kind), record), nanos);
    }

    /** `lift_suspension`, `lift_block` and `lift_catalog_block`: of what the view shows. */
    method LiftFrom(key: Key, operator: string, at: nat, nanos: nat) returns (ok: bool)
      requires Valid()
      modifies this`view, store
      ensures Valid()
      ensures Here() == Apply(old(Here()), Lift(key, operator, at, nanos, old(store.Fated(0)), old(store.Fated(1))))
      ensures ok ==> Shown(view, key) == Current(store.records, key) == None
    {
      if key !in view { return false; }
      var record := view[key].(liftedBy := Some(operator), liftedAt := Some(at));
      ok := Change(key, Event(LiftAction(key.kind), record), nanos);
    }

    /** The active records of one kind, or None when the store could not list them. */
    method Active(kind: Kind) returns (active: Option<map<Key, Record>>)
      requires Valid()
      modifies store`calls
      ensures store.calls == old(store.calls) + 1 && (active.Some? <==> old(store.Fated(0)).Done?)
      ensures active.Some? ==>
        forall k :: Shown(active.value, k) == if k.kind == kind then Current(store.records, k) else None
    {
      var listed := store.List(kind);
      if listed.None? { return None; }
      var found: map<Key, Record> := map[];
      var i := 0;
      while i < |listed.value|
        invariant i <= |listed.value|
        invariant forall k :: k in found ==> k.kind == kind && Current(store.records, k) == Some(found[k])
        invariant forall k :: k in store.records && k.kind == kind && store.records[k] in listed.value[..i] ==>
                    Shown(found, k) == Current(store.records, k)
      {
        var o := listed.value[i];
        assert listed.value[..i + 1] == listed.value[..i] + [o];
        assert o in listed.value;
        ghost var at :| at in store.records && at.kind == kind && store.records[at] == o;
        if o.Readable? && o.record.liftedAt.None? {
          assert at == Key(kind, o.record.id);
          found := found[Key(kind, o.record.id) := o.record];
        }
        i := i + 1;
      }
      assert listed.value[..i] == listed.value;
      return Some(found);
    }

    /** `reload`: the view is replaced only when all three kinds were listed. */
    method ReloadView() returns (ok: bool)
      requires Valid()
      modifies this`view, store`calls
      ensures Valid() && Here() == Apply(old(Here()), Reload(ok))
      ensures if ok then InStep(Here()) else Here() == old(Here())
      ensures ok <==> old(store.Fated(0)).Done? && old(store.Fated(1)).Done? && old(store.Fated(2)).Done?
    {
      var suspensions := Active(Suspensions);
      if suspensions.None? { return false; }
      var blocks := Active(Blocks);
      if blocks.None? { return false; }
      var catalogBlocks := Active(CatalogBlocks);
      if catalogBlocks.None? { return false; }
      view := suspensions.value + blocks.value + catalogBlocks.value;
      forall k ensures Shown(view, k) == Current(store.records, k) {
        assert Shown(suspensions.value, k) == if k.kind == Suspensions then Current(store.records, k) else None;
        assert Shown(blocks.value, k) == if k.kind == Blocks then Current(store.records, k) else None;
        assert Shown(catalogBlocks.value, k) == if k.kind == CatalogBlocks then Current(store.records, k) else None;
      }
      InStepMeans(Here());
      return true;
    }
  }
}
