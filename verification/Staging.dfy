/** Push staging against the garbage collector: reference-counted guards of pending pushes, and a collector run that
    reads the pending set before and after listing the store.

    Guards come and go, blobs are written and runs proceed in any interleaving. A run may fail at any point. */
module Staging {
  // ---- The pending counts ---------------------------------------------------------------------

  function Tracked(pending: map<string, nat>, hash: string): map<string, nat> {
    pending[hash := if hash in pending then pending[hash] + 1 else 1]
  }

  function Dropped(pending: map<string, nat>, hash: string): map<string, nat> {
    if hash !in pending then pending
    else if pending[hash] <= 1 then pending - {hash}
    else pending[hash := pending[hash] - 1]
  }

  /** The staging area as the node updates it. Its guards are the map's own accounting of live pushes. */
  class PendingPushes {
    var pending: map<string, nat>
    ghost var guards: map<nat, string>
    ghost var next: nat

    ghost predicate Valid()
      reads this
    {
      (forall g :: g in guards ==> g < next) && Counts(pending, guards)
    }

    constructor ()
      ensures Valid() && pending == map[] && guards == map[]
    {
      pending, guards, next := map[], map[], 0;
    }

    /** `track`: one more guard, pending until it drops. */
    method Track(hash: string) returns (ghost guard: nat)
      requires Valid()
      modifies this
      ensures Valid() && pending == Tracked(old(pending), hash)
      ensures guard !in old(guards) && guards == old(guards)[guard := hash]
      ensures hash in pending
    {
      if hash in pending {
        pending := pending[hash := pending[hash] + 1];
      } else {
        pending := pending[hash := 1];
      }
      CountsTracked(old(pending), guards, next, hash);
      guard := next;
      guards, next := guards[next := hash], next + 1;
    }

    /** `PendingPush::drop`: a hash stays pending until its last guard drops. */
    method Drop(ghost guard: nat, hash: string)
      requires Valid() && guard in guards && guards[guard] == hash
      modifies this
      ensures Valid() && pending == Dropped(old(pending), hash) && guards == old(guards) - {guard}
      ensures hash in pending <==> exists g :: g in guards && guards[g] == hash
    {
      CountsDropped(pending, guards, guard);
      assert CountOk(pending, guards, hash) && guard in GuardsOf(guards, hash);
      if hash in pending {
        var n := pending[hash] - 1;
        pending := if n == 0 then pending - {hash} else pending[hash := n];
      }
      guards := guards - {guard};
      PendingIsGuarded(pending, guards, hash);
    }
  }

  // ---- The protocol ---------------------------------------------------------------------------

  /** A collector run. `first` and `second` are the pending sets it read, `listed` the store's listing between
      them, `cutoff` the number of guards made before the second read. Once it deletes, `doomed` is what is left to
      delete and `spared` what was written since it started deleting, which the store itself protects. */
  datatype Run =
    | Idle
    | ReadOnce(first: set<string>)
    | Listed(first: set<string>, listed: set<string>)
    | Chosen(first: set<string>, listed: set<string>, second: set<string>, cutoff: nat)
    | Deleting(first: set<string>, listed: set<string>, second: set<string>, cutoff: nat, doomed: set<string>,
               spared: set<string>)
  {
    /** The keep set, once both reads are done. */
    function Keep(): set<string>
      requires Chosen? || Deleting?
    {
      first + second
    }
  }

  datatype State = State(pending: map<string, nat>, guards: map<nat, string>, next: nat, stored: set<string>, run: Run)

  datatype Step =
    | Track(hash: string)
    | Drop(guard: nat)
    | Put(hash: string)
    | BeginRun
    | List
    | ReadAgain
    | StartDeleting
    | Delete(hash: string)
    | EndRun
    | FailRun

  function Apply(s: State, step: Step): State {
    match step
    case Track(hash) =>
      s.(pending := Tracked(s.pending, hash), guards := s.guards[s.next := hash], next := s.next + 1)
    case Drop(guard) =>
      if guard !in s.guards then s
      else s.(pending := Dropped(s.pending, s.guards[guard]), guards := s.guards - {guard})
    case Put(hash) =>
      var run := if s.run.Deleting? then s.run.(doomed := s.run.doomed - {hash}, spared := s.run.spared + {hash})
                 else s.run;
      s.(stored := s.stored + {hash}, run := run)
    case BeginRun => if s.run.Idle? then s.(run := ReadOnce(s.pending.Keys)) else s
    case List => if s.run.ReadOnce? then s.(run := Listed(s.run.first, s.stored)) else s
    case ReadAgain =>
      if !s.run.Listed? then s
      else if s.run.listed <= s.run.first + s.pending.Keys then s.(run := Idle)
      else s.(run := Chosen(s.run.first, s.run.listed, s.pending.Keys, s.next))
    case StartDeleting =>
      if !s.run.Chosen? then s
      else s.(run := Deleting(s.run.first, s.run.listed, s.run.second, s.run.cutoff, s.stored - s.run.Keep(), {}))
    case Delete(hash) =>
      if !s.run.Deleting? || hash !in s.run.doomed then s
      else s.(stored := s.stored - {hash}, run := s.run.(doomed := s.run.doomed - {hash}))
    case EndRun => if s.run.Deleting? && s.run.doomed == {} then s.(run := Idle) else s
    case FailRun => s.(run := Idle)
  }

  function After(s0: State, steps: seq<Step>): State {
    if steps == [] then s0 else Apply(After(s0, steps[..|steps| - 1]), steps[|steps| - 1])
  }

  /** A started node: nothing pending, whatever the last one left in the store. */
  predicate Init(s: State) {
    s.pending == map[] && s.guards == map[] && s.run.Idle?
  }

  // ---- Counting guards ------------------------------------------------------------------------

  ghost function GuardsOf(guards: map<nat, string>, hash: string): set<nat> {
    set g | g in guards && guards[g] == hash
  }

  /** Each hash's pending count is the number of its live guards; no guard, not pending. */
  ghost predicate Counts(pending: map<string, nat>, guards: map<nat, string>) {
    forall hash :: CountOk(pending, guards, hash)
  }

  lemma PendingIsGuarded(pending: map<string, nat>, guards: map<nat, string>, hash: string)
    requires Counts(pending, guards)
    ensures hash in pending <==> exists g :: g in guards && guards[g] == hash
  {
    assert CountOk(pending, guards, hash);
    if hash in pending {
      var g :| g in GuardsOf(guards, hash);
    }
    forall g | g in guards && guards[g] == hash ensures hash in pending {
      assert g in GuardsOf(guards, hash);
    }
  }

  ghost predicate CountOk(pending: map<string, nat>, guards: map<nat, string>, hash: string) {
    var live := GuardsOf(guards, hash);
    && (hash in pending <==> live != {})
    && (hash in pending ==> pending[hash] == |live|)
  }

  lemma CountsTracked(pending: map<string, nat>, guards: map<nat, string>, g: nat, hash: string)
    requires Counts(pending, guards) && g !in guards
    ensures Counts(Tracked(pending, hash), guards[g := hash])
  {
    var counted, after := Tracked(pending, hash), guards[g := hash];
    forall h ensures CountOk(counted, after, h) {
      assert CountOk(pending, guards, h);
      if h == hash {
        var live := GuardsOf(guards, h);
        assert GuardsOf(after, h) == live + {g} && g !in live && |live + {g}| == |live| + 1;
      } else {
        assert GuardsOf(after, h) == GuardsOf(guards, h);
      }
    }
  }

  lemma CountsDropped(pending: map<string, nat>, guards: map<nat, string>, g: nat)
    requires Counts(pending, guards) && g in guards
    ensures Counts(Dropped(pending, guards[g]), guards - {g})
  {
    forall h ensures CountOk(Dropped(pending, guards[g]), guards - {g}, h) {
      assert CountOk(pending, guards, h);
      if h == guards[g] {
        var live := GuardsOf(guards, h);
        assert GuardsOf(guards - {g}, h) == live - {g} && g in live && |live - {g}| == |live| - 1;
      } else {
        assert GuardsOf(guards - {g}, h) == GuardsOf(guards, h);
      }
    }
  }

  // ---- The invariant --------------------------------------------------------------------------

  ghost predicate RunInv(s: State) {
    && (s.run.Chosen? || s.run.Deleting? ==>
          && (forall g :: g in s.guards && g < s.run.cutoff ==> s.guards[g] in s.run.Keep())
          && s.run.cutoff <= s.next)
    && (s.run.Listed? || s.run.Chosen? ==> s.run.listed <= s.stored)
    && (s.run.Deleting? ==>
          && s.run.doomed !! s.run.Keep() && s.run.doomed <= s.stored
          && s.run.doomed !! s.run.spared && s.run.spared <= s.stored
          && forall h :: h in s.run.listed && h in s.stored ==>
               h in s.run.Keep() || h in s.run.doomed || h in s.run.spared)
  }

  ghost predicate Inv(s: State) {
    (forall g :: g in s.guards ==> g < s.next) && Counts(s.pending, s.guards) && RunInv(s)
  }

  lemma StepKeeps(s: State, step: Step)
    requires Inv(s)
    ensures Inv(Apply(s, step))
  {
    match step
    case Track(hash) => CountsTracked(s.pending, s.guards, s.next, hash);
    case Drop(guard) => if guard in s.guards { CountsDropped(s.pending, s.guards, guard); }
    case ReadAgain =>
      forall g | g in s.guards ensures s.guards[g] in s.pending { PendingIsGuarded(s.pending, s.guards, s.guards[g]); }
    case _ =>
  }

  lemma {:induction false} Reachable(s0: State, steps: seq<Step>)
    requires Init(s0)
    ensures Inv(After(s0, steps))
  {
    if steps != [] {
      Reachable(s0, steps[..|steps| - 1]);
      StepKeeps(After(s0, steps[..|steps| - 1]), steps[|steps| - 1]);
    }
  }

  // ---- What holds in every run ----------------------------------------------------------------

  /** In every reachable state a hash is pending exactly while a guard of it lives, with as many as there are. */
  lemma PendingIsLiveGuards(s0: State, steps: seq<Step>, hash: string)
    requires Init(s0)
    ensures var s := After(s0, steps);
      && (hash in s.pending <==> exists g :: g in s.guards && s.guards[g] == hash)
      && (hash in s.pending ==> s.pending[hash] == |GuardsOf(s.guards, hash)|)
  {
    Reachable(s0, steps);
    var s := After(s0, steps);
    assert CountOk(s.pending, s.guards, hash);
    PendingIsGuarded(s.pending, s.guards, hash);
  }

  /** A collector run deletes no hash it saw pending, none with a live guard made before its second read, and none
      written since it started deleting. */
  lemma HeldPushIsNeverDeleted(s0: State, steps: seq<Step>, hash: string)
    requires Init(s0)
    requires var s := After(s0, steps); hash in s.stored && hash !in Apply(s, Delete(hash)).stored
    ensures var s := After(s0, steps);
      && hash !in s.run.first && hash !in s.run.second && hash !in s.run.spared
      && forall g :: g in s.guards && s.guards[g] == hash ==> g >= s.run.cutoff
  {
    Reachable(s0, steps);
  }

  /** When a run ends, every hash it listed and saw pending at neither read is gone, unless it was written again
      since the run began deleting. */
  lemma EndedRunLeftNothing(s0: State, steps: seq<Step>, hash: string)
    requires Init(s0)
    requires var s := After(s0, steps); s.run.Deleting? && s.run.doomed == {}
    requires var run := After(s0, steps).run; hash in run.listed && hash !in run.first && hash !in run.second
    ensures hash in After(s0, steps).stored ==> hash in After(s0, steps).run.spared
  {
    Reachable(s0, steps);
  }

  /** A run over a successful listing is skipped exactly when every listed hash was pending at one of the reads. */
  lemma SkippedOnlyWhenNothingIsDeletable(s: State)
    requires s.run.Listed?
    ensures Apply(s, ReadAgain).run.Idle? <==>
              !exists hash :: hash in s.run.listed && hash !in s.run.first && hash !in s.pending
    ensures !Apply(s, ReadAgain).run.Idle? ==>
      && Apply(s, ReadAgain).run.Keep() == s.run.first + s.pending.Keys
      && Apply(s, ReadAgain).run.listed == s.run.listed
  {
  }

  /** The window: a push tracked after the second read whose data is all written before the run starts deleting is
      deleted, though its guard is held. */
  lemma WindowLosesAPush(s: State, hash: string)
    requires Inv(s) && s.run.Chosen? && hash !in s.run.Keep()
    ensures var t := Apply(Apply(Apply(s, Track(hash)), Put(hash)), StartDeleting);
      hash in t.pending && hash in t.stored && hash !in Apply(t, Delete(hash)).stored
  {
  }

  predicate RunGoesOn(steps: seq<Step>) {
    forall i :: 0 <= i < |steps| ==> !steps[i].EndRun? && !steps[i].FailRun?
  }

  /** What a run that started deleting in `s` is about to delete after more steps: what was stored when it started, was
      pending at neither read, and was neither written nor deleted since. */
  ghost predicate Doomed(s: State, more: seq<Step>, hash: string)
    requires s.run.Chosen?
  {
    hash in s.stored && hash !in s.run.Keep() && Put(hash) !in more && Delete(hash) !in more
  }

  /** The window exactly: from a run that has made its second read, through any interleaving after it starts deleting,
      the next deletion can take a hash, held or not, exactly when all its data was stored before deleting started, it
      was pending at neither read, and it was not written since. */
  lemma {:induction false} TheWindowExactly(s: State, more: seq<Step>, hash: string)
    requires s.run.Chosen? && RunGoesOn(more)
    ensures var t := After(Apply(s, StartDeleting), more);
      && t.run.Deleting? && t.run.Keep() == s.run.Keep()
      && (hash in t.run.doomed <==> Doomed(s, more, hash))
      && (Doomed(s, more, hash) ==> hash !in Apply(t, Delete(hash)).stored)
  {
    if more != [] {
      var before, last := more[..|more| - 1], more[|more| - 1];
      assert more == before + [last];
      TheWindowExactly(s, before, hash);
    }
  }

  /** So a push tracked after the second read survives the whole run, however it interleaves, once its data is written
      while the run deletes. */
  lemma {:induction false} LateWriteSurvives(s: State, more: seq<Step>, hash: string)
    requires Inv(s) && s.run.Deleting? && hash in s.run.spared && RunGoesOn(more)
    ensures var t := After(s, more);
      Inv(t) && t.run.Deleting? && hash in t.run.spared && hash in t.stored && hash !in t.run.doomed
  {
    if more != [] {
      var before, last := more[..|more| - 1], more[|more| - 1];
      LateWriteSurvives(s, before, hash);
      StepKeeps(After(s, before), last);
    }
  }
}
