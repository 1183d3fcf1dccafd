/** One instance's gate as the node runs it: the maps it updates in place while it decides pushes. */
module GateMemory {
  import opened Wrappers
  import opened PublishGate

  const SESSION_MISS_TTL: nat := 10 * SECOND
  const SESSION_MISSES: nat := 4096

  /** The misses still remembered at `now`. */
  function Fresh(misses: map<string, nat>, now: nat): map<string, nat> {
    map e | e in misses && now < misses[e] + SESSION_MISS_TTL :: misses[e]
  }

  ghost predicate IsOldest(misses: map<string, nat>, oldest: string) {
    oldest in misses && forall e :: e in misses ==> misses[oldest] <= misses[e]
  }

  /** Remembering one more miss: past capacity the forgotten ones go first, then an oldest one. */
  ghost predicate Remembers(before: map<string, nat>, after: map<string, nat>, endpoint: string, now: nat) {
    var kept := if |before| >= SESSION_MISSES then Fresh(before, now) else before;
    if |kept| >= SESSION_MISSES
    then exists oldest :: IsOldest(kept, oldest) && after == (kept - {oldest})[endpoint := now]
    else after == kept[endpoint := now]
  }

  method Oldest(misses: map<string, nat>) returns (oldest: string)
    requires misses != map[]
    ensures IsOldest(misses, oldest)
  {
    oldest :| oldest in misses;
    var rest := misses.Keys - {oldest};
    while rest != {}
      invariant rest <= misses.Keys && oldest in misses
      invariant forall e :: e in misses && e !in rest ==> misses[oldest] <= misses[e]
      decreases rest
    {
      var e :| e in rest;
      if misses[e] < misses[oldest] { oldest := e; }
      rest := rest - {e};
    }
  }

  lemma RemovalShrinks(misses: map<string, nat>, oldest: string)
    requires oldest in misses
    ensures |misses - {oldest}| == |misses| - 1
  {
    assert (misses - {oldest}).Keys == misses.Keys - {oldest};
  }

  lemma InsertionGrows(misses: map<string, nat>, endpoint: string, now: nat)
    ensures |misses[endpoint := now]| <= |misses| + 1
  {
    assert misses[endpoint := now].Keys == misses.Keys + {endpoint};
  }

  class Gate {
    const cfg: Config
    /** Whether there is a session store to ask. */
    const hasStore: bool
    var sessions: map<string, Session>
    var connections: map<nat, string>
    var misses: map<string, nat>
    /** The moderation view, which the node's handlers and reloads change. */
    var suspended: set<string>
    var blocked: set<string>

    constructor (cfg: Config, hasStore: bool)
      ensures this.cfg == cfg && this.hasStore == hasStore && misses == map[]
      ensures AsInstance() == Instance(cfg, map[], map[], {}, {})
    {
      this.cfg, this.hasStore := cfg, hasStore;
      sessions, connections, misses, suspended, blocked := map[], map[], map[], {}, {};
    }

    /** This gate as the protocol sees it. */
    function AsInstance(): Instance
      reads this
    {
      Instance(cfg, sessions, connections, suspended, blocked)
    }

    method OpenSessionWithChain(now: nat, endpoint: string, subject: string, ttl: nat, chain: Option<seq<StoredEntity>>)
      returns (expires: nat)
      modifies this`sessions
      ensures sessions == OpenSession(old(sessions), endpoint, subject, now, ttl, chain) && expires == now + ttl
      ensures ttl == cfg.ttl * SECOND ==> AsInstance() == Opened(old(AsInstance()), endpoint, subject, chain, now)
      ensures ttl > 0 ==> HeldSession(sessions, endpoint, now) == Some(Session(Canonical(subject), expires, chain))
    {
      expires := now + ttl;
      sessions := map e | e in sessions && sessions[e].expires > now :: sessions[e];
      sessions := sessions[endpoint := Session(Canonical(subject), expires, chain)];
    }

    method ConnectionOpened(connection: nat, endpoint: Option<string>)
      modifies this`connections
      ensures AsInstance() ==
              if endpoint.Some? then Connected(old(AsInstance()), connection, endpoint.value) else old(AsInstance())
    {
      if endpoint.Some? { connections := connections[connection := endpoint.value]; }
    }

    method ConnectionClosed(connection: nat)
      modifies this`connections
      ensures AsInstance() == Closed(old(AsInstance()), connection)
    {
      connections := connections - {connection};
    }

    predicate RecentlyMissed(endpoint: string, now: nat)
      reads this
    {
      endpoint in misses && now < misses[endpoint] + SESSION_MISS_TTL
    }

    /** Never more than the capacity is remembered, and a fresh miss goes only for an older one's sake. */
    method Missed(endpoint: string, now: nat)
      requires |misses| <= SESSION_MISSES
      modifies this`misses
      ensures Remembers(old(misses), misses, endpoint, now) && |misses| <= SESSION_MISSES
      ensures RecentlyMissed(endpoint, now)
    {
      if |misses| >= SESSION_MISSES {
        assert Fresh(misses, now).Keys <= misses.Keys;
        misses := Fresh(misses, now);
      }
      ghost var kept := misses;
      assert |kept.Keys| <= |old(misses).Keys| by { Subset(kept.Keys, old(misses).Keys); }
      if |misses| >= SESSION_MISSES {
        var oldest := Oldest(misses);
        RemovalShrinks(misses, oldest);
        misses := misses - {oldest};
        assert IsOldest(kept, oldest) && misses == kept - {oldest};
      }
      InsertionGrows(misses, endpoint, now);
      misses := misses[endpoint := now];
    }

    /** The start of a push, up to where the store would be asked. */
    method Arrive(now: nat, connection: nat, hash: string) returns (r: Option<Result<string, PushRefusal>>)
      ensures r == Arrived(AsInstance(), connection, hash, now)
    {
      if connection !in connections { return Some(Err(NoSession)); }
      var session := HeldSession(sessions, connections[connection], now);
      if session.None? { return None; }
      r := Some(Judge(AsInstance(), session.value, hash));
    }

    /** Whether the store is asked: there is one, the endpoint did not just miss, and a lookup is free. */
    predicate MayAsk(endpoint: string, now: nat, busy: bool)
      reads this
    {
      hasStore && !RecentlyMissed(endpoint, now) && !busy
    }

    /** The end of a push, with what the store answered (`None`: it failed or has none), whatever other tasks did in
        between. Only a session found changes the sessions, only one not found is remembered as a miss. */
    method Conclude(now: nat, endpoint: string, hash: string, answer: Option<Body>) returns (r: Result<string, PushRefusal>)
      requires |misses| <= SESSION_MISSES
      modifies this`sessions, this`misses
      ensures |misses| <= SESSION_MISSES
      ensures AsInstance() == Concluded(old(AsInstance()), endpoint, answer, now)
      ensures r == Conclusion(old(AsInstance()), endpoint, answer, hash, now)
      ensures if ReadBack(cfg, endpoint, answer, now).Some? then misses == old(misses)
              else Remembers(old(misses), misses, endpoint, now)
    {
      ghost var before := AsInstance();
      var session := ReadBack(cfg, endpoint, answer, now);
      if session.None? {
        Missed(endpoint, now);
        return Err(NoSession);
      }
      var _ := OpenSessionWithChain(now, endpoint, answer.value.record.subject, session.value.expires - now,
                                    session.value.chain);
      r := Judge(AsInstance(), session.value, hash);
      JudgeIgnoresSessions(before, AsInstance(), session.value, hash);
    }

    /** The whole decision on a push that no other task interrupts, with the clock at its start and its end. */
    method AuthorizePush(now: nat, later: nat, connection: nat, hash: string, answer: Option<Body>, busy: bool)
      returns (r: Result<string, PushRefusal>)
      requires |misses| <= SESSION_MISSES && now <= later
      modifies this`sessions, this`misses
      ensures |misses| <= SESSION_MISSES
      ensures var inst := old(AsInstance());
        var first := Arrived(inst, connection, hash, now);
        if first.Some? then r == first.value && AsInstance() == inst && misses == old(misses)
        else if !old(MayAsk(connections[connection], now, busy)) then
          r == Err(NoSession) && AsInstance() == inst && misses == old(misses)
        else
          var e := inst.connections[connection];
          && r == Conclusion(inst, e, answer, hash, later) && AsInstance() == Concluded(inst, e, answer, later)
          && (if ReadBack(cfg, e, answer, later).Some? then misses == old(misses)
              else Remembers(old(misses), misses, e, later))
    {
      var first := Arrive(now, connection, hash);
      if first.Some? { return first.value; }
      var e := connections[connection];
      if !MayAsk(e, now, busy) { return Err(NoSession); }
      r := Conclude(later, e, hash, answer);
    }
  }

  lemma JudgeIgnoresSessions(a: Instance, b: Instance, session: Session, hash: string)
    requires a.cfg == b.cfg && a.suspended == b.suspended && a.blocked == b.blocked
    ensures Judge(a, session, hash) == Judge(b, session, hash)
  {
  }

  /** A gate that does what its methods promise is an instance of the protocol: each step changes its own instance as
      the gate changes, and no other. */
  lemma StepsAreTheGates(s: State, n: nat, connection: nat, endpoint: string, q: nat)
    requires n in s.instances
    ensures Apply(s, Connect(n, connection, endpoint)).instances ==
            s.instances[n := Connected(s.instances[n], connection, endpoint)]
    ensures Apply(s, Close(n, connection)).instances == s.instances[n := Closed(s.instances[n], connection)]
    ensures q in s.requests && s.requests[q].node == n ==>
      var g := s.requests[q];
      Apply(s, OpenInMemory(q)).instances
        == s.instances[n := Opened(s.instances[n], g.endpoint, g.sub, StripOption(g.chain), s.now)]
  {
  }

  /** A push as the protocol runs it: started, the store asked, time passing, concluded. */
  function PushRun(s: State, n: nat, x: nat, connection: nat, hash: string, failed: bool, elapsed: nat): State {
    Apply(Apply(Apply(s, Arrive(x, n, connection, hash)), Fetch(x, failed)), Tick(elapsed))
  }

  /** The protocol answers a push, and leaves its instance, as the gate does. */
  lemma PushIsTheGates(s: State, n: nat, x: nat, connection: nat, hash: string, failed: bool, elapsed: nat)
    requires n in s.instances && x !in s.pushes
    ensures ArriveOutcome(s, n, connection, hash) == Arrived(s.instances[n], connection, hash, s.now)
    ensures Arrived(s.instances[n], connection, hash, s.now).None? ==>
      var inst, t := s.instances[n], PushRun(s, n, x, connection, hash, failed, elapsed);
      var e := inst.connections[connection];
      var answer := if failed || e !in s.store then None else Some(s.store[e]);
      && ConcludeOutcome(t, x) == Some(Conclusion(inst, e, answer, hash, s.now + elapsed))
      && Apply(t, PublishGate.Conclude(x)).instances == s.instances[n := Concluded(inst, e, answer, s.now + elapsed)]
  {
    hide Judge, ReadBack, OpenSession, PublisherWithChain;
    if Arrived(s.instances[n], connection, hash, s.now).None? {
      var link := Link(n, connection, s.instances[n].connections[connection]);
      var started := Apply(s, Arrive(x, n, connection, hash));
      assert started == s.(pushes := s.pushes[x := Push(link, hash, None)]);
    }
  }

  lemma Subset(a: set<string>, b: set<string>)
    requires a <= b
    ensures |a| <= |b|
  {
    if a != {} {
      var x :| x in a;
      Subset(a - {x}, b - {x});
    }
  }
}
