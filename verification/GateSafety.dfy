/** What every run of the publishing gate keeps, on all instances together. */
module GateSafety {
  import opened Wrappers
  import opened PublishGate

  /** A session of `g`: its endpoint, its subject and the chain it was decided with. */
  ghost predicate SessionOf(g: Grant, endpoint: string, session: Session) {
    g.endpoint == endpoint && session.subject == Canonical(g.sub) && session.chain == StripOption(g.chain)
  }

  /** Opened on this very instance by a request, and lasting its TTL from then. */
  ghost predicate OpenedHere(s: State, n: nat, endpoint: string, session: Session) {
    exists i :: i in s.installs && i.grant in s.grants && i.grant.node == n && i.at <= s.now
      && n in s.instances && session.expires == i.at + s.instances[n].cfg.ttl * SECOND
      && SessionOf(i.grant, endpoint, session)
  }

  /** An instance sealed this grant's record. */
  ghost predicate OnFile(s: State, g: Grant) {
    exists b :: b in s.sealed && b.Sealed? && b.record == g.Record()
  }

  /** Read back from a record, and over less than a second after the record's `expiresAt`. */
  ghost predicate ReadFromRecord(s: State, endpoint: string, session: Session) {
    exists g :: g in s.grants && OnFile(s, g) && SessionOf(g, endpoint, session)
      && session.expires < (g.ExpiresAt() + 1) * SECOND
  }

  ghost predicate Backed(s: State, n: nat, endpoint: string, session: Session) {
    OpenedHere(s, n, endpoint, session) || ReadFromRecord(s, endpoint, session)
  }

  ghost predicate SessionsBacked(s: State, n: nat)
    requires n in s.instances
  {
    forall e :: e in s.instances[n].sessions ==> Backed(s, n, e, s.instances[n].sessions[e])
  }

  /** A grant keeps a chain only when the decision service permitted that chain, whose person is the subject. */
  ghost predicate GrantOk(g: Grant) {
    g.chain.Some? ==> Person(StripTokens(g.chain.value)) == Some(g.sub) && Permits(g.answer, g.sub)
  }

  /** A body an instance could unseal was sealed by an instance. */
  ghost predicate Genuine(s: State, body: Body) {
    body.Sealed? && NodeKey(s, body.key) ==> body in s.sealed
  }

  ghost predicate HistoryInv(s: State) {
    && (forall g :: g in s.grants ==> GrantOk(g) && g.at <= s.now)
    && (forall q :: q in s.requests ==> s.requests[q] in s.grants)
    && (forall i :: i in s.installs ==> i.grant in s.grants)
    && (forall b :: b in s.sealed ==> b.Sealed? && exists g :: g in s.grants && b.record == g.Record())
  }

  ghost predicate StoreInv(s: State) {
    && (forall e :: e in s.store ==> Genuine(s, s.store[e]))
    && (forall x :: x in s.pushes && s.pushes[x].fetched.Some? && s.pushes[x].fetched.value.Some? ==>
          Genuine(s, s.pushes[x].fetched.value.value))
  }

  ghost predicate LinkInv(s: State) {
    && (forall x :: x in s.pushes ==> s.pushes[x].link in s.links)
    && (forall n, c :: n in s.instances && c in s.instances[n].connections ==>
          Link(n, c, s.instances[n].connections[c]) in s.links)
  }

  ghost predicate SessionInv(s: State) {
    forall n :: n in s.instances ==> SessionsBacked(s, n)
  }

  ghost predicate Inv(s: State) {
    HistoryInv(s) && StoreInv(s) && LinkInv(s) && SessionInv(s)
  }

  // ---- Stability ------------------------------------------------------------------------------

  /** Time goes on, settings stay, and what has happened stays on record. */
  ghost predicate Later(s: State, t: State) {
    && s.now <= t.now && s.grants <= t.grants && s.installs <= t.installs && s.links <= t.links && s.sealed <= t.sealed
    && s.instances.Keys == t.instances.Keys
    && (forall n :: n in s.instances ==> t.instances[n].cfg == s.instances[n].cfg)
  }

  lemma StepIsLater(s: State, step: Step)
    ensures Later(s, Apply(s, step))
  {
    hide PublisherWithChain, OpenSession, ReadBack, Judge, NodeKey;
  }

  lemma BackedLater(s: State, t: State, n: nat, endpoint: string, session: Session)
    requires Later(s, t) && Backed(s, n, endpoint, session)
    ensures Backed(t, n, endpoint, session)
  {
    if OpenedHere(s, n, endpoint, session) {
      var i :| i in s.installs && i.grant in s.grants && i.grant.node == n && i.at <= s.now
        && n in s.instances && session.expires == i.at + s.instances[n].cfg.ttl * SECOND
        && SessionOf(i.grant, endpoint, session);
      assert i in t.installs && i.grant in t.grants;
    } else {
      var g :| g in s.grants && OnFile(s, g) && SessionOf(g, endpoint, session)
        && session.expires < (g.ExpiresAt() + 1) * SECOND;
      assert g in t.grants && OnFile(t, g);
    }
  }

  lemma SameKeys(s: State, t: State, key: string)
    requires Later(s, t)
    ensures NodeKey(s, key) <==> NodeKey(t, key)
  {
    if NodeKey(s, key) {
      var n :| n in s.instances && s.instances[n].cfg.key == Some(key);
      assert t.instances[n].cfg.key == Some(key);
    }
    if NodeKey(t, key) {
      var n :| n in t.instances && t.instances[n].cfg.key == Some(key);
      assert s.instances[n].cfg.key == Some(key);
    }
  }

  lemma GenuineLater(s: State, t: State, body: Body)
    requires Later(s, t) && Genuine(s, body)
    ensures Genuine(t, body)
  {
    if body.Sealed? { SameKeys(s, t, body.key); }
  }

  // ---- Every step keeps the invariant ---------------------------------------------------------

  lemma GrantFrom(s: State, step: Step, g: Grant)
    requires g in Apply(s, step).grants && g !in s.grants
    ensures GrantOk(g) && g.at <= s.now
  {
    if step.Authorise? && step.node in s.instances {
      var cfg := s.instances[step.node].cfg;
      WhoDecides(cfg, Canonical(step.claims.sub) in s.instances[step.node].suspended, step.claims, step.token,
                 step.devices, step.answer);
    }
  }

  lemma RequestFrom(s: State, step: Step, q: nat)
    requires q in Apply(s, step).requests
    ensures var t := Apply(s, step); (q in s.requests && t.requests[q] == s.requests[q]) || t.requests[q] in t.grants
  {
  }

  lemma InstallFrom(s: State, step: Step, i: Install)
    requires HistoryInv(s) && i in Apply(s, step).installs && i !in s.installs
    ensures i.grant in s.grants
  {
    assert step.OpenInMemory? && i.grant == s.requests[step.q];
  }

  lemma SealedFrom(s: State, step: Step, b: Body)
    requires HistoryInv(s) && b in Apply(s, step).sealed && b !in s.sealed
    ensures b.Sealed? && exists g :: g in s.grants && b.record == g.Record()
  {
    assert step.StoreRecord? && b.record == s.requests[step.q].Record() && s.requests[step.q] in s.grants;
  }

  lemma HistoryKept(s: State, t: State, step: Step)
    requires HistoryInv(s) && t == Apply(s, step) && Later(s, t)
    ensures HistoryInv(t)
  {
    forall g | g in t.grants ensures GrantOk(g) && g.at <= t.now {
      if g !in s.grants { GrantFrom(s, step, g); }
    }
    forall q | q in t.requests ensures t.requests[q] in t.grants { RequestFrom(s, step, q); }
    forall i | i in t.installs ensures i.grant in t.grants {
      if i !in s.installs { InstallFrom(s, step, i); }
    }
    forall b | b in t.sealed ensures b.Sealed? && exists g :: g in t.grants && b.record == g.Record() {
      if b !in s.sealed { SealedFrom(s, step, b); }
      var g :| g in s.grants && b.record == g.Record();
      assert g in t.grants;
    }
  }

  /** Where a stored body comes from: it was there, an instance sealed it, or it needed no instance's key. */
  ghost predicate StoreChange(s: State, t: State) {
    && (forall e :: e in t.store ==>
          || (e in s.store && t.store[e] == s.store[e]) || t.store[e] in t.sealed
          || !(t.store[e].Sealed? && NodeKey(s, t.store[e].key)))
    && (forall x :: x in t.pushes && t.pushes[x].fetched.Some? && t.pushes[x].fetched.value.Some? ==>
          || (x in s.pushes && s.pushes[x] == t.pushes[x])
          || (t.pushes[x].link.endpoint in s.store && t.pushes[x].fetched.value.value == s.store[t.pushes[x].link.endpoint]))
  }

  lemma StepChangesStore(s: State, step: Step)
    ensures StoreChange(s, Apply(s, step))
  {
    hide PublisherWithChain, OpenSession, ReadBack, Judge, NodeKey;
  }

  lemma StoreKept(s: State, t: State)
    requires StoreInv(s) && Later(s, t) && StoreChange(s, t)
    ensures StoreInv(t)
  {
    forall e | e in t.store ensures Genuine(t, t.store[e]) {
      if e in s.store && t.store[e] == s.store[e] { GenuineLater(s, t, s.store[e]); }
      if t.store[e].Sealed? { SameKeys(s, t, t.store[e].key); }
    }
    forall x | x in t.pushes && t.pushes[x].fetched.Some? && t.pushes[x].fetched.value.Some?
      ensures Genuine(t, t.pushes[x].fetched.value.value)
    {
      GenuineLater(s, t, t.pushes[x].fetched.value.value);
    }
  }

  lemma PushFrom(s: State, step: Step, x: nat)
    requires x in Apply(s, step).pushes
    ensures var link := Apply(s, step).pushes[x].link;
      || (x in s.pushes && link == s.pushes[x].link)
      || (link.node in s.instances && link.connection in s.instances[link.node].connections
          && link.endpoint == s.instances[link.node].connections[link.connection])
  {
  }

  lemma ConnectionFrom(s: State, step: Step, n: nat, c: nat)
    requires var t := Apply(s, step); n in t.instances && c in t.instances[n].connections
    ensures var t := Apply(s, step);
      || (n in s.instances && c in s.instances[n].connections
          && t.instances[n].connections[c] == s.instances[n].connections[c])
      || Link(n, c, t.instances[n].connections[c]) in t.links
  {
  }

  lemma LinksKept(s: State, t: State, step: Step)
    requires LinkInv(s) && t == Apply(s, step) && Later(s, t)
    ensures LinkInv(t)
  {
    forall x | x in t.pushes ensures t.pushes[x].link in t.links {
      PushFrom(s, step, x);
      var link := t.pushes[x].link;
      assert link == Link(link.node, link.connection, link.endpoint);
    }
    forall n, c | n in t.instances && c in t.instances[n].connections
      ensures Link(n, c, t.instances[n].connections[c]) in t.links
    {
      ConnectionFrom(s, step, n, c);
    }
  }

  /** A session read back ends less than a second after its record does, however often it is read back. */
  lemma ReadBackIsBounded(cfg: Config, endpoint: string, body: Option<Body>, now: nat, g: Grant)
    requires ReadBack(cfg, endpoint, body, now).Some? && body.value.record == g.Record()
    ensures var session := ReadBack(cfg, endpoint, body, now).value;
      && SessionOf(g, endpoint, session) && now / SECOND < g.ExpiresAt()
      && session.expires < (g.ExpiresAt() + 1) * SECOND && session.expires <= now + cfg.ttl * SECOND
  {
  }

  lemma ConcludedIsBacked(s: State, x: nat)
    requires HistoryInv(s) && StoreInv(s) && x in s.pushes && s.pushes[x].fetched.Some?
    requires s.pushes[x].link.node in s.instances
    requires var push := s.pushes[x];
      ReadBack(s.instances[push.link.node].cfg, push.link.endpoint, push.fetched.value, s.now).Some?
    ensures exists g :: g in s.grants && s.pushes[x].fetched.value.value.record == g.Record()
    ensures var push := s.pushes[x];
      var session := ReadBack(s.instances[push.link.node].cfg, push.link.endpoint, push.fetched.value, s.now).value;
      ReadFromRecord(s, push.link.endpoint, session)
  {
    var push := s.pushes[x];
    var body := push.fetched.value.value;
    assert s.instances[push.link.node].cfg.key == Some(body.key);
    assert NodeKey(s, body.key) && Genuine(s, body);
    var g :| g in s.grants && body.record == g.Record();
    assert OnFile(s, g);
    ReadBackIsBounded(s.instances[push.link.node].cfg, push.link.endpoint, push.fetched.value, s.now, g);
  }

  /** Where a session comes from: it was held, a request opened it now, or it was read back now. */
  ghost predicate SessionChange(s: State, t: State, n: nat, e: string)
    requires n in t.instances && e in t.instances[n].sessions
  {
    var session := t.instances[n].sessions[e];
    || (n in s.instances && e in s.instances[n].sessions && session == s.instances[n].sessions[e])
    || OpenedHere(t, n, e, session) || ReadFromRecord(s, e, session)
  }

  lemma OpenChangesSessions(s: State, q: nat, n: nat, e: string)
    requires HistoryInv(s)
    requires var t := Apply(s, OpenInMemory(q)); n in t.instances && e in t.instances[n].sessions
    ensures SessionChange(s, Apply(s, OpenInMemory(q)), n, e)
  {
    var t := Apply(s, OpenInMemory(q));
    if q in s.requests && s.requests[q].node in s.instances {
      assert Install(s.requests[q], s.now) in t.installs;
    }
  }

  lemma ConcludeChangesSessions(s: State, x: nat, n: nat, e: string)
    requires HistoryInv(s) && StoreInv(s)
    requires var t := Apply(s, Conclude(x)); n in t.instances && e in t.instances[n].sessions
    ensures SessionChange(s, Apply(s, Conclude(x)), n, e)
  {
    if x in s.pushes && s.pushes[x].fetched.Some? && s.pushes[x].link.node in s.instances {
      var push := s.pushes[x];
      var inst := s.instances[push.link.node];
      if ReadBack(inst.cfg, push.link.endpoint, push.fetched.value, s.now).Some? { ConcludedIsBacked(s, x); }
    }
  }

  lemma StepChangesSessions(s: State, step: Step, n: nat, e: string)
    requires HistoryInv(s) && StoreInv(s)
    requires var t := Apply(s, step); n in t.instances && e in t.instances[n].sessions
    ensures SessionChange(s, Apply(s, step), n, e)
  {
    if step.OpenInMemory? {
      OpenChangesSessions(s, step.q, n, e);
    } else if step.Conclude? {
      ConcludeChangesSessions(s, step.x, n, e);
    }
  }

  lemma SessionsKept(s: State, t: State)
    requires SessionInv(s) && Later(s, t)
    requires forall n, e :: n in t.instances && e in t.instances[n].sessions ==> SessionChange(s, t, n, e)
    ensures SessionInv(t)
  {
    forall n | n in t.instances ensures SessionsBacked(t, n) {
      forall e | e in t.instances[n].sessions ensures Backed(t, n, e, t.instances[n].sessions[e]) {
        assert SessionChange(s, t, n, e);
        assert SessionsBacked(s, n);
        if Backed(s, n, e, t.instances[n].sessions[e]) { BackedLater(s, t, n, e, t.instances[n].sessions[e]); }
      }
    }
  }

  lemma StepKeeps(s: State, step: Step)
    requires Inv(s)
    ensures Inv(Apply(s, step))
  {
    var t := Apply(s, step);
    StepIsLater(s, step);
    HistoryKept(s, t, step);
    LinksKept(s, t, step);
    StepChangesStore(s, step);
    StoreKept(s, t);
    forall n, e | n in t.instances && e in t.instances[n].sessions ensures SessionChange(s, t, n, e) {
      StepChangesSessions(s, step, n, e);
    }
    SessionsKept(s, t);
  }

  lemma {:induction false} Reachable(s0: State, steps: seq<Step>)
    requires Init(s0)
    ensures Inv(After(s0, steps))
  {
    if steps != [] {
      Reachable(s0, steps[..|steps| - 1]);
      StepKeeps(After(s0, steps[..|steps| - 1]), steps[|steps| - 1]);
    }
  }

  // ---- Accepted pushes ------------------------------------------------------------------------

  datatype Acceptance = Acceptance(link: Link, subject: string, hash: string)

  /** The push `step` accepts in `s`, if it accepts one. */
  function Accepted(s: State, step: Step): Option<Acceptance> {
    match step
    case Arrive(_, n, c, hash) =>
      var outcome := ArriveOutcome(s, n, c, hash);
      if outcome.Some? && outcome.value.Ok?
      then Some(Acceptance(Link(n, c, s.instances[n].connections[c]), outcome.value.value, hash)) else None
    case Conclude(x) =>
      var outcome := ConcludeOutcome(s, x);
      if outcome.Some? && outcome.value.Ok?
      then Some(Acceptance(s.pushes[x].link, outcome.value.value, s.pushes[x].hash)) else None
    case _ => None
  }

  ghost predicate OpenedWithinTtl(s: State, n: nat, g: Grant)
    requires n in s.instances
  {
    exists i :: i in s.installs && i.grant == g && i.at <= s.now < i.at + s.instances[n].cfg.ttl * SECOND
  }

  /** `g`'s session is live on instance `n`: within the TTL of being opened there, or, read back from its record,
      less than a second past the record's `expiresAt`. */
  ghost predicate LiveOn(s: State, n: nat, g: Grant)
    requires n in s.instances
  {
    || (g.node == n && OpenedWithinTtl(s, n, g))
    || s.now < (g.ExpiresAt() + 1) * SECOND
  }

  /** What an acceptance rests on. */
  ghost predicate RestsOn(s: State, a: Acceptance, g: Grant)
    requires a.link.node in s.instances
  {
    && g in s.grants && g.at <= s.now && g.endpoint == a.link.endpoint && Canonical(g.sub) == a.subject
    && LiveOn(s, a.link.node, g)
    && (s.instances[a.link.node].cfg.mode == Pdp ==>
          g.chain.Some? && Person(StripTokens(g.chain.value)) == Some(g.sub) && Permits(g.answer, g.sub))
  }

  /** A grant some request opened a session for, which is the last thing it does before it answers. */
  ghost predicate WasOpened(s: State, g: Grant) {
    exists i :: i in s.installs && i.grant == g
  }

  /** A grant behind an acceptance, and how its session got to the instance: a request opened it, or its record was
      read while it was good. */
  ghost predicate Behind(s: State, a: Acceptance, g: Grant)
    requires a.link.node in s.instances
  {
    RestsOn(s, a, g) && (WasOpened(s, g) || (OnFile(s, g) && s.now < (g.ExpiresAt() + 1) * SECOND))
  }

  lemma LiveSessionRests(s: State, a: Acceptance, session: Session)
    requires HistoryInv(s) && a.link.node in s.instances && Backed(s, a.link.node, a.link.endpoint, session)
    requires session.expires > s.now && Judge(s.instances[a.link.node], session, a.hash) == Ok(a.subject)
    ensures exists g :: Behind(s, a, g)
  {
    var n, e := a.link.node, a.link.endpoint;
    if OpenedHere(s, n, e, session) {
      var i :| i in s.installs && i.grant in s.grants && i.grant.node == n && i.at <= s.now
        && n in s.instances && session.expires == i.at + s.instances[n].cfg.ttl * SECOND && SessionOf(i.grant, e, session);
      assert GrantOk(i.grant);
      assert Behind(s, a, i.grant);
    } else {
      var g :| g in s.grants && OnFile(s, g) && SessionOf(g, e, session)
        && session.expires < (g.ExpiresAt() + 1) * SECOND;
      assert GrantOk(g);
      assert Behind(s, a, g);
    }
  }

  lemma ReadSessionRests(s: State, x: nat, a: Acceptance)
    requires HistoryInv(s) && StoreInv(s) && Accepted(s, Conclude(x)) == Some(a)
    ensures exists g :: Behind(s, a, g)
  {
    var cfg, body := s.instances[a.link.node].cfg, s.pushes[x].fetched.value;
    ConcludedIsBacked(s, x);
    var g :| g in s.grants && body.value.record == g.Record();
    ReadBackIsBounded(cfg, a.link.endpoint, body, s.now, g);
    FetchedIsSealed(s, x);
    assert GrantOk(g) && OnFile(s, g);
    assert Behind(s, a, g);
  }

  lemma FetchedIsSealed(s: State, x: nat)
    requires StoreInv(s) && Accepted(s, Conclude(x)).Some?
    ensures s.pushes[x].fetched.value.Some? && s.pushes[x].fetched.value.value in s.sealed
    ensures s.pushes[x].fetched.value.value.Sealed?
  {
    var body := s.pushes[x].fetched.value.value;
    assert s.instances[s.pushes[x].link.node].cfg.key == Some(body.key);
    assert NodeKey(s, body.key) && Genuine(s, body);
  }

  lemma AcceptanceRests(s: State, step: Step, a: Acceptance)
    requires Inv(s) && Accepted(s, step) == Some(a)
    ensures a.link in s.links && a.link.node in s.instances && exists g :: Behind(s, a, g)
    ensures Canonical(a.subject) !in s.instances[a.link.node].suspended
    ensures a.hash !in s.instances[a.link.node].blocked
  {
    if step.Arrive? {
      var session := HeldSession(s.instances[a.link.node].sessions, a.link.endpoint, s.now).value;
      assert SessionsBacked(s, a.link.node);
      LiveSessionRests(s, a, session);
    } else {
      ReadSessionRests(s, step.x, a);
    }
  }

  /** In every run on any number of instances, every accepted push comes from a connection of the endpoint of an
      earlier authorised request for that same subject, while that session is live on the instance; the subject is
      not suspended and the hash not blocked in the instance's view. On a `pdp` instance the decision service
      permitted that very request, for a chain whose person is its subject. */
  lemma AcceptedPushRestsOnAGrant(s0: State, steps: seq<Step>, step: Step)
    requires Init(s0) && Accepted(After(s0, steps), step).Some?
    ensures var s, a := After(s0, steps), Accepted(After(s0, steps), step).value;
      && a.link in s.links && a.link.node in s.instances
      && (exists g :: RestsOn(s, a, g))
      && Canonical(a.subject) !in s.instances[a.link.node].suspended
      && a.hash !in s.instances[a.link.node].blocked
  {
    hide Inv, Init, After, Accepted, RestsOn;
    Reachable(s0, steps);
    var s, a := After(s0, steps), Accepted(After(s0, steps), step).value;
    AcceptanceRests(s, step, a);
    var g :| Behind(s, a, g);
  }

  /** No chain of read-backs stretches a session: in every reachable state a session that a request opened lasts its
      TTL from then, and any other, on whichever instance, ends less than its TTL and one second after it was
      authorised. */
  lemma ReadBacksDoNotExtend(s0: State, steps: seq<Step>, n: nat, e: string)
    requires Init(s0)
    requires n in After(s0, steps).instances && e in After(s0, steps).instances[n].sessions
    ensures var s := After(s0, steps);
      var session := s.instances[n].sessions[e];
      || OpenedHere(s, n, e, session)
      || exists g :: g in s.grants && SessionOf(g, e, session) && session.expires < g.at + (g.ttl + 1) * SECOND
  {
    hide Init, Apply;
    Reachable(s0, steps);
    var s := After(s0, steps);
    assert SessionsBacked(s, n) && Backed(s, n, e, s.instances[n].sessions[e]);
    if g :| g in s.grants && OnFile(s, g) && SessionOf(g, e, s.instances[n].sessions[e])
            && s.instances[n].sessions[e].expires < (g.ExpiresAt() + 1) * SECOND {
      assert g.at / SECOND * SECOND <= g.at;
    }
  }

  // ---- Requests that were answered ------------------------------------------------------------

  /** Every record on file is that of a request that went on to open its session: none was cut off, or is still
      under way, between the two. */
  ghost predicate Settled(s: State) {
    forall b :: b in s.sealed ==> b.Sealed? && exists i :: i in s.installs && i.grant.Record() == b.record
  }

  lemma SameRecordRests(s: State, a: Acceptance, g: Grant, h: Grant)
    requires HistoryInv(s) && a.link.node in s.instances && RestsOn(s, a, g) && s.now < (g.ExpiresAt() + 1) * SECOND
    requires h in s.grants && h.Record() == g.Record()
    ensures RestsOn(s, a, h)
  {
    assert GrantOk(h);
  }

  lemma SettledRests(s: State, step: Step, a: Acceptance)
    requires Inv(s) && Settled(s) && Accepted(s, step) == Some(a)
    ensures a.link.node in s.instances && exists i :: i in s.installs && RestsOn(s, a, i.grant)
  {
    hide Accepted, RestsOn;
    AcceptanceRests(s, step, a);
    var g :| Behind(s, a, g);
    if WasOpened(s, g) {
      var i :| i in s.installs && i.grant == g;
    } else {
      var b :| b in s.sealed && b.Sealed? && b.record == g.Record();
      var i :| i in s.installs && i.grant.Record() == b.record;
      SameRecordRests(s, a, g, i.grant);
    }
  }

  /** While no record is left behind by a request that did not finish, every accepted push rests on a session that a
      request opened before it answered. */
  lemma SettledPushRestsOnAnOpenedSession(s0: State, steps: seq<Step>, step: Step)
    requires Init(s0) && Settled(After(s0, steps)) && Accepted(After(s0, steps), step).Some?
    ensures var s, a := After(s0, steps), Accepted(After(s0, steps), step).value;
      a.link.node in s.instances && exists i :: i in s.installs && RestsOn(s, a, i.grant)
  {
    hide *;
    Reachable(s0, steps);
    var s := After(s0, steps);
    SettledRests(s, step, Accepted(s, step).value);
  }

  /** A record on file that no request opened a session for. */
  ghost predicate Stray(s: State, b: Body) {
    b in s.sealed && b.Sealed? && forall i :: i in s.installs ==> i.grant.Record() != b.record
  }

  /** An instance that would accept a push on the strength of this record. */
  predicate Admits(inst: Instance, b: Body, now: nat) {
    && b.Sealed? && inst.cfg.key == Some(b.key) && now / SECOND < b.record.expiresAt
    && DecidedSession(inst.cfg.mode, Canonical(b.record.subject), b.record.chain)
  }

  ghost predicate NoStrayAdmitted(s: State) {
    forall b, n :: Stray(s, b) && n in s.instances ==> !Admits(s.instances[n], b, s.now)
  }

  /** The push concluded by the record read back is one whose request opened its session. */
  ghost predicate ReadOpened(s: State, x: nat) {
    && x in s.pushes && s.pushes[x].fetched.Some? && s.pushes[x].fetched.value.Some?
    && s.pushes[x].fetched.value.value.Sealed?
    && exists i :: i in s.installs && i.grant.Record() == s.pushes[x].fetched.value.value.record
  }

  predicate NoRecordWritten(steps: seq<Step>) {
    forall i :: 0 <= i < |steps| ==> !steps[i].StoreRecord?
  }

  lemma OnlyStoreRecordSeals(s: State, step: Step)
    requires !step.StoreRecord?
    ensures Apply(s, step).sealed == s.sealed
  {
  }

  lemma {:induction false} RunIsLater(s: State, steps: seq<Step>)
    requires Inv(s) && NoRecordWritten(steps)
    ensures var t := After(s, steps); Inv(t) && Later(s, t) && t.sealed == s.sealed
  {
    hide Inv, Apply;
    if steps != [] {
      var before, last := steps[..|steps| - 1], steps[|steps| - 1];
      RunIsLater(s, before);
      var t := After(s, before);
      StepKeeps(t, last);
      StepIsLater(t, last);
      OnlyStoreRecordSeals(t, last);
    }
  }

  lemma NoStrayLater(s: State, t: State)
    requires NoStrayAdmitted(s) && Later(s, t) && t.sealed == s.sealed
    ensures NoStrayAdmitted(t)
  {
    forall b, n | Stray(t, b) && n in t.instances ensures !Admits(t.instances[n], b, t.now) {
      assert Stray(s, b) && n in s.instances;
      assert s.now / SECOND <= t.now / SECOND;
    }
  }

  lemma ReadIsOpened(s: State, x: nat)
    requires Inv(s) && NoStrayAdmitted(s) && Accepted(s, Conclude(x)).Some?
    ensures ReadOpened(s, x)
  {
    FetchedIsSealed(s, x);
    var body, n := s.pushes[x].fetched.value.value, s.pushes[x].link.node;
    assert Admits(s.instances[n], body, s.now);
    assert !Stray(s, body);
  }

  /** A record put in the store, and a push on a restarted instance that suspends and blocks nothing. */
  function Probe(n: nat, x: nat, b: Body): seq<Step>
    requires b.Sealed?
  {
    [Restart(n), Moderate(n, {}, {}), Forge(b.record.endpoint, b), Connect(n, 0, b.record.endpoint), Arrive(x, n, 0, ""),
     Fetch(x, false)]
  }

  lemma AfterPrefix(s: State, steps: seq<Step>, i: nat)
    requires i < |steps|
    ensures After(s, steps[..i + 1]) == Apply(After(s, steps[..i]), steps[i])
  {
    assert steps[..i + 1][..i] == steps[..i];
  }

  lemma Prepared(s: State, n: nat, b: Body)
    requires n in s.instances && b in s.sealed && b.Sealed?
    ensures var inst := s.instances[n].(sessions := map[], connections := map[0 := b.record.endpoint], suspended := {},
                                        blocked := {});
      var t := Apply(Apply(Apply(Apply(s, Restart(n)), Moderate(n, {}, {})), Forge(b.record.endpoint, b)),
                     Connect(n, 0, b.record.endpoint));
      && n in t.instances && t.instances[n] == inst && b.record.endpoint in t.store && t.store[b.record.endpoint] == b
      && t.pushes == s.pushes && t.now == s.now && t.installs == s.installs
  {
    hide PublisherWithChain, ReadBack, Judge;
  }

  lemma Asked(s: State, n: nat, x: nat, b: Body)
    requires n in s.instances && x !in s.pushes && b.Sealed? && b.record.endpoint in s.store
    requires s.store[b.record.endpoint] == b && s.instances[n].connections == map[0 := b.record.endpoint]
    requires s.instances[n].sessions == map[] && s.instances[n].suspended == {} && s.instances[n].blocked == {}
    ensures var t := Apply(Apply(s, Arrive(x, n, 0, "")), Fetch(x, false));
      && t.instances == s.instances && t.now == s.now && t.installs == s.installs
      && x in t.pushes && t.pushes[x] == Push(Link(n, 0, b.record.endpoint), "", Some(Some(b)))
  {
    hide PublisherWithChain, ReadBack, Judge;
  }

  lemma ProbeIs(s: State, n: nat, x: nat, b: Body)
    requires b.Sealed?
    ensures After(s, Probe(n, x, b)) ==
      Apply(Apply(Apply(Apply(Apply(Apply(s, Restart(n)), Moderate(n, {}, {})), Forge(b.record.endpoint, b)),
                              Connect(n, 0, b.record.endpoint)), Arrive(x, n, 0, "")), Fetch(x, false))
  {
    hide Apply;
    var all := Probe(n, x, b);
    AfterPrefix(s, all, 0);
    AfterPrefix(s, all, 1);
    AfterPrefix(s, all, 2);
    AfterPrefix(s, all, 3);
    AfterPrefix(s, all, 4);
    AfterPrefix(s, all, 5);
    assert all[..0] == [] && all[..6] == all;
  }

  lemma StrayIsAccepted(s: State, n: nat, x: nat, b: Body)
    requires n in s.instances && x !in s.pushes && Stray(s, b) && Admits(s.instances[n], b, s.now)
    ensures NoRecordWritten(Probe(n, x, b))
    ensures var t := After(s, Probe(n, x, b)); Accepted(t, Conclude(x)).Some? && !ReadOpened(t, x)
  {
    hide Apply, After;
    ProbeIs(s, n, x, b);
    Prepared(s, n, b);
    var ready := Apply(Apply(Apply(Apply(s, Restart(n)), Moderate(n, {}, {})), Forge(b.record.endpoint, b)),
                       Connect(n, 0, b.record.endpoint));
    Asked(ready, n, x, b);
  }

  lemma FreshPush(s: State) returns (x: nat)
    ensures x !in s.pushes
  {
    var top := 0;
    var rest := s.pushes.Keys;
    while rest != {}
      invariant rest <= s.pushes.Keys && forall y :: y in s.pushes && y !in rest ==> y < top
      decreases rest
    {
      var y :| y in rest;
      rest := rest - {y};
      if top <= y { top := y + 1; }
    }
    x := top;
  }

  /** From any reachable state, as long as no further record is written, every push that a read-back lets in rests on a
      session that its request opened, exactly when no instance would admit a stray record now. */
  lemma ReadBackRestsOnAnOpenedSessionExactlyWhen(s0: State, steps: seq<Step>)
    requires Init(s0)
    ensures var s := After(s0, steps);
      (forall more, x :: NoRecordWritten(more) && Accepted(After(s, more), Conclude(x)).Some? ==>
         ReadOpened(After(s, more), x)) <==> NoStrayAdmitted(s)
  {
    hide Init, Apply, Inv, Accepted, ReadOpened, NoRecordWritten, Admits, Stray;
    Reachable(s0, steps);
    var s := After(s0, steps);
    if NoStrayAdmitted(s) {
      forall more, x | NoRecordWritten(more) && Accepted(After(s, more), Conclude(x)).Some?
        ensures ReadOpened(After(s, more), x)
      {
        RunIsLater(s, more);
        NoStrayLater(s, After(s, more));
        ReadIsOpened(After(s, more), x);
      }
    } else {
      var b, n :| Stray(s, b) && n in s.instances && Admits(s.instances[n], b, s.now);
      var x := FreshPush(s);
      StrayIsAccepted(s, n, x, b);
    }
  }

  // ---- Sessions travel between instances ------------------------------------------------------

  /** A session opened and stored on one instance, its request cut off before it answered, then a push on another
      instance of an endpoint that instance holds no session for. */
  function Travel(s: State, authorise: Step, arrive: Step): State
    requires authorise.Authorise? && arrive.Arrive?
  {
    Apply(Apply(Apply(Apply(Apply(s, authorise), StoreRecord(authorise.q, true)), Abandon(authorise.q)), arrive),
          Fetch(arrive.x, false))
  }

  lemma StoredSession(s: State, q: nat, n: nat, endpoint: string, claims: Claims, token: string,
                      devices: seq<DeviceToken>, answer: Answer)
    requires n in s.instances && q !in s.requests && s.instances[n].cfg.key.Some?
    requires var inst := s.instances[n];
      PublisherWithChain(inst.cfg, Canonical(claims.sub) in inst.suspended, claims, token, devices, answer).Ok?
    ensures var inst := s.instances[n];
      var suspended := Canonical(claims.sub) in inst.suspended;
      var chain := PublisherWithChain(inst.cfg, suspended, claims, token, devices, answer).value;
      var grant := Grant(n, endpoint, claims.sub, chain, answer, s.now, inst.cfg.ttl);
      var authorised := Apply(s, Authorise(q, n, endpoint, claims, token, devices, answer));
      var t := Apply(Apply(authorised, StoreRecord(q, true)), Abandon(q));
      && t.store == s.store[endpoint := Sealed(inst.cfg.key.value, grant.Record())]
      && t.instances == s.instances && t.pushes == s.pushes && t.now == s.now && t.installs == s.installs
  {
  }

  lemma FetchedSession(s: State, x: nat, m: nat, c: nat, hash: string)
    requires m in s.instances && c in s.instances[m].connections && x !in s.pushes
    requires s.instances[m].connections[c] in s.store
    requires HeldSession(s.instances[m].sessions, s.instances[m].connections[c], s.now).None?
    ensures var t := Apply(Apply(s, Arrive(x, m, c, hash)), Fetch(x, false));
      var endpoint := s.instances[m].connections[c];
      && t.instances == s.instances && t.now == s.now && t.installs == s.installs
      && x in t.pushes && t.pushes[x] == Push(Link(m, c, endpoint), hash, Some(Some(s.store[endpoint])))
  {
  }

  /** A record is enough: an instance with the same key accepts the push, although no instance ever held the
      session in memory and its request never answered. So "opened by an earlier request" cannot be sharpened to
      "by a request that was answered". */
  lemma SessionTravels(s: State, authorise: Step, arrive: Step)
    requires authorise.Authorise? && arrive.Arrive?
    requires authorise.node in s.instances && authorise.q !in s.requests && arrive.x !in s.pushes
    requires arrive.node in s.instances && s.instances[arrive.node].cfg.key == s.instances[authorise.node].cfg.key
    requires s.instances[authorise.node].cfg.key.Some? && s.instances[authorise.node].cfg.ttl > 0
    requires var inst, claims := s.instances[authorise.node], authorise.claims;
      var decided := PublisherWithChain(inst.cfg, Canonical(claims.sub) in inst.suspended, claims, authorise.token,
                                        authorise.devices, authorise.answer);
      decided.Ok? && DecidedSession(s.instances[arrive.node].cfg.mode, Canonical(claims.sub), StripOption(decided.value))
    requires var inst := s.instances[arrive.node];
      && arrive.connection in inst.connections && inst.connections[arrive.connection] == authorise.endpoint
      && HeldSession(inst.sessions, authorise.endpoint, s.now).None?
      && Canonical(Canonical(authorise.claims.sub)) !in inst.suspended && arrive.hash !in inst.blocked
    ensures var t := Travel(s, authorise, arrive);
      && Accepted(t, Conclude(arrive.x))
         == Some(Acceptance(Link(arrive.node, arrive.connection, authorise.endpoint), Canonical(authorise.claims.sub),
                            arrive.hash))
      && t.installs == s.installs && t.instances == s.instances
  {
    StoredSession(s, authorise.q, authorise.node, authorise.endpoint, authorise.claims, authorise.token,
                  authorise.devices, authorise.answer);
    var stored := Apply(Apply(Apply(s, authorise), StoreRecord(authorise.q, true)), Abandon(authorise.q));
    FetchedSession(stored, arrive.x, arrive.node, arrive.connection, arrive.hash);
  }

  // ---- Subjects with a doubled prefix ---------------------------------------------------------

  /** In `pdp` a permitted session of a subject is accepted exactly when its prefix is not doubled. */
  lemma PdpAndDoubledPrefix(sub: string, chain: seq<StoredEntity>)
    requires Person(chain) == Some(sub)
    ensures DecidedSession(Pdp, Canonical(sub), Some(chain)) <==> !(ARKAVO + ARKAVO <= sub)
  {
    CanonicalSettles(sub);
  }

  /** A session is stopped by a suspension of its subject's canonical form taken once more. So suspending a subject by
      its own name stops its sessions' pushes exactly when its prefix is not doubled, unless the shorter name is
      suspended too. */
  lemma SuspensionAndDoubledPrefix(inst: Instance, sub: string, expires: nat, chain: Option<seq<StoredEntity>>, hash: string)
    ensures Judge(inst, Session(Canonical(sub), expires, chain), hash) == Err(SubjectSuspended)
            <==> Canonical(Canonical(sub)) in inst.suspended
    ensures Canonical(sub) in inst.suspended && Canonical(Canonical(sub)) !in inst.suspended ==> ARKAVO + ARKAVO <= sub
    ensures !(ARKAVO + ARKAVO <= sub) ==>
            (Judge(inst, Session(Canonical(sub), expires, chain), hash) == Err(SubjectSuspended)
             <==> Canonical(sub) in inst.suspended)
  {
    CanonicalSettles(sub);
  }
}
