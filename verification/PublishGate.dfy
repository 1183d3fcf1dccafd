/** The creator publishing gate: publish sessions, their sealed records in a shared session store, and the pushes
    they admit, on any number of node instances.

    Requests, store calls and pushes of all instances interleave freely. A store call may fail, a record write may
    take effect and still be reported as failed, a request or a push may stop between any two steps, an instance
    may restart, its moderation view may change at any time, and anyone with write access to the session store may
    put anything there that does not need an instance's key to make. Time is in nanoseconds. */
module PublishGate {
  import opened Wrappers
  import opened M = CatalogMetadata

  const SECOND := 1_000_000_000

  // ---- Subjects -------------------------------------------------------------------------------

  const ARKAVO := "arkavo:"

  /** `canonical_subject`: one leading `arkavo:` is dropped. */
  function Canonical(subject: string): string {
    if ARKAVO <= subject then subject[|ARKAVO|..] else subject
  }

  /** Canonical form is not idempotent: it settles after one step exactly when the prefix is not doubled. */
  lemma CanonicalSettles(subject: string)
    ensures Canonical(Canonical(subject)) == Canonical(subject) <==> !(ARKAVO + ARKAVO <= subject)
  {
    if ARKAVO <= subject {
      assert subject == ARKAVO + subject[|ARKAVO|..];
      if ARKAVO <= subject[|ARKAVO|..] {
        assert subject[|ARKAVO|..] == ARKAVO + subject[2 * |ARKAVO|..];
        assert subject == ARKAVO + ARKAVO + subject[2 * |ARKAVO|..];
        assert |Canonical(Canonical(subject))| < |Canonical(subject)|;
      }
    }
  }

  // ---- Entity chains and the publish decision -------------------------------------------------

  datatype EntityKind = Subject | Device | Environment

  datatype ChainEntity = ChainEntity(kind: EntityKind, token: Option<string>, claims: Json)

  datatype StoredEntity = StoredEntity(kind: EntityKind, claims: Json)

  /** The claims of a verified person token. `extra` holds the forwarded claims other than `sub`. */
  datatype Claims = Claims(sub: string, entitlements: set<string>, extra: map<string, Json>)

  /** A presented device token, as verification finds it. */
  datatype DeviceToken = DeviceToken(valid: bool, sub: string, text: string, claims: Json)

  const MAX_CHAIN_ENTITIES := 8

  function SubjectEntity(claims: Claims, token: string): ChainEntity {
    ChainEntity(Subject, Some(token), Obj(claims.extra["sub" := Str(claims.sub)]))
  }

  /** `verified_devices`: every device verifies and is bound to the person, or there is no chain. */
  function VerifiedDevices(devices: seq<DeviceToken>, sub: string): Option<seq<ChainEntity>> {
    if devices == [] then Some([])
    else
      var d, rest := devices[0], VerifiedDevices(devices[1..], sub);
      if !d.valid || Canonical(d.sub) != Canonical(sub) || rest.None? then None
      else Some([ChainEntity(Device, Some(d.text), d.claims)] + rest.value)
  }

  function Chain(claims: Claims, token: string, devices: seq<DeviceToken>, environment: Option<Json>)
    : Option<seq<ChainEntity>>
  {
    if 1 + |devices| + (if environment.Some? then 1 else 0) > MAX_CHAIN_ENTITIES then None
    else
      var verified := VerifiedDevices(devices, claims.sub);
      if verified.None? then None
      else
        Some([SubjectEntity(claims, token)] + verified.value
             + if environment.Some? then [ChainEntity(Environment, None, environment.value)] else [])
  }

  function StripTokens(chain: seq<ChainEntity>): (stored: seq<StoredEntity>)
    ensures |stored| == |chain|
    ensures forall i :: 0 <= i < |chain| ==> stored[i] == StoredEntity(chain[i].kind, chain[i].claims)
  {
    if chain == [] then []
    else [StoredEntity(chain[0].kind, chain[0].claims)] + StripTokens(chain[1..])
  }

  function StripOption(chain: Option<seq<ChainEntity>>): Option<seq<StoredEntity>> {
    if chain.Some? then Some(StripTokens(chain.value)) else None
  }

  /** The `sub` claim of the first person in a stored chain. */
  function Person(chain: seq<StoredEntity>): Option<string> {
    if chain == [] then None
    else if chain[0].kind == Subject then chain[0].claims.GetStr("sub")
    else Person(chain[1..])
  }

  datatype Mode = Local | Shadow | Pdp

  datatype Verdict = Permitted | Denied | Unavailable

  /** What the decision service answers when asked: nothing, or a decision per resource. */
  datatype Answer = NoAnswer | Decisions(decisions: map<string, bool>)

  /** `PublishDecider::ask`. */
  function Ask(provider: bool, chain: seq<ChainEntity>, answer: Answer): Verdict {
    var sub := Person(StripTokens(chain));
    if !provider || sub.None? || answer.NoAnswer? then Unavailable
    else if sub.value in answer.decisions && answer.decisions[sub.value] then Permitted
    else Denied
  }

  /** An instance's settings. `ttl` is in seconds. */
  datatype Config = Config(mode: Mode, ttl: nat, entitlement: Option<string>, provider: bool,
                           environment: Option<Json>, key: Option<string>)

  datatype Refusal = ServiceToken | Suspended | NotEntitled | ChainRefused | NotPermitted | DecisionUnavailable

  /** `publisher_with_chain`, after the token verified: the chain to keep with the session, if any. */
  function PublisherWithChain(cfg: Config, suspended: bool, claims: Claims, token: string,
                              devices: seq<DeviceToken>, answer: Answer): Result<Option<seq<ChainEntity>>, Refusal>
  {
    if "client:" <= claims.sub then Err(ServiceToken)
    else if suspended && cfg.mode != Shadow then Err(Suspended)
    else
      var local := if suspended then Some(Suspended)
                   else if cfg.entitlement.Some? && cfg.entitlement.value !in claims.entitlements then Some(NotEntitled)
                   else None;
      var chain := Chain(claims, token, devices, cfg.environment);
      match cfg.mode
      case Local => if local.Some? then Err(local.value) else Ok(None)
      case Shadow =>
        if local.Some? then Err(local.value)
        else if chain.Some? && Ask(cfg.provider, chain.value, answer) == Permitted then Ok(chain)
        else Ok(None)
      case Pdp =>
        if chain.None? then Err(ChainRefused)
        else
          match Ask(cfg.provider, chain.value, answer)
          case Permitted => Ok(chain)
          case Denied => Err(NotPermitted)
          case Unavailable => Err(DecisionUnavailable)
  }

  predicate Permits(answer: Answer, sub: string) {
    answer.Decisions? && sub in answer.decisions && answer.decisions[sub]
  }

  predicate LocallyEntitled(cfg: Config, claims: Claims) {
    cfg.entitlement.None? || cfg.entitlement.value in claims.entitlements
  }

  /** Who decides: `local` and `shadow` admit exactly the unsuspended, entitled persons; `pdp` exactly the
      unsuspended persons with a valid chain that the decision service permits. A chain is kept exactly when the
      decision service was asked and permitted, and its person is then the token's subject. */
  lemma WhoDecides(cfg: Config, suspended: bool, claims: Claims, token: string, devices: seq<DeviceToken>, answer: Answer)
    ensures var r := PublisherWithChain(cfg, suspended, claims, token, devices, answer);
      var chain := Chain(claims, token, devices, cfg.environment);
      var permitted := cfg.provider && chain.Some? && Permits(answer, claims.sub);
      && (r.Ok? <==> !("client:" <= claims.sub) && !suspended
                     && if cfg.mode == Pdp then permitted else LocallyEntitled(cfg, claims))
      && (r.Ok? ==> (r.value.Some? <==> cfg.mode != Local && permitted))
      && (r.Ok? && r.value.Some? ==> r.value == chain && Person(StripTokens(chain.value)) == Some(claims.sub))
  {
    var chain := Chain(claims, token, devices, cfg.environment);
    if chain.Some? {
      var stored := StripTokens(chain.value);
      assert stored[0] == StoredEntity(Subject, SubjectEntity(claims, token).claims);
      assert Person(stored) == Some(claims.sub);
    }
  }

  // ---- Session records ------------------------------------------------------------------------

  /** `expiresAt` is in whole seconds. */
  datatype SessionRecord =
    SessionRecord(endpoint: string, subject: string, expiresAt: int, chain: Option<seq<StoredEntity>>)

  /** What the session store holds. The keyed tag is ideal: only a holder of `key` makes `Sealed(key, _)`. */
  datatype Body = Sealed(key: string, record: SessionRecord) | Junk(text: string)

  function Unseal(key: Option<string>, body: Body): Option<SessionRecord> {
    if key.Some? && body.Sealed? && body.key == key.value then Some(body.record) else None
  }

  // ---- Sessions held in memory ----------------------------------------------------------------

  datatype Session = Session(subject: string, expires: nat, chain: Option<seq<StoredEntity>>)

  datatype Instance = Instance(
    cfg: Config,
    sessions: map<string, Session>,
    connections: map<nat, string>,
    suspended: set<string>,
    blocked: set<string>)

  /** `open_session_with_chain`: expired sessions go, the new one replaces the endpoint's. */
  function OpenSession(sessions: map<string, Session>, endpoint: string, subject: string, now: nat, ttl: nat,
                       chain: Option<seq<StoredEntity>>): map<string, Session>
  {
    (map e | e in sessions && sessions[e].expires > now :: sessions[e])
      [endpoint := Session(Canonical(subject), now + ttl, chain)]
  }

  function HeldSession(sessions: map<string, Session>, endpoint: string, now: nat): Option<Session> {
    if endpoint in sessions && sessions[endpoint].expires > now then Some(sessions[endpoint]) else None
  }

  datatype PushRefusal = NoSession | SubjectSuspended | Blocked

  /** `decided_session`. */
  predicate DecidedSession(mode: Mode, subject: string, chain: Option<seq<StoredEntity>>) {
    mode == Pdp ==>
      && chain.Some?
      && var person := Person(chain.value);
         person.Some? && Canonical(person.value) == Canonical(subject)
  }

  /** What a push with a session still has to pass. */
  function Judge(inst: Instance, session: Session, hash: string): Result<string, PushRefusal> {
    if Canonical(session.subject) in inst.suspended then Err(SubjectSuspended)
    else if hash in inst.blocked then Err(Blocked)
    else if !DecidedSession(inst.cfg.mode, session.subject, session.chain) then Err(NoSession)
    else Ok(session.subject)
  }

  function Min(a: nat, b: nat): nat {
    if a < b then a else b
  }

  /** `look_up` with the body the store answered: the session it opens. */
  function ReadBack(cfg: Config, endpoint: string, body: Option<Body>, now: nat): Option<Session> {
    var record := if body.Some? then Unseal(cfg.key, body.value) else None;
    if record.None? then None
    else
      var left := record.value.expiresAt - now / SECOND;
      if record.value.endpoint != endpoint || left <= 0 then None
      else Some(Session(Canonical(record.value.subject), now + Min(left * SECOND, cfg.ttl * SECOND), record.value.chain))
  }

  // ---- What happens on one instance -----------------------------------------------------------

  function Connected(inst: Instance, connection: nat, endpoint: string): Instance {
    inst.(connections := inst.connections[connection := endpoint])
  }

  function Closed(inst: Instance, connection: nat): Instance {
    inst.(connections := inst.connections - {connection})
  }

  /** A request's session opened for the instance's TTL. */
  function Opened(inst: Instance, endpoint: string, subject: string, chain: Option<seq<StoredEntity>>, now: nat): Instance {
    inst.(sessions := OpenSession(inst.sessions, endpoint, subject, now, inst.cfg.ttl * SECOND, chain))
  }

  /** A push answered at once: from memory, or because its connection is unknown. */
  function Arrived(inst: Instance, connection: nat, hash: string, now: nat): Option<Result<string, PushRefusal>> {
    if connection !in inst.connections then Some(Err(NoSession))
    else
      var held := HeldSession(inst.sessions, inst.connections[connection], now);
      if held.Some? then Some(Judge(inst, held.value, hash)) else None
  }

  /** What the store's answer does to the instance, and how the push that asked is answered. */
  function Concluded(inst: Instance, endpoint: string, answer: Option<Body>, now: nat): Instance {
    var found := ReadBack(inst.cfg, endpoint, answer, now);
    if found.None? then inst
    else inst.(sessions := OpenSession(inst.sessions, endpoint, answer.value.record.subject, now, found.value.expires - now,
                                       found.value.chain))
  }

  function Conclusion(inst: Instance, endpoint: string, answer: Option<Body>, hash: string, now: nat)
    : Result<string, PushRefusal>
  {
    var found := ReadBack(inst.cfg, endpoint, answer, now);
    if found.None? then Err(NoSession) else Judge(inst, found.value, hash)
  }

  // ---- The protocol ---------------------------------------------------------------------------

  /** A request that passed every check of `POST /publish/sessions`, and what the decision service answered. */
  datatype Grant = Grant(node: nat, endpoint: string, sub: string, chain: Option<seq<ChainEntity>>, answer: Answer,
                         at: nat, ttl: nat)
  {
    function ExpiresAt(): int {
      at / SECOND + ttl
    }

    function Record(): SessionRecord {
      SessionRecord(endpoint, sub, ExpiresAt(), StripOption(chain))
    }
  }

  /** A grant's session put in an instance's memory. */
  datatype Install = Install(grant: Grant, at: nat)

  datatype Link = Link(node: nat, connection: nat, endpoint: string)

  datatype Push = Push(link: Link, hash: string, fetched: Option<Option<Body>>)

  /** `grants`, `installs`, `links` and `sealed` record what has happened; no step's effect depends on them except
      that `sealed` bounds what a forger can put into the store. */
  datatype State = State(
    now: nat,
    instances: map<nat, Instance>,
    store: map<string, Body>,
    requests: map<nat, Grant>,
    pushes: map<nat, Push>,
    grants: set<Grant>,
    installs: set<Install>,
    links: set<Link>,
    sealed: set<Body>)

  datatype Step =
    | Tick(elapsed: nat)
    | Moderate(node: nat, suspended: set<string>, blocked: set<string>)
    | Connect(node: nat, connection: nat, endpoint: string)
    | Close(node: nat, connection: nat)
    | Restart(node: nat)
    | Authorise(q: nat, node: nat, endpoint: string, claims: Claims, token: string, devices: seq<DeviceToken>,
                answer: Answer)
    | StoreRecord(q: nat, written: bool)
    | OpenInMemory(q: nat)
    | Abandon(q: nat)
    | Forge(endpoint: string, body: Body)
    | Arrive(x: nat, node: nat, connection: nat, hash: string)
    | Fetch(x: nat, failed: bool)
    | Conclude(x: nat)

  function SetInstance(s: State, n: nat, inst: Instance): State {
    s.(instances := s.instances[n := inst])
  }

  predicate NodeKey(s: State, key: string) {
    exists n :: n in s.instances && s.instances[n].cfg.key == Some(key)
  }

  function ArriveOutcome(s: State, n: nat, connection: nat, hash: string): Option<Result<string, PushRefusal>> {
    if n !in s.instances then None else Arrived(s.instances[n], connection, hash, s.now)
  }

  function ConcludeOutcome(s: State, x: nat): Option<Result<string, PushRefusal>> {
    if x !in s.pushes || s.pushes[x].fetched.None? || s.pushes[x].link.node !in s.instances then None
    else
      var push := s.pushes[x];
      Some(Conclusion(s.instances[push.link.node], push.link.endpoint, push.fetched.value, push.hash, s.now))
  }

  function Apply(s: State, step: Step): State {
    match step
    case Tick(elapsed) => s.(now := s.now + elapsed)
    case Moderate(n, suspended, blocked) =>
      if n in s.instances then SetInstance(s, n, s.instances[n].(suspended := suspended, blocked := blocked)) else s
    case Connect(n, connection, endpoint) =>
      if n !in s.instances then s
      else SetInstance(s, n, Connected(s.instances[n], connection, endpoint))
             .(links := s.links + {Link(n, connection, endpoint)})
    case Close(n, connection) =>
      if n in s.instances then SetInstance(s, n, Closed(s.instances[n], connection)) else s
    case Restart(n) =>
      if n in s.instances then SetInstance(s, n, s.instances[n].(sessions := map[], connections := map[])) else s
    case Authorise(q, n, endpoint, claims, token, devices, answer) =>
      if n !in s.instances || q in s.requests then s
      else
        var inst := s.instances[n];
        var decided :=
          PublisherWithChain(inst.cfg, Canonical(claims.sub) in inst.suspended, claims, token, devices, answer);
        if decided.Err? then s
        else
          var grant := Grant(n, endpoint, claims.sub, decided.value, answer, s.now, inst.cfg.ttl);
          s.(requests := s.requests[q := grant], grants := s.grants + {grant})
    case StoreRecord(q, written) =>
      if q !in s.requests || s.requests[q].node !in s.instances then s
      else
        var grant := s.requests[q];
        var key := s.instances[grant.node].cfg.key;
        if key.None? then s
        else
          var body := Sealed(key.value, grant.Record());
          s.(sealed := s.sealed + {body}, store := if written then s.store[grant.endpoint := body] else s.store)
    case OpenInMemory(q) =>
      if q !in s.requests || s.requests[q].node !in s.instances then s
      else
        var grant := s.requests[q];
        var inst := s.instances[grant.node];
        SetInstance(s, grant.node, Opened(inst, grant.endpoint, grant.sub, StripOption(grant.chain), s.now))
          .(requests := s.requests - {q}, installs := s.installs + {Install(grant, s.now)})
    case Abandon(q) => s.(requests := s.requests - {q})
    case Forge(endpoint, body) =>
      if body.Sealed? && NodeKey(s, body.key) && body !in s.sealed then s
      else s.(store := s.store[endpoint := body])
    case Arrive(x, n, connection, hash) =>
      if n !in s.instances || connection !in s.instances[n].connections || x in s.pushes
         || ArriveOutcome(s, n, connection, hash).Some? then s
      else s.(pushes := s.pushes[x := Push(Link(n, connection, s.instances[n].connections[connection]), hash, None)])
    case Fetch(x, failed) =>
      if x !in s.pushes || s.pushes[x].fetched.Some? then s
      else
        var endpoint := s.pushes[x].link.endpoint;
        var body := if failed || endpoint !in s.store then None else Some(s.store[endpoint]);
        s.(pushes := s.pushes[x := s.pushes[x].(fetched := Some(body))])
    case Conclude(x) =>
      if x !in s.pushes || s.pushes[x].fetched.None? || s.pushes[x].link.node !in s.instances then s
      else
        var push := s.pushes[x];
        var inst := Concluded(s.instances[push.link.node], push.link.endpoint, push.fetched.value, s.now);
        SetInstance(s, push.link.node, inst).(pushes := s.pushes - {x})
  }

  function After(s0: State, steps: seq<Step>): State {
    if steps == [] then s0 else Apply(After(s0, steps[..|steps| - 1]), steps[|steps| - 1])
  }

  /** Freshly started instances on any store no one has sealed a record in. */
  ghost predicate Init(s: State) {
    && s.requests == map[] && s.pushes == map[] && s.grants == {} && s.installs == {} && s.links == {} && s.sealed == {}
    && (forall n :: n in s.instances ==> s.instances[n].sessions == map[] && s.instances[n].connections == map[])
    && (forall e :: e in s.store && s.store[e].Sealed? ==> !NodeKey(s, s.store[e].key))
  }
}
