/** Claims of a verified token: one pass over the claims map (labels of section 3.1 of RFC 8392 and Arkavo's text
    claims) that refuses duplicate keys, against a reading of the map that has no order. */
module Claims {
  import opened Wrappers
  import opened Decimal
  import CatalogMetadata

  type Json = CatalogMetadata.Json

  const MAX_ENTITLEMENTS := 500
  const MAX_ENTITLEMENT_BYTES := 256

  /** A decoded CBOR value. */
  datatype Value =
    | Integer(n: int)
    | Text(s: string)
    | Blob(bytes: Bytes)
    | Bool(b: bool)
    | Array(items: seq<Value>)
    | Map(entries: seq<Entry>)
    | Other

  datatype Entry = Entry(key: Value, value: Value)

  /** Library functions: UTF-8 length, key id of a COSE key, base64url, and JSON conversion. */
  datatype Library = Library(
    byteLen: string -> nat,
    coseKeyId: Value -> Option<Bytes>,
    encode: Bytes -> string,
    toJson: Value -> Json)

  datatype AuthError = Malformed | DuplicateKey | MissingClaim(name: string)

  datatype Audience = One(s: string) | Many(members: seq<string>)

  /** What integer labels carry. */
  datatype Labelled = Labelled(
    iss: Option<string>,
    sub: Option<string>,
    aud: Option<Audience>,
    exp: Option<int>,
    iat: Option<int>,
    nbf: Option<int>,
    cti: Option<Bytes>,
    kid: Option<string>)

  /** What text keys carry. */
  datatype Named = Named(
    email: Option<string>,
    emailVerified: Option<bool>,
    idp: Option<string>,
    accountId: Option<string>,
    clientId: Option<string>,
    roles: Option<seq<string>>,
    entitlements: seq<string>,
    patreon: Option<Json>,
    patreonUserId: Option<string>)

  datatype VerifiedClaims = VerifiedClaims(
    iss: string, sub: string, aud: Audience, exp: int, iat: int, nbf: Option<int>, cti: Bytes, kid: Option<string>,
    named: Named)

  predicate InI64(n: int) { -0x8000_0000_0000_0000 <= n <= 0x7FFF_FFFF_FFFF_FFFF }

  // ---- The claims map read without order ------------------------------------------------------

  predicate IsKey(v: Value) { v.Integer? || v.Text? }

  ghost predicate DistinctKeys(entries: seq<Entry>) {
    forall i, j :: 0 <= i < j < |entries| ==> entries[i].key != entries[j].key
  }

  /** The map the entries stand for; the last of equal keys wins. */
  ghost function Table(entries: seq<Entry>): map<Value, Value> {
    if entries == [] then map[]
    else var last := entries[|entries| - 1]; Table(entries[..|entries| - 1])[last.key := last.value]
  }

  function At(t: map<Value, Value>, key: Value): Value { if key in t then t[key] else Other }

  function AsText(v: Value): Option<string> { if v.Text? then Some(v.s) else None }

  function AsI64(v: Value): Option<int> { if v.Integer? && InI64(v.n) then Some(v.n) else None }

  function AsBytes(v: Value): Option<Bytes> { if v.Blob? then Some(v.bytes) else None }

  function AsBool(v: Value): Option<bool> { if v.Bool? then Some(v.b) else None }

  predicate AllText(items: seq<Value>) { forall i :: 0 <= i < |items| ==> items[i].Text? }

  function Texts(items: seq<Value>): seq<string>
    requires AllText(items)
  {
    seq(|items|, i requires 0 <= i < |items| => items[i].s)
  }

  function AsTexts(v: Value): Option<seq<string>> { if v.Array? && AllText(v.items) then Some(Texts(v.items)) else None }

  function AsAudience(v: Value): Option<Audience> {
    if v.Text? then Some(One(v.s)) else if AsTexts(v).Some? then Some(Many(AsTexts(v).value)) else None
  }

  function Entitlements(lib: Library, v: Value): seq<string> {
    if AsTexts(v).Some? && |v.items| <= MAX_ENTITLEMENTS
       && (forall i :: 0 <= i < |v.items| ==> lib.byteLen(v.items[i].s) <= MAX_ENTITLEMENT_BYTES)
    then Texts(v.items) else []
  }

  function AsPatreon(lib: Library, v: Value): Option<Json> { if v.Map? then Some(lib.toJson(v)) else None }

  function PatreonUser(lib: Library, v: Value): Option<string> {
    if v.Map? then lib.toJson(v).GetStr("patreon_user_id") else None
  }

  ghost function AsKid(lib: Library, v: Value): Option<string> {
    if v.Map? && IntegerKeysDistinct(v.entries) then Kid(lib, v.entries) else None
  }

  ghost function LabelledIn(lib: Library, t: map<Value, Value>): Labelled {
    Labelled(AsText(At(t, Integer(1))), AsText(At(t, Integer(2))), AsAudience(At(t, Integer(3))),
             AsI64(At(t, Integer(4))), AsI64(At(t, Integer(6))), AsI64(At(t, Integer(5))),
             AsBytes(At(t, Integer(7))), AsKid(lib, At(t, Integer(8))))
  }

  ghost function NamedIn(lib: Library, t: map<Value, Value>): Named {
    Named(AsText(At(t, Text("email"))), AsBool(At(t, Text("email_verified"))), AsText(At(t, Text("idp"))),
          AsText(At(t, Text("arkavo_account_id"))), AsText(At(t, Text("client_id"))),
          AsTexts(At(t, Text("arkavo_roles"))), Entitlements(lib, At(t, Text("arkavo_entitlements"))),
          AsPatreon(lib, At(t, Text("arkavo_patreon"))), PatreonUser(lib, At(t, Text("arkavo_patreon"))))
  }

  /** An entry no token may carry. */
  ghost predicate Refused(entry: Entry) {
    match entry.key
    case Integer(n) =>
      if n == 3 then entry.value.Array? && !(entry.value.items != [] && forall i :: 0 <= i < |entry.value.items| ==>
                                               entry.value.items[i].Text? && entry.value.items[i].s != "")
      else if n == 5 then AsI64(entry.value).None?
      else n == 8 && entry.value.Map? && !IntegerKeysDistinct(entry.value.entries)
    case Text(s) => s == "typ" || (s == "arkavo_roles" && entry.value.Array? && !AllText(entry.value.items))
    case _ => true
  }

  /** What is wrong with a refused entry, as the error says it. */
  ghost predicate Blames(entry: Entry, error: AuthError) {
    && Refused(entry)
    && (error.DuplicateKey? <==> entry.key == Integer(8))
    && (error.MissingClaim? <==> entry.key == Integer(3) && entry.value == Array([]))
    && (error.MissingClaim? ==> error.name == "aud")
  }

  ghost predicate Missing(l: Labelled, name: string) {
    || (name == "iss" && (l.iss.None? || l.iss.value == "")) || (name == "sub" && (l.sub.None? || l.sub.value == ""))
    || (name == "aud" && (l.aud.None? || l.aud.value == One(""))) || (name == "exp" && l.exp.None?)
    || (name == "iat" && l.iat.None?) || (name == "cti" && (l.cti.None? || l.cti.value == []))
  }

  /** An error that tells the truth about the map. */
  ghost predicate Deserved(lib: Library, entries: seq<Entry>, error: AuthError) {
    || (exists e :: e in entries && Blames(e, error))
    || (error.DuplicateKey? && !DistinctKeys(entries))
    || (error.MissingClaim? && Missing(LabelledIn(lib, Table(entries)), error.name))
  }

  ghost predicate Complete(l: Labelled) {
    && l.iss.Some? && l.iss.value != "" && l.sub.Some? && l.sub.value != ""
    && l.aud.Some? && l.aud != Some(One("")) && l.exp.Some? && l.iat.Some? && l.cti.Some? && l.cti.value != []
  }

  ghost predicate Acceptable(lib: Library, entries: seq<Entry>) {
    && DistinctKeys(entries) && (forall e :: e in entries ==> !Refused(e))
    && Complete(LabelledIn(lib, Table(entries)))
  }

  ghost function ClaimsIn(lib: Library, t: map<Value, Value>): VerifiedClaims
    requires Complete(LabelledIn(lib, t))
  {
    var l := LabelledIn(lib, t);
    VerifiedClaims(l.iss.value, l.sub.value, l.aud.value, l.exp.value, l.iat.value, l.nbf, l.cti.value, l.kid,
                   NamedIn(lib, t))
  }

  // ---- Duplicate detection by text ------------------------------------------------------------

  /** The text form of a key in the seen set. */
  function KeyId(key: Value): string
    requires IsKey(key)
  {
    if key.Integer? then "i:" + Display(key.n) else "t:" + key.s
  }

  lemma KeyIdInjective(k: Value, l: Value)
    requires IsKey(k) && IsKey(l) && KeyId(k) == KeyId(l)
    ensures k == l
  {
    assert (KeyId(k)[0] == 'i' <==> k.Integer?) && (KeyId(l)[0] == 'i' <==> l.Integer?);
    assert KeyId(k)[2..] == KeyId(l)[2..];
    if k.Integer? {
      assert KeyId(k)[2..] == Display(k.n) && KeyId(l)[2..] == Display(l.n);
      DisplayInjective(k.n, l.n);
    } else {
      assert KeyId(k)[2..] == k.s && KeyId(l)[2..] == l.s;
    }
  }

  ghost function Ids(keys: set<Value>): set<string> { set k | k in keys && IsKey(k) :: KeyId(k) }

  /** So a key's text is in the seen set exactly when the key was. */
  lemma SeenMeansRepeated(keys: set<Value>, key: Value)
    requires IsKey(key)
    ensures KeyId(key) in Ids(keys) <==> key in keys
    ensures Ids(keys + {key}) == Ids(keys) + {KeyId(key)}
  {
    if KeyId(key) in Ids(keys) {
      var k :| k in keys && IsKey(k) && KeyId(k) == KeyId(key);
      KeyIdInjective(k, key);
    }
  }

  // ---- The confirmation key id ----------------------------------------------------------------

  ghost function IntegerKeys(m: seq<Entry>): set<Value> {
    set i | 0 <= i < |m| && m[i].key.Integer? :: m[i].key
  }

  ghost predicate IntegerKeysDistinct(m: seq<Entry>) {
    forall i, j :: 0 <= i < j < |m| && m[i].key.Integer? ==> m[i].key != m[j].key
  }

  predicate HoldsKid(e: Entry) { (e.key == Integer(2) || e.key == Integer(3)) && e.value.Blob? }

  /** The last kid, under either of its labels. */
  function LastKid(m: seq<Entry>): Option<Bytes> {
    if m == [] then None
    else if HoldsKid(m[|m| - 1]) then Some(m[|m| - 1].value.bytes)
    else LastKid(m[..|m| - 1])
  }

  function CoseKid(lib: Library, e: Entry): Option<Bytes> {
    if e.key == Integer(1) && lib.coseKeyId(e.value).Some? && lib.coseKeyId(e.value).value != []
    then lib.coseKeyId(e.value) else None
  }

  function LastCoseKid(lib: Library, m: seq<Entry>): Option<Bytes> {
    if m == [] then None
    else if CoseKid(lib, m[|m| - 1]).Some? then CoseKid(lib, m[|m| - 1])
    else LastCoseKid(lib, m[..|m| - 1])
  }

  function Encoded(lib: Library, kid: Option<Bytes>): Option<string> {
    if kid.Some? && kid.value != [] then Some(lib.encode(kid.value)) else None
  }

  function Kid(lib: Library, m: seq<Entry>): Option<string> {
    Encoded(lib, if LastKid(m).Some? then LastKid(m) else LastCoseKid(lib, m))
  }

  /** `cnf`: integer keys may not repeat; anything else is skipped. */
  method ParseCnfKid(lib: Library, m: seq<Entry>) returns (r: Result<Option<string>, AuthError>)
    ensures r == if IntegerKeysDistinct(m) then Ok(Kid(lib, m)) else Err(DuplicateKey)
  {
    var seen: set<string> := {};
    var kid: Option<Bytes>, cose: Option<Bytes> := None, None;
    var i := 0;
    ghost var done := m[..0];
    while i < |m|
      invariant i <= |m| && done == m[..i] && CnfRead(lib, done, seen, kid, cose)
    {
      var e := m[i];
      assert m[..i + 1] == done + [e];
      CnfNext(lib, done, e, seen, kid, cose);
      if e.key.Integer? {
        if KeyId(e.key) in seen {
          RepeatedInteger(m, i + 1);
          return Err(DuplicateKey);
        }
        seen := seen + {KeyId(e.key)};
        if HoldsKid(e) {
          kid := Some(e.value.bytes);
        } else if CoseKid(lib, e).Some? {
          cose := CoseKid(lib, e);
        }
      }
      done := done + [e];
      i := i + 1;
    }
    assert done == m;
    return Ok(Encoded(lib, if kid.Some? then kid else cose));
  }

  ghost predicate CnfRead(lib: Library, done: seq<Entry>, seen: set<string>, kid: Option<Bytes>, cose: Option<Bytes>) {
    && IntegerKeysDistinct(done) && seen == Ids(IntegerKeys(done))
    && kid == LastKid(done) && cose == LastCoseKid(lib, done)
  }

  lemma CnfNext(lib: Library, m: seq<Entry>, e: Entry, seen: set<string>, kid: Option<Bytes>, cose: Option<Bytes>)
    requires CnfRead(lib, m, seen, kid, cose)
    ensures e.key.Integer? && KeyId(e.key) in seen ==> !IntegerKeysDistinct(m + [e])
    ensures !(e.key.Integer? && KeyId(e.key) in seen) ==>
      CnfRead(lib, m + [e], if e.key.Integer? then seen + {KeyId(e.key)} else seen,
              if HoldsKid(e) then Some(e.value.bytes) else kid, if CoseKid(lib, e).Some? then CoseKid(lib, e) else cose)
  {
    assert (m + [e])[..|m|] == m;
    IntegerKeysAppend(m, e);
    if e.key.Integer? { SeenMeansRepeated(IntegerKeys(m), e.key); }
  }

  lemma RepeatedInteger(m: seq<Entry>, n: nat)
    requires n <= |m| && !IntegerKeysDistinct(m[..n])
    ensures !IntegerKeysDistinct(m)
  {
    var i, j :| 0 <= i < j < n && m[..n][i].key.Integer? && m[..n][i].key == m[..n][j].key;
    assert m[i].key == m[j].key;
  }

  lemma IntegerKeysAppend(m: seq<Entry>, e: Entry)
    ensures IntegerKeys(m + [e]) == IntegerKeys(m) + if e.key.Integer? then {e.key} else {}
    ensures IntegerKeysDistinct(m + [e]) <==> IntegerKeysDistinct(m) && e.key !in IntegerKeys(m)
  {
    var n := m + [e];
    assert n[|m|] == e && forall i :: 0 <= i < |m| ==> n[i] == m[i];
    if IntegerKeysDistinct(n) {
      forall i, j | 0 <= i < j < |m| && m[i].key.Integer? ensures m[i].key != m[j].key { assert n[i].key != n[j].key; }
    }
  }

  // ---- The pass over the map ------------------------------------------------------------------

  method ParseAudience(items: seq<Value>) returns (r: Result<Audience, AuthError>)
    ensures r.Ok? <==> !Refused(Entry(Integer(3), Array(items)))
    ensures r.Ok? ==> Some(r.value) == AsAudience(Array(items))
    ensures r.Err? ==> r.error == if items == [] then MissingClaim("aud") else Malformed
  {
    var members: seq<string> := [];
    var i := 0;
    while i < |items|
      invariant i <= |items| && |members| == i
      invariant forall j :: 0 <= j < i ==> items[j].Text? && items[j].s != "" && members[j] == items[j].s
    {
      if !items[i].Text? || items[i].s == "" { return Err(Malformed); }
      members := members + [items[i].s];
      i := i + 1;
    }
    if members == [] { return Err(MissingClaim("aud")); }
    assert members == Texts(items);
    return Ok(Many(members));
  }

  method TakeLabel(lib: Library, l: Labelled, n: int, v: Value, ghost t: map<Value, Value>)
    returns (r: Result<Labelled, AuthError>)
    requires l == LabelledIn(lib, t) && Integer(n) !in t
    ensures r.Err? <==> Refused(Entry(Integer(n), v))
    ensures r.Err? ==> Blames(Entry(Integer(n), v), r.error)
    ensures r.Ok? ==> r.value == LabelledIn(lib, t[Integer(n) := v])
  {
    if n == 1 && v.Text? { return Ok(l.(iss := Some(v.s))); }
    if n == 2 && v.Text? { return Ok(l.(sub := Some(v.s))); }
    if n == 3 && v.Text? { return Ok(l.(aud := Some(One(v.s)))); }
    if n == 3 && v.Array? {
      var aud := ParseAudience(v.items);
      return if aud.Ok? then Ok(l.(aud := Some(aud.value))) else Err(aud.error);
    }
    if n == 4 && v.Integer? { return Ok(l.(exp := AsI64(v))); }
    if n == 6 && v.Integer? { return Ok(l.(iat := AsI64(v))); }
    if n == 5 { return if AsI64(v).Some? then Ok(l.(nbf := AsI64(v))) else Err(Malformed); }
    if n == 7 && v.Blob? { return Ok(l.(cti := Some(v.bytes))); }
    if n == 8 && v.Map? {
      var kid := ParseCnfKid(lib, v.entries);
      return if kid.Ok? then Ok(l.(kid := kid.value)) else Err(kid.error);
    }
    return Ok(l);
  }

  /** The text keys that mean something. */
  datatype Name = Typ | Email | EmailVerified | Idp | AccountId | ClientId | Roles | EntitlementList | Patreon | Unknown

  function NameOf(s: string): Name {
    if s == "typ" then Typ
    else if s == "email" then Email
    else if s == "email_verified" then EmailVerified
    else if s == "idp" then Idp
    else if s == "arkavo_account_id" then AccountId
    else if s == "client_id" then ClientId
    else if s == "arkavo_roles" then Roles
    else if s == "arkavo_entitlements" then EntitlementList
    else if s == "arkavo_patreon" then Patreon
    else Unknown
  }

  /** `d` is `c` with what `v` says under `name`, which `c` lacked. */
  ghost predicate Extends(lib: Library, c: Named, d: Named, name: Name, v: Value) {
    && d.email == (if name == Email then AsText(v) else c.email)
    && d.emailVerified == (if name == EmailVerified then AsBool(v) else c.emailVerified)
    && d.idp == (if name == Idp then AsText(v) else c.idp)
    && d.accountId == (if name == AccountId then AsText(v) else c.accountId)
    && d.clientId == (if name == ClientId then AsText(v) else c.clientId)
    && d.roles == (if name == Roles then AsTexts(v) else c.roles)
    && d.entitlements == (if name == EntitlementList then Entitlements(lib, v) else c.entitlements)
    && d.patreon == (if name == Patreon then AsPatreon(lib, v) else c.patreon)
    && d.patreonUserId == (if name == Patreon then PatreonUser(lib, v) else c.patreonUserId)
  }

  ghost predicate Lacks(c: Named, name: Name) {
    && (name == Email ==> c.email == None) && (name == EmailVerified ==> c.emailVerified == None)
    && (name == Idp ==> c.idp == None) && (name == AccountId ==> c.accountId == None)
    && (name == ClientId ==> c.clientId == None) && (name == Roles ==> c.roles == None)
    && (name == EntitlementList ==> c.entitlements == [])
    && (name == Patreon ==> c.patreon == None && c.patreonUserId == None)
  }

  lemma NamedUpdated(lib: Library, t: map<Value, Value>, s: string, v: Value)
    ensures Extends(lib, NamedIn(lib, t), NamedIn(lib, t[Text(s) := v]), NameOf(s), v)
    ensures Text(s) !in t ==> Lacks(NamedIn(lib, t), NameOf(s))
  {
  }

  lemma NamedRefused(s: string, v: Value)
    ensures Refused(Entry(Text(s), v)) <==> NameOf(s) == Typ || (NameOf(s) == Roles && v.Array? && !AllText(v.items))
  {
  }

  function NameTaken(lib: Library, c: Named, name: Name, v: Value): Result<Named, AuthError> {
    match (name, v)
    case (Typ, _) => Err(Malformed)
    case (Email, Text(s)) => Ok(c.(email := Some(s)))
    case (EmailVerified, Bool(b)) => Ok(c.(emailVerified := Some(b)))
    case (Idp, Text(s)) => Ok(c.(idp := Some(s)))
    case (AccountId, Text(s)) => Ok(c.(accountId := Some(s)))
    case (ClientId, Text(s)) => Ok(c.(clientId := Some(s)))
    case (Roles, Array(a)) => if AllText(a) then Ok(c.(roles := Some(Texts(a)))) else Err(Malformed)
    case (EntitlementList, Array(_)) => Ok(c.(entitlements := Entitlements(lib, v)))
    case (Patreon, Map(_)) =>
      var json := lib.toJson(v);
      Ok(c.(patreon := Some(json), patreonUserId := json.GetStr("patreon_user_id")))
    case _ => Ok(c)
  }

  lemma TakenExtends(lib: Library, c: Named, d: Named, name: Name, v: Value)
    requires Extends(lib, c, d, name, v) && Lacks(c, name)
    ensures NameTaken(lib, c, name, v).Ok? ==> NameTaken(lib, c, name, v).value == d
  {
  }

  lemma NameIsTaken(lib: Library, s: string, v: Value, t: map<Value, Value>)
    requires Text(s) !in t
    ensures var r := NameTaken(lib, NamedIn(lib, t), NameOf(s), v);
      && (r.Err? <==> Refused(Entry(Text(s), v))) && (r.Err? ==> r.error == Malformed)
      && (r.Ok? ==> r.value == NamedIn(lib, t[Text(s) := v]))
  {
    NamedUpdated(lib, t, s, v);
    NamedRefused(s, v);
    TakenExtends(lib, NamedIn(lib, t), NamedIn(lib, t[Text(s) := v]), NameOf(s), v);
  }

  /** One entry: what it sets, and nothing else. */
  method TakeEntry(lib: Library, labelled: Labelled, named: Named, e: Entry, ghost t: map<Value, Value>)
    returns (r: Result<(Labelled, Named), AuthError>)
    requires IsKey(e.key) && e.key !in t && labelled == LabelledIn(lib, t) && named == NamedIn(lib, t)
    ensures r.Err? <==> Refused(e)
    ensures r.Err? ==> Blames(e, r.error)
    ensures r.Ok? ==> r.value == (LabelledIn(lib, t[e.key := e.value]), NamedIn(lib, t[e.key := e.value]))
  {
    OtherKey(lib, t, e.key, e.value);
    if e.key.Integer? {
      var next := TakeLabel(lib, labelled, e.key.n, e.value, t);
      return if next.Ok? then Ok((next.value, named)) else Err(next.error);
    } else {
      NameIsTaken(lib, e.key.s, e.value, t);
      var next := NameTaken(lib, named, NameOf(e.key.s), e.value);
      return if next.Ok? then Ok((labelled, next.value)) else Err(next.error);
    }
  }

  function Finish(l: Labelled, named: Named): Result<VerifiedClaims, AuthError> {
    if l.aud == Some(One("")) then Err(MissingClaim("aud"))
    else if l.iss.None? || l.iss.value == "" then Err(MissingClaim("iss"))
    else if l.sub.None? || l.sub.value == "" then Err(MissingClaim("sub"))
    else if l.aud.None? then Err(MissingClaim("aud"))
    else if l.exp.None? then Err(MissingClaim("exp"))
    else if l.iat.None? then Err(MissingClaim("iat"))
    else if l.cti.None? || l.cti.value == [] then Err(MissingClaim("cti"))
    else Ok(VerifiedClaims(l.iss.value, l.sub.value, l.aud.value, l.exp.value, l.iat.value, l.nbf, l.cti.value, l.kid,
                           named))
  }

  ghost function Keys(entries: seq<Entry>): set<Value> { set i | 0 <= i < |entries| :: entries[i].key }

  lemma KeysAppend(entries: seq<Entry>, e: Entry)
    ensures Keys(entries + [e]) == Keys(entries) + {e.key}
    ensures DistinctKeys(entries + [e]) <==> DistinctKeys(entries) && e.key !in Keys(entries)
    ensures Table(entries + [e]) == Table(entries)[e.key := e.value]
  {
    var more := entries + [e];
    assert more[|entries|] == e && more[..|entries|] == entries;
    assert forall i :: 0 <= i < |entries| ==> more[i] == entries[i];
    if DistinctKeys(more) {
      forall i, j | 0 <= i < j < |entries| ensures entries[i].key != entries[j].key { assert more[i].key != more[j].key; }
    }
  }

  lemma RepeatedPrefix(entries: seq<Entry>, n: nat)
    requires n <= |entries| && !DistinctKeys(entries[..n])
    ensures !DistinctKeys(entries)
  {
    var i, j :| 0 <= i < j < n && entries[..n][i].key == entries[..n][j].key;
    assert entries[i].key == entries[j].key;
  }

  /** What the pass knows after the entries `done`. */
  ghost predicate Progress(lib: Library, done: seq<Entry>, seen: set<string>, labelled: Labelled, named: Named) {
    && DistinctKeys(done) && seen == Ids(Keys(done)) && (forall e :: e in done ==> !Refused(e))
    && labelled == LabelledIn(lib, Table(done)) && named == NamedIn(lib, Table(done))
  }

  lemma NextKey(done: seq<Entry>, e: Entry)
    requires IsKey(e.key) && DistinctKeys(done)
    ensures KeyId(e.key) in Ids(Keys(done)) <==> !DistinctKeys(done + [e])
    ensures KeyId(e.key) !in Ids(Keys(done)) ==> e.key !in Table(done)
    ensures Ids(Keys(done + [e])) == Ids(Keys(done)) + {KeyId(e.key)}
    ensures Table(done + [e]) == Table(done)[e.key := e.value]
  {
    KeysAppend(done, e);
    SeenMeansRepeated(Keys(done), e.key);
    TableHas(done);
  }

  /** The pass accepts exactly the maps that are acceptable whatever their order, and returns what they say. */
  method ParseClaims(lib: Library, entries: seq<Entry>) returns (r: Result<VerifiedClaims, AuthError>)
    ensures r.Ok? <==> Acceptable(lib, entries)
    ensures r.Ok? ==> r.value == ClaimsIn(lib, Table(entries))
    ensures r.Err? ==> Deserved(lib, entries, r.error)
  {
    var seen: set<string> := {};
    var labelled := Labelled(None, None, None, None, None, None, None, None);
    var named := Named(None, None, None, None, None, None, [], None, None);
    var i := 0;
    ghost var done := entries[..0];
    while i < |entries|
      invariant i <= |entries| && done == entries[..i] && Progress(lib, done, seen, labelled, named)
    {
      var e := entries[i];
      assert e in entries && entries[..i + 1] == done + [e];
      if !IsKey(e.key) {
        assert Blames(e, Malformed);
        return Err(Malformed);
      }
      NextKey(done, e);
      if KeyId(e.key) in seen {
        RepeatedPrefix(entries, i + 1);
        return Err(DuplicateKey);
      }
      seen := seen + {KeyId(e.key)};
      var next := TakeEntry(lib, labelled, named, e, Table(done));
      if next.Err? { return Err(next.error); }
      labelled, named := next.value.0, next.value.1;
      done := done + [e];
      i := i + 1;
    }
    assert done == entries;
    return Finish(labelled, named);
  }

  lemma {:induction false} TableHas(entries: seq<Entry>)
    ensures Table(entries).Keys == Keys(entries)
  {
    if entries != [] {
      var before, last := entries[..|entries| - 1], entries[|entries| - 1];
      TableHas(before);
      KeysAppend(before, last);
      assert entries == before + [last];
    }
  }

  lemma OtherKey(lib: Library, t: map<Value, Value>, key: Value, v: Value)
    ensures key.Integer? ==> NamedIn(lib, t[key := v]) == NamedIn(lib, t)
    ensures key.Text? ==> LabelledIn(lib, t[key := v]) == LabelledIn(lib, t)
  {
  }

  // ---- The order of the entries ---------------------------------------------------------------

  lemma {:induction false} DistinctByCount(entries: seq<Entry>)
    ensures |Keys(entries)| <= |entries| && (DistinctKeys(entries) <==> |Keys(entries)| == |entries|)
  {
    if entries != [] {
      var before, last := entries[..|entries| - 1], entries[|entries| - 1];
      DistinctByCount(before);
      KeysAppend(before, last);
      assert entries == before + [last];
    }
  }

  lemma {:induction false} TableLooksUp(entries: seq<Entry>, e: Entry)
    requires DistinctKeys(entries) && e in entries
    ensures e.key in Table(entries) && Table(entries)[e.key] == e.value
  {
    var before, last := entries[..|entries| - 1], entries[|entries| - 1];
    assert entries == before + [last];
    KeysAppend(before, last);
    if e != last {
      assert e in before;
      TableLooksUp(before, e);
      var i :| 0 <= i < |before| && before[i] == e;
      assert e.key in Keys(before);
    }
  }

  lemma SameEntries(entries: seq<Entry>, permuted: seq<Entry>)
    requires multiset(entries) == multiset(permuted)
    ensures |entries| == |permuted| && forall e :: e in entries <==> e in permuted
    ensures Keys(entries) == Keys(permuted)
  {
    assert |multiset(entries)| == |multiset(permuted)|;
    forall e ensures e in entries <==> e in permuted {
      assert e in multiset(entries) <==> e in multiset(permuted);
    }
    SameKeys(entries, permuted);
    SameKeys(permuted, entries);
  }

  lemma SameKeys(entries: seq<Entry>, others: seq<Entry>)
    requires forall e :: e in entries ==> e in others
    ensures Keys(entries) <= Keys(others)
  {
    forall k | k in Keys(entries) ensures k in Keys(others) {
      var i :| 0 <= i < |entries| && entries[i].key == k;
      assert entries[i] in others;
    }
  }

  lemma SameTable(entries: seq<Entry>, permuted: seq<Entry>)
    requires multiset(entries) == multiset(permuted) && DistinctKeys(entries)
    ensures DistinctKeys(permuted) && Table(permuted) == Table(entries)
  {
    SameEntries(entries, permuted);
    DistinctByCount(entries);
    DistinctByCount(permuted);
    TableHas(entries);
    TableHas(permuted);
    forall k | k in Table(entries) ensures Table(permuted)[k] == Table(entries)[k] {
      var i :| 0 <= i < |entries| && entries[i].key == k;
      TableLooksUp(entries, entries[i]);
      TableLooksUp(permuted, entries[i]);
    }
  }

  /** Any permutation of an accepted map is accepted with the same claims, and its keys are distinct. */
  lemma OrderDoesNotMatter(lib: Library, entries: seq<Entry>, permuted: seq<Entry>)
    requires multiset(entries) == multiset(permuted)
    ensures Acceptable(lib, entries) <==> Acceptable(lib, permuted)
    ensures Acceptable(lib, entries) ==>
              ClaimsIn(lib, Table(permuted)) == ClaimsIn(lib, Table(entries)) && |Keys(entries)| == |entries|
  {
    SameEntries(entries, permuted);
    DistinctByCount(entries);
    if DistinctKeys(entries) { SameTable(entries, permuted); }
    if DistinctKeys(permuted) { SameTable(permuted, entries); }
  }

  // ---- The order inside `cnf` -----------------------------------------------------------------

  lemma {:induction false} LastKidIs(m: seq<Entry>)
    ensures LastKid(m).None? <==> forall e :: e in m ==> !HoldsKid(e)
    ensures LastKid(m).Some? ==> exists e :: e in m && HoldsKid(e) && e.value.bytes == LastKid(m).value
  {
    if m != [] {
      LastKidIs(m[..|m| - 1]);
      assert m == m[..|m| - 1] + [m[|m| - 1]];
    }
  }

  lemma {:induction false} LastCoseKidIs(lib: Library, m: seq<Entry>)
    ensures LastCoseKid(lib, m).None? <==> forall e :: e in m ==> CoseKid(lib, e).None?
    ensures LastCoseKid(lib, m).Some? ==> exists e :: e in m && CoseKid(lib, e) == LastCoseKid(lib, m)
  {
    if m != [] {
      LastCoseKidIs(lib, m[..|m| - 1]);
      assert m == m[..|m| - 1] + [m[|m| - 1]];
    }
  }

  /** No two kids, one under each label, that come out as different text. */
  ghost predicate OneKid(lib: Library, m: seq<Entry>) {
    forall e, f :: e in m && f in m && HoldsKid(e) && HoldsKid(f) ==>
      Encoded(lib, Some(e.value.bytes)) == Encoded(lib, Some(f.value.bytes))
  }

  lemma MovedLast(m: seq<Entry>, e: Entry) returns (n: seq<Entry>)
    requires e in m && HoldsKid(e)
    ensures multiset(n) == multiset(m) && LastKid(n) == Some(e.value.bytes)
  {
    var i :| 0 <= i < |m| && m[i] == e;
    n := m[..i] + m[i + 1..] + [e];
    assert m == m[..i] + [e] + m[i + 1..];
  }

  lemma SameCoseKid(lib: Library, m: seq<Entry>, n: seq<Entry>)
    requires IntegerKeysDistinct(m) && multiset(n) == multiset(m)
    ensures LastCoseKid(lib, n) == LastCoseKid(lib, m)
  {
    SameEntries(m, n);
    LastCoseKidIs(lib, m);
    LastCoseKidIs(lib, n);
    if LastCoseKid(lib, m).Some? {
      var e :| e in m && CoseKid(lib, e) == LastCoseKid(lib, m);
      assert CoseKid(lib, e).Some? && e in n;
      var f :| f in n && CoseKid(lib, f) == LastCoseKid(lib, n);
      var i :| 0 <= i < |m| && m[i] == e;
      var j :| 0 <= j < |m| && m[j] == f;
    }
  }

  /** The kid of a `cnf` map is the same for every order of its entries exactly when it does not hold two different
      kids, one under the label authnz-rs uses and one under that of section 3.1 of RFC 8747. */
  lemma KidOrder(lib: Library, m: seq<Entry>)
    requires IntegerKeysDistinct(m)
    ensures (forall n :: multiset(n) == multiset(m) ==> Kid(lib, n) == Kid(lib, m)) <==> OneKid(lib, m)
  {
    if OneKid(lib, m) {
      forall n | multiset(n) == multiset(m) ensures Kid(lib, n) == Kid(lib, m) {
        SameEntries(m, n);
        LastKidIs(m);
        LastKidIs(n);
        SameCoseKid(lib, m, n);
      }
    } else {
      var e, f :| e in m && f in m && HoldsKid(e) && HoldsKid(f)
                  && Encoded(lib, Some(e.value.bytes)) != Encoded(lib, Some(f.value.bytes));
      var n := MovedLast(m, e);
      var o := MovedLast(m, f);
      assert Kid(lib, n) != Kid(lib, o);
    }
  }
}
