/** Policies of TDF manifests: the attributes a policy names, and the check a catalog envelope must pass. */
module CatalogMetadata {
  import opened Wrappers

  /** Parsed JSON. A number keeps its text; nothing here computes with it. */
  datatype Json =
    | Null
    | Bool(b: bool)
    | Num(text: string)
    | Str(s: string)
    | Arr(items: seq<Json>)
    | Obj(fields: map<string, Json>)
  {
    /** `Value::get(key)`: only an object has members. */
    function Get(key: string): Option<Json> {
      if Obj? && key in fields then Some(fields[key]) else None
    }

    function AsStr(): Option<string> {
      if Str? then Some(s) else None
    }

    /** `get(key)` as text. */
    function GetStr(key: string): Option<string> {
      var v := Get(key);
      if v.Some? then v.value.AsStr() else None
    }
  }

  /** opentdf's structured attribute policies. Numbers and dates carry the text they print as. */
  datatype AttributeValue =
    | Text(s: string)
    | TextArray(texts: seq<string>)
    | Number(shown: string)
    | NumberArray(shownAll: seq<string>)
    | Boolean(b: bool)
    | DateTime(rfc3339: string)

  datatype AttributePolicy =
    | Condition(namespace: string, name: string, value: Option<AttributeValue>)
    | And(conditions: seq<AttributePolicy>)
    | Or(conditions: seq<AttributePolicy>)
    | Not(condition: AttributePolicy)

  /** How serde reads one `dataAttributes` element as a structured policy. */
  type Decoder = Json -> Option<AttributePolicy>

  // ---- The attributes a policy names, as a set ------------------------------------------------

  function ValueFqns(base: string, values: seq<string>): set<string> {
    set v | v in values :: base + "/value/" + v
  }

  function ConditionFqns(namespace: string, name: string, value: Option<AttributeValue>): set<string> {
    var base := "https://" + namespace + "/attr/" + name;
    match value
    case None => {base}
    case Some(Text(s)) => {base + "/value/" + s}
    case Some(TextArray(texts)) => ValueFqns(base, texts)
    case Some(Number(shown)) => {base + "/value/" + shown}
    case Some(NumberArray(shownAll)) => ValueFqns(base, shownAll)
    case Some(Boolean(b)) => {base + "/value/" + if b then "true" else "false"}
    case Some(DateTime(d)) => {base + "/value/" + d}
  }

  /** The FQNs at the leaves of `policy`, whatever the operators above them. */
  function LeafFqns(policy: AttributePolicy): set<string> {
    match policy
    case Condition(namespace, name, value) => ConditionFqns(namespace, name, value)
    case And(conditions) => AllLeafFqns(conditions)
    case Or(conditions) => AllLeafFqns(conditions)
    case Not(condition) => LeafFqns(condition)
  }

  function AllLeafFqns(policies: seq<AttributePolicy>): set<string> {
    set p, f | p in policies && f in LeafFqns(p) :: f
  }

  /** What one `dataAttributes` element names: the spec form's text, or the structured form's leaves. */
  function ElementFqns(element: Json, decode: Decoder): Option<set<string>> {
    var fqn := element.GetStr("attribute");
    if fqn.Some? then Some({fqn.value})
    else
      var policy := decode(element);
      if policy.Some? then Some(LeafFqns(policy.value)) else None
  }

  predicate Readable(elements: seq<Json>, decode: Decoder) {
    forall e :: e in elements ==> ElementFqns(e, decode).Some?
  }

  function ElementsFqns(elements: seq<Json>, decode: Decoder): set<string>
    requires Readable(elements, decode)
  {
    set e, f | e in elements && f in ElementFqns(e, decode).value :: f
  }

  lemma ElementsFqnsOfOneMore(elements: seq<Json>, e: Json, decode: Decoder)
    requires Readable(elements, decode) && ElementFqns(e, decode).Some?
    ensures Readable(elements + [e], decode)
    ensures ElementsFqns(elements + [e], decode) == ElementsFqns(elements, decode) + ElementFqns(e, decode).value
  {
  }

  /** `body.dataAttributes` as the extraction reads it: absent and `null` are empty. */
  function DataAttributes(policy: Json): Option<seq<Json>> {
    var body := policy.Get("body");
    if body.None? then None
    else
      var listed := body.value.Get("dataAttributes");
      match listed
      case None => Some([])
      case Some(Null) => Some([])
      case Some(Arr(items)) => Some(items)
      case Some(_) => None
  }

  /** The attributes `policy` names, or `None` when it cannot be read. */
  function PolicyFqns(policy: Json, decode: Decoder): Option<set<string>> {
    var elements := DataAttributes(policy);
    if elements.Some? && Readable(elements.value, decode)
    then Some(ElementsFqns(elements.value, decode)) else None
  }

  // ---- Text order, sorting and deduplication --------------------------------------------------

  /** Rust's `str` order: bytewise, which for UTF-8 is by code point. */
  predicate Less(a: string, b: string) {
    b != [] && (a == [] || a[0] < b[0] || (a[0] == b[0] && Less(a[1..], b[1..])))
  }

  lemma {:induction false} LessTotal(a: string, b: string)
    ensures Less(a, b) || a == b || Less(b, a)
    ensures !(Less(a, b) && Less(b, a)) && !Less(a, a)
  {
    if a != [] {
      LessTotal(a[1..], a[1..]);
      if b != [] {
        LessTotal(a[1..], b[1..]);
        if a[0] == b[0] && a[1..] == b[1..] {
          assert a == [a[0]] + a[1..] == [b[0]] + b[1..] == b;
        }
      }
    }
  }

  lemma {:induction false} LessTransitive(a: string, b: string, c: string)
    requires Less(a, b) && Less(b, c)
    ensures Less(a, c)
  {
    if a != [] && a[0] == b[0] == c[0] {
      LessTransitive(a[1..], b[1..], c[1..]);
    }
  }

  predicate Sorted(s: seq<string>) {
    forall i, j :: 0 <= i < j < |s| ==> Less(s[i], s[j]) || s[i] == s[j]
  }

  predicate StrictlySorted(s: seq<string>) {
    forall i, j :: 0 <= i < j < |s| ==> Less(s[i], s[j])
  }

  ghost function Elements(s: seq<string>): set<string> {
    set x | x in s
  }

  lemma ElementsOfConcat(a: seq<string>, b: seq<string>)
    ensures Elements(a + b) == Elements(a) + Elements(b)
  {
  }

  /** Prepending a bound of the rest keeps a list sorted, strictly when the bound is strict. */
  lemma SortedCons(x: string, s: seq<string>)
    requires s != [] ==> Less(x, s[0]) || x == s[0]
    ensures Sorted(s) ==> Sorted([x] + s)
    ensures StrictlySorted(s) && (s != [] ==> x != s[0]) ==> StrictlySorted([x] + s)
  {
    forall j | 0 < j < |s| && (Less(s[0], s[j]) || s[0] == s[j])
      ensures Less(x, s[j]) || x == s[j]
      ensures x != s[0] ==> Less(x, s[j])
    {
      if Less(x, s[0]) && Less(s[0], s[j]) { LessTransitive(x, s[0], s[j]); }
    }
  }

  function Insert(x: string, s: seq<string>): (r: seq<string>)
    requires Sorted(s)
    ensures Sorted(r) && Elements(r) == Elements(s) + {x}
    ensures r != [] && (r[0] == x || (s != [] && r[0] == s[0]))
  {
    if s != [] && Less(s[0], x) then
      assert s == [s[0]] + s[1..];
      var rest := Insert(x, s[1..]);
      SortedCons(s[0], rest);
      ElementsOfConcat([s[0]], rest);
      ElementsOfConcat([s[0]], s[1..]);
      [s[0]] + rest
    else
      assert s != [] ==> Less(x, s[0]) || x == s[0] by { if s != [] { LessTotal(x, s[0]); } }
      SortedCons(x, s);
      [x] + s
  }

  /** `sort`. */
  function Sort(s: seq<string>): (r: seq<string>)
    ensures Sorted(r) && Elements(r) == Elements(s)
  {
    if s == [] then [] else
      assert s == [s[0]] + s[1..];
      Insert(s[0], Sort(s[1..]))
  }

  lemma {:induction false} InsertAdds(x: string, s: seq<string>)
    requires Sorted(s)
    ensures multiset(Insert(x, s)) == multiset(s) + multiset{x}
  {
    if s != [] && Less(s[0], x) {
      InsertAdds(x, s[1..]);
      assert s == [s[0]] + s[1..];
    }
  }

  /** Sorting loses and repeats nothing. */
  lemma {:induction false} SortPermutes(s: seq<string>)
    ensures multiset(Sort(s)) == multiset(s)
  {
    hide Insert, Less, Sorted, Elements;
    if s != [] {
      SortPermutes(s[1..]);
      InsertAdds(s[0], Sort(s[1..]));
      assert s == [s[0]] + s[1..];
    }
  }

  /** `dedup`: drops an element equal to the one before it. */
  function Dedup(s: seq<string>): (r: seq<string>)
    requires Sorted(s)
    ensures StrictlySorted(r) && Elements(r) == Elements(s)
    ensures s != [] ==> r != [] && r[0] == s[0]
  {
    if |s| <= 1 then s
    else
      assert s == [s[0]] + s[1..];
      var rest := Dedup(s[1..]);
      ElementsOfConcat([s[0]], s[1..]);
      if s[0] == s[1] then rest
      else
        SortedCons(s[0], rest);
        ElementsOfConcat([s[0]], rest);
        [s[0]] + rest
  }

  /** A set has one strictly sorted listing, so equal leaf sets give equal lists. */
  lemma {:induction false} OneSortedListing(a: seq<string>, b: seq<string>)
    requires StrictlySorted(a) && StrictlySorted(b) && Elements(a) == Elements(b)
    ensures a == b
  {
    assert forall i :: 0 <= i < |a| ==> a[i] in Elements(b);
    assert forall i :: 0 <= i < |b| ==> b[i] in Elements(a);
    assert a == [] <==> b == [];
    if a != [] {
      assert a[0] in Elements(b);
      assert b[0] in Elements(a);
      LessTotal(a[0], b[0]);
      assert a[0] == b[0];
      forall x ensures x in a[1..] <==> x in b[1..] {
        LessTotal(a[0], a[0]);
        assert x in Elements(a) <==> x in Elements(b);
        assert x in a[1..] <==> x in a && x != a[0];
        assert x in b[1..] <==> x in b && x != b[0];
      }
      assert Elements(a[1..]) == Elements(b[1..]);
      OneSortedListing(a[1..], b[1..]);
    }
  }

  // ---- Extraction as the source runs it: an output buffer filled by recursion -----------------

  method Push(out: seq<string>, fqn: string) returns (grown: seq<string>)
    ensures grown == out + [fqn] && Elements(grown) == Elements(out) + {fqn}
  {
    ElementsOfConcat(out, [fqn]);
    grown := out + [fqn];
  }

  /** The leaf names in the order they are met, repetitions included. */
  function ValueList(base: string, values: seq<string>): seq<string> {
    seq(|values|, i requires 0 <= i < |values| => base + "/value/" + values[i])
  }

  function Leaves(policy: AttributePolicy): seq<string> {
    match policy
    case Condition(namespace, name, value) =>
      var base := "https://" + namespace + "/attr/" + name;
      (match value
       case None => [base]
       case Some(Text(s)) => [base + "/value/" + s]
       case Some(TextArray(texts)) => ValueList(base, texts)
       case Some(Number(shown)) => [base + "/value/" + shown]
       case Some(NumberArray(shownAll)) => ValueList(base, shownAll)
       case Some(Boolean(b)) => [base + "/value/" + if b then "true" else "false"]
       case Some(DateTime(d)) => [base + "/value/" + d])
    case And(conditions) => AllLeaves(conditions)
    case Or(conditions) => AllLeaves(conditions)
    case Not(condition) => Leaves(condition)
  }

  function AllLeaves(policies: seq<AttributePolicy>): seq<string> {
    if policies == [] then []
    else AllLeaves(policies[..|policies| - 1]) + Leaves(policies[|policies| - 1])
  }

  method PushEach(base: string, values: seq<string>, out: seq<string>) returns (grown: seq<string>)
    ensures grown == out + ValueList(base, values) && Elements(grown) == Elements(out) + ValueFqns(base, values)
  {
    grown := out;
    for i := 0 to |values|
      invariant grown == out + ValueList(base, values[..i])
      invariant Elements(grown) == Elements(out) + ValueFqns(base, values[..i])
    {
      assert values[..i + 1] == values[..i] + [values[i]];
      grown := Push(grown, base + "/value/" + values[i]);
    }
    assert values[..|values|] == values;
  }

  method CollectFqns(policy: AttributePolicy, out: seq<string>) returns (grown: seq<string>)
    ensures grown == out + Leaves(policy) && Elements(grown) == Elements(out) + LeafFqns(policy)
    decreases policy
  {
    match policy {
      case Condition(namespace, name, value) =>
        var base := "https://" + namespace + "/attr/" + name;
        match value {
          case None => grown := Push(out, base);
          case Some(Text(s)) => grown := Push(out, base + "/value/" + s);
          case Some(TextArray(texts)) => grown := PushEach(base, texts, out);
          case Some(Number(shown)) => grown := Push(out, base + "/value/" + shown);
          case Some(NumberArray(shownAll)) => grown := PushEach(base, shownAll, out);
          case Some(Boolean(b)) => grown := Push(out, base + "/value/" + if b then "true" else "false");
          case Some(DateTime(d)) => grown := Push(out, base + "/value/" + d);
        }
      case And(conditions) => grown := CollectAll(policy, conditions, out);
      case Or(conditions) => grown := CollectAll(policy, conditions, out);
      case Not(condition) => grown := CollectFqns(condition, out);
    }
  }

  method CollectAll(ghost parent: AttributePolicy, conditions: seq<AttributePolicy>, out: seq<string>)
    returns (grown: seq<string>)
    requires (parent.And? || parent.Or?) && parent.conditions == conditions
    ensures grown == out + AllLeaves(conditions) && Elements(grown) == Elements(out) + AllLeafFqns(conditions)
    decreases parent, 0
  {
    hide LeafFqns, Leaves;
    grown := out;
    for i := 0 to |conditions|
      invariant grown == out + AllLeaves(conditions[..i])
      invariant Elements(grown) == Elements(out) + AllLeafFqns(conditions[..i])
    {
      assert conditions[..i + 1][..i] == conditions[..i];
      assert conditions[..i + 1] == conditions[..i] + [conditions[i]];
      grown := CollectFqns(conditions[i], grown);
    }
    assert conditions[..|conditions|] == conditions;
  }

  /** Fails exactly when the policy cannot be read; otherwise the one strictly sorted listing of its
      leaf FQNs. */
  method ExtractAttributeFqns(policy: Json, decode: Decoder) returns (r: Option<seq<string>>)
    ensures r.Some? <==> PolicyFqns(policy, decode).Some?
    ensures r.Some? ==> StrictlySorted(r.value) && Elements(r.value) == PolicyFqns(policy, decode).value
  {
    var listed := DataAttributes(policy);
    if listed.None? { return None; }
    var elements := listed.value;
    var fqns: seq<string> := [];
    for i := 0 to |elements|
      invariant Readable(elements[..i], decode)
      invariant Elements(fqns) == ElementsFqns(elements[..i], decode)
    {
      assert elements[..i + 1] == elements[..i] + [elements[i]];
      var fqn := elements[i].GetStr("attribute");
      if fqn.Some? {
        fqns := Push(fqns, fqn.value);
      } else {
        var attributePolicy := decode(elements[i]);
        if attributePolicy.None? {
          assert ElementFqns(elements[i], decode).None? && elements[i] in elements;
          return None;
        }
        fqns := CollectFqns(attributePolicy.value, fqns);
      }
      ElementsFqnsOfOneMore(elements[..i], elements[i], decode);
    }
    assert elements[..|elements|] == elements;
    r := Some(Dedup(Sort(fqns)));
  }

  // ---- The catalog envelope -------------------------------------------------------------------

  datatype ManifestPolicy = ManifestPolicy(mimeType: Option<string>, policy: map<string, Json>)

  datatype EnvelopeRefusal = NotCatalog | NoPolicyId | BadPolicy

  const CATALOG_MIME_TYPE := "application/vnd.arkavo.creator-catalog+json"
  const CAMPAIGN_FQN_PREFIX := "https://patreon.arkavo.com/attr/campaign/value/"
  const CREATOR_FQN_PREFIX := "https://arkavo.net/attr/creator/value/"

  /** `has_attribute`: the policy names `fqn`, in either form. */
  predicate HasAttribute(manifest: ManifestPolicy, fqn: string, decode: Decoder) {
    var fqns := PolicyFqns(Obj(manifest.policy), decode);
    fqns.Some? && fqn in fqns.value
  }

  /** `body.<key>` as a list: absent and `null` are empty, any other non-array matches nothing. */
  function List(policy: map<string, Json>, key: string): Option<seq<Json>> {
    var body := Obj(policy).Get("body");
    var listed := if body.Some? then body.value.Get(key) else None;
    match listed
    case None => Some([])
    case Some(Null) => Some([])
    case Some(Arr(items)) => Some(items)
    case Some(_) => None
  }

  predicate IsCampaign(f: string) {
    CAMPAIGN_FQN_PREFIX < f && forall i :: |CAMPAIGN_FQN_PREFIX| <= i < |f| ==> '0' <= f[i] <= '9'
  }

  predicate IsLowerUuid(s: string) {
    |s| == 36 && forall i :: 0 <= i < 36 ==>
      if i in {8, 13, 18, 23} then s[i] == '-' else '0' <= s[i] <= '9' || 'a' <= s[i] <= 'f'
  }

  predicate IsCreator(f: string, sub: string) {
    f == CREATOR_FQN_PREFIX + sub && IsLowerUuid(sub)
  }

  function CheckEnvelope(envelope: ManifestPolicy, sub: string): Result<string, EnvelopeRefusal> {
    if envelope.mimeType != Some(CATALOG_MIME_TYPE) then Err(NotCatalog)
    else if envelope.policy.Keys != {"body", "uuid"} then Err(BadPolicy)
    else
      var uuid := Obj(envelope.policy).GetStr("uuid");
      if uuid.None? || uuid.value == "" then Err(NoPolicyId)
      else if List(envelope.policy, "dissem") != Some([]) then Err(BadPolicy)
      else
        var attributes := List(envelope.policy, "dataAttributes");
        if attributes.None? || |attributes.value| != 1 then Err(BadPolicy)
        else
          var fqn := attributes.value[0].GetStr("attribute");
          if fqn.Some? && (IsCampaign(fqn.value) || IsCreator(fqn.value, sub)) then Ok(fqn.value)
          else Err(BadPolicy)
  }

  /** An accepted envelope's policy names its attribute and nothing else, so any strictly sorted listing
      of that policy (what `ExtractAttributeFqns` returns) is that attribute alone. */
  lemma EnvelopeNamesOneAttribute(envelope: ManifestPolicy, sub: string, decode: Decoder, fqns: seq<string>)
    requires CheckEnvelope(envelope, sub).Ok?
    ensures PolicyFqns(Obj(envelope.policy), decode) == Some({CheckEnvelope(envelope, sub).value})
    ensures HasAttribute(envelope, CheckEnvelope(envelope, sub).value, decode)
    ensures StrictlySorted(fqns) && Elements(fqns) == PolicyFqns(Obj(envelope.policy), decode).value
            ==> fqns == [CheckEnvelope(envelope, sub).value]
  {
    var attribute := CheckEnvelope(envelope, sub).value;
    var elements := List(envelope.policy, "dataAttributes").value;
    assert DataAttributes(Obj(envelope.policy)) == Some(elements);
    assert elements == [elements[0]];
    assert ElementFqns(elements[0], decode) == Some({attribute});
    assert Readable(elements, decode);
    assert ElementsFqns(elements, decode) == {attribute};
    if StrictlySorted(fqns) && Elements(fqns) == {attribute} {
      OneSortedListing(fqns, [attribute]);
    }
  }
}
