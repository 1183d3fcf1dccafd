/** Decisions asked of an AuthZEN service in batches: answers are paired with resources by position, batch by batch, and
    merged. */
module Batching {
  import opened Wrappers
  import opened CatalogMetadata

  const MAX_EVALUATIONS := 500

  datatype Resource = Resource(id: string, fqns: seq<string>)

  datatype Evaluation = Evaluation(decision: bool, context: Option<Json>)

  type Decisions = map<string, bool>

  /** What the service answers to the k-th request; None is any failure. */
  type Service = (nat, seq<Resource>) -> Option<seq<Evaluation>>

  predicate HasObligations(context: Option<Json>) {
    var obligations := if context.Some? then context.value.Get("obligations") else None;
    var needed := if obligations.Some? then obligations.value.Get("required") else None;
    needed.Some? && !(needed.value.Arr? && needed.value.items == [])
  }

  predicate Entitled(e: Evaluation) { e.decision && !HasObligations(e.context) }

  // ---- One answer list for the whole request --------------------------------------------------

  /** Positions paired in order; the last of equal ids wins. */
  function Paired(resources: seq<Resource>, answers: seq<Evaluation>): Decisions
    requires |resources| == |answers|
  {
    if resources == [] then map[]
    else
      var n := |resources| - 1;
      Paired(resources[..n], answers[..n])[resources[n].id := Entitled(answers[n])]
  }

  /** What a list of answers decides; any other number of answers fails. */
  function Mapped(resources: seq<Resource>, answers: seq<Evaluation>): Option<Decisions> {
    if |resources| == |answers| then Some(Paired(resources, answers)) else None
  }

  method MapEvaluations(resources: seq<Resource>, answers: seq<Evaluation>) returns (r: Option<Decisions>)
    ensures r == Mapped(resources, answers)
  {
    if |resources| != |answers| { return None; }
    var decisions: Decisions := map[];
    var i := 0;
    while i < |resources|
      invariant i <= |resources| && decisions == Paired(resources[..i], answers[..i])
    {
      assert resources[..i + 1][..i] == resources[..i] && answers[..i + 1][..i] == answers[..i];
      decisions := decisions[resources[i].id := Entitled(answers[i])];
      i := i + 1;
    }
    assert resources[..i] == resources && answers[..i] == answers;
    return Some(decisions);
  }

  ghost function Ids(resources: seq<Resource>): set<string> { set i | 0 <= i < |resources| :: resources[i].id }

  /** Exactly the requested ids are decided. */
  lemma {:induction false} PairedCovers(resources: seq<Resource>, answers: seq<Evaluation>)
    requires |resources| == |answers|
    ensures Paired(resources, answers).Keys == Ids(resources)
  {
    if resources != [] {
      var n := |resources| - 1;
      PairedCovers(resources[..n], answers[..n]);
      var before := resources[..n];
      assert forall i :: 0 <= i < n ==> before[i] == resources[i];
      assert Ids(resources) == Ids(before) + {resources[n].id};
    }
  }

  /** Each id is decided as the last entry that names it. */
  lemma {:induction false} LastWins(resources: seq<Resource>, answers: seq<Evaluation>, i: nat)
    requires i < |resources| == |answers| && forall j :: i < j < |resources| ==> resources[j].id != resources[i].id
    ensures var id := resources[i].id;
      id in Paired(resources, answers) && Paired(resources, answers)[id] == Entitled(answers[i])
  {
    var n := |resources| - 1;
    if i < n { LastWins(resources[..n], answers[..n], i); }
  }

  /** Deciding two stretches and letting the second override the first is deciding them together. */
  lemma {:induction false} PairedConcat(a: seq<Resource>, b: seq<Resource>, x: seq<Evaluation>, y: seq<Evaluation>)
    requires |a| == |x| && |b| == |y|
    ensures Paired(a + b, x + y) == Paired(a, x) + Paired(b, y)
  {
    if b == [] {
      assert a + b == a && x + y == x;
    } else {
      var n := |b| - 1;
      PairedConcat(a, b[..n], x, y[..n]);
      assert (a + b)[..|a| + n] == a + b[..n] && (x + y)[..|a| + n] == x + y[..n];
    }
  }

  // ---- Batches --------------------------------------------------------------------------------

  function FirstBatch(resources: seq<Resource>): seq<Resource> {
    if |resources| <= MAX_EVALUATIONS then resources else resources[..MAX_EVALUATIONS]
  }

  function Rest(resources: seq<Resource>): seq<Resource> {
    if |resources| <= MAX_EVALUATIONS then [] else resources[MAX_EVALUATIONS..]
  }

  predicate WellAnswered(service: Service, k: nat, batch: seq<Resource>) {
    service(k, batch).Some? && |service(k, batch).value| == |batch|
  }

  /** All batches' answers put together, from the k-th request on; None when one is missing or of the wrong length. */
  function Answers(service: Service, k: nat, resources: seq<Resource>): (r: Option<seq<Evaluation>>)
    ensures r.Some? ==> |r.value| == |resources|
    decreases |resources|
  {
    if resources == [] then Some([])
    else
      var batch := FirstBatch(resources);
      if !WellAnswered(service, k, batch) then None
      else
        var rest := Answers(service, k + 1, Rest(resources));
        if rest.None? then None else Some(service(k, batch).value + rest.value)
  }

  /** What the batches decide together. */
  function Decided(service: Service, resources: seq<Resource>): Option<Decisions> {
    var answers := Answers(service, 0, resources);
    if answers.None? then None else Some(Paired(resources, answers.value))
  }

  /** `decide`: a list of any length, in batches. `reachable` is whether the endpoint could be found. */
  method Decide(service: Service, reachable: bool, resources: seq<Resource>) returns (r: Option<Decisions>)
    ensures resources == [] ==> r == Some(map[])
    ensures resources != [] && !reachable ==> r == None
    ensures resources != [] && reachable ==> r == Decided(service, resources)
  {
    if resources == [] { return Some(map[]); }
    if !reachable { return None; }
    var decisions: Decisions := map[];
    var left, k := resources, 0;
    while left != []
      invariant Outcome(service, 0, resources, map[]) == Outcome(service, k, left, decisions)
      decreases |left|
    {
      var batch := FirstBatch(left);
      var answer := service(k, batch);
      if answer.None? { return None; }
      var part := MapEvaluations(batch, answer.value);
      if part.None? { return None; }
      NextBatch(service, k, left, decisions);
      decisions := decisions + part.value;
      left, k := Rest(left), k + 1;
    }
    assert decisions + map[] == decisions;
    ghost var answers := Answers(service, 0, resources);
    if answers.Some? { assert map[] + Paired(resources, answers.value) == Paired(resources, answers.value); }
    return Some(decisions);
  }

  /** What the call returns once `decided` is settled and `left` is still to be asked for. */
  ghost function Outcome(service: Service, k: nat, left: seq<Resource>, decided: Decisions): Option<Decisions> {
    var answers := Answers(service, k, left);
    if answers.None? then None else Some(decided + Paired(left, answers.value))
  }

  lemma NextBatch(service: Service, k: nat, left: seq<Resource>, decided: Decisions)
    requires left != [] && WellAnswered(service, k, FirstBatch(left))
    ensures Outcome(service, k, left, decided) ==
            Outcome(service, k + 1, Rest(left), decided + Paired(FirstBatch(left), service(k, FirstBatch(left)).value))
  {
    var batch, rest := FirstBatch(left), Answers(service, k + 1, Rest(left));
    var answer := service(k, batch).value;
    if rest.Some? {
      assert left == batch + Rest(left);
      PairedConcat(batch, Rest(left), answer, rest.value);
      var first, others := Paired(batch, answer), Paired(Rest(left), rest.value);
      assert decided + (first + others) == decided + first + others;
    }
  }

  // ---- Batching does not show -----------------------------------------------------------------

  function Each(f: Resource -> Evaluation, resources: seq<Resource>): seq<Evaluation> {
    seq(|resources|, i requires 0 <= i < |resources| => f(resources[i]))
  }

  /** A service that decides each resource on its own. */
  ghost predicate ItemByItem(service: Service, f: Resource -> Evaluation) {
    forall k: nat, batch :: service(k, batch) == Some(Each(f, batch))
  }

  lemma {:induction false} SameAnswers(service: Service, f: Resource -> Evaluation, k: nat, resources: seq<Resource>)
    requires ItemByItem(service, f)
    ensures Answers(service, k, resources) == Some(Each(f, resources))
    decreases |resources|
  {
    if resources == [] {
      assert Each(f, resources) == [];
    } else {
      var batch, rest := FirstBatch(resources), Rest(resources);
      assert service(k, batch) == Some(Each(f, batch));
      SameAnswers(service, f, k + 1, rest);
      assert resources == batch + rest;
      assert Each(f, resources) == Each(f, batch) + Each(f, rest);
    }
  }

  /** With such a service, batches decide what one request for the whole list decides. */
  lemma BatchingDoesNotShow(service: Service, f: Resource -> Evaluation, resources: seq<Resource>)
    requires ItemByItem(service, f)
    ensures service(0, resources).Some?
    ensures Decided(service, resources) == Mapped(resources, service(0, resources).value)
    ensures Decided(service, resources).Some? && Decided(service, resources).value.Keys == Ids(resources)
  {
    assert service(0, resources) == Some(Each(f, resources));
    SameAnswers(service, f, 0, resources);
    PairedCovers(resources, Each(f, resources));
  }

  /** The k-th batch, by position. */
  function Batch(resources: seq<Resource>, k: nat): seq<Resource>
    requires k * MAX_EVALUATIONS < |resources|
  {
    var from := k * MAX_EVALUATIONS;
    resources[from..if from + MAX_EVALUATIONS < |resources| then from + MAX_EVALUATIONS else |resources|]
  }

  lemma BatchOfRest(resources: seq<Resource>, k: nat)
    requires |resources| > MAX_EVALUATIONS
    ensures (k + 1) * MAX_EVALUATIONS < |resources| <==> k * MAX_EVALUATIONS < |Rest(resources)|
    ensures k * MAX_EVALUATIONS < |Rest(resources)| ==> Batch(Rest(resources), k) == Batch(resources, k + 1)
  {
  }

  /** The whole call fails exactly when some batch, none longer than the limit, is unanswered or answered with a wrong
      count. */
  lemma {:induction false} OneBadBatchFailsAll(service: Service, k: nat, resources: seq<Resource>)
    ensures Answers(service, k, resources).None? <==>
            exists j: nat :: j * MAX_EVALUATIONS < |resources| && !WellAnswered(service, k + j, Batch(resources, j))
    ensures forall j: nat :: j * MAX_EVALUATIONS < |resources| ==> 0 < |Batch(resources, j)| <= MAX_EVALUATIONS
    decreases |resources|
  {
    if resources == [] {
    } else if |resources| <= MAX_EVALUATIONS {
      assert Batch(resources, 0) == FirstBatch(resources);
      assert forall j: nat :: j * MAX_EVALUATIONS < |resources| ==> j == 0;
    } else {
      var rest := Rest(resources);
      OneBadBatchFailsAll(service, k + 1, rest);
      assert Batch(resources, 0) == FirstBatch(resources);
      if j: nat :| j * MAX_EVALUATIONS < |resources| && !WellAnswered(service, k + j, Batch(resources, j)) {
        if j > 0 {
          BatchOfRest(resources, j - 1);
          assert !WellAnswered(service, k + 1 + (j - 1), Batch(rest, j - 1));
        }
      }
      if j: nat :| j * MAX_EVALUATIONS < |rest| && !WellAnswered(service, k + 1 + j, Batch(rest, j)) {
        BatchOfRest(resources, j);
        assert !WellAnswered(service, k + (j + 1), Batch(resources, j + 1));
      }
    }
  }
}
