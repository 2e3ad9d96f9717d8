/** Merging the answers of several ECPDS servers (aviso-ecpds/src/client.rs). */
module EcpdsClient {
  import opened Wrappers

  datatype FetchOutcome = Succeeded | Unauthorized | Forbidden | ClientError | ServerError | BadBody | Unreachable

  datatype DenyReason = DestinationNotInList | MatchKeyMissing

  datatype EcpdsError =
    | ServiceUnavailable(fetchOutcome: FetchOutcome)
    | AccessDenied(reason: DenyReason)
    | InvalidResponse(serverIndex: nat)
    | InvalidServerUrl(server: string)
    | HttpClientBuild
    | Http(serverIndex: nat, status: Option<nat>)

  type Destinations = set<string>
  type ServerResult = Result<seq<string>, EcpdsError>
  type FetchResult = Result<(Destinations, FetchOutcome), EcpdsError>

  // ---- outcomes -----------------------------------------------------------------------------

  function Rank(o: FetchOutcome): nat {
    match o
    case Unauthorized => 6
    case Forbidden => 5
    case ClientError => 4
    case BadBody => 3
    case ServerError => 2
    case Unreachable => 1
    case Succeeded => 0
  }

  function PessimisticMax(a: FetchOutcome, b: FetchOutcome): FetchOutcome {
    if Rank(b) > Rank(a) then b else a
  }

  function StatusOutcome(status: nat): FetchOutcome {
    if status == 401 then Unauthorized
    else if status == 403 then Forbidden
    else if 400 <= status < 500 then ClientError
    else ServerError
  }

  function FetchOutcomeOf(e: EcpdsError): FetchOutcome {
    match e
    case Http(_, Some(status)) => StatusOutcome(status)
    case Http(_, None) => Unreachable
    case InvalidResponse(_) => BadBody
    case ServiceUnavailable(outcome) => outcome
    case _ => Unreachable
  }

  function DenyReasonOf(e: EcpdsError): Option<DenyReason> {
    if e.AccessDenied? then Some(e.reason) else None
  }

  // ---- merging ------------------------------------------------------------------------------

  predicate Answered(results: seq<ServerResult>, destination: string) {
    exists i :: 0 <= i < |results| && results[i].Success? && destination in results[i].value
  }

  /** The union of every list that arrived, and nothing else. */
  ghost predicate IsUnion(results: seq<ServerResult>, union: Destinations) {
    forall d :: d in union <==> Answered(results, d)
  }

  ghost predicate FailedWith(results: seq<ServerResult>, outcome: FetchOutcome) {
    exists i :: 0 <= i < |results| && results[i].Failure? && FetchOutcomeOf(results[i].error) == outcome
  }

  /** The outcome of highest rank among the failures; none when every server answered. */
  ghost predicate IsWorst(results: seq<ServerResult>, worst: Option<FetchOutcome>) {
    match worst
    case None => forall i :: 0 <= i < |results| ==> results[i].Success?
    case Some(o) =>
      && FailedWith(results, o)
      && forall i :: 0 <= i < |results| && results[i].Failure? ==> Rank(FetchOutcomeOf(results[i].error)) <= Rank(o)
  }

  ghost predicate IsStrictMerge(results: seq<ServerResult>, merged: FetchResult) {
    match merged
    case Success((union, outcome)) =>
      results != [] && IsWorst(results, None) && IsUnion(results, union) && outcome == Succeeded
    case Failure(e) =>
      && e.ServiceUnavailable?
      && if results == [] then e.fetchOutcome == Unreachable else IsWorst(results, Some(e.fetchOutcome))
  }

  predicate AnyAnswer(results: seq<ServerResult>) { exists i :: 0 <= i < |results| && results[i].Success? }

  ghost predicate IsAnyMerge(results: seq<ServerResult>, merged: FetchResult) {
    match merged
    case Success((union, outcome)) =>
      AnyAnswer(results) && IsUnion(results, union)
      && IsWorst(results, if outcome == Succeeded && IsWorst(results, None) then None else Some(outcome))
    case Failure(e) =>
      !AnyAnswer(results) && e.ServiceUnavailable?
      && if results == [] then e.fetchOutcome == Unreachable else IsWorst(results, Some(e.fetchOutcome))
  }

  function Worse(worst: Option<FetchOutcome>, outcome: FetchOutcome): Option<FetchOutcome> {
    match worst
    case None => Some(outcome)
    case Some(previous) => Some(PessimisticMax(previous, outcome))
  }

  lemma OneMoreFailure(results: seq<ServerResult>, worst: Option<FetchOutcome>, e: EcpdsError)
    requires IsWorst(results, worst)
    ensures IsWorst(results + [Failure(e)], Worse(worst, FetchOutcomeOf(e)))
  {
    var longer := results + [Failure(e)];
    var now := Worse(worst, FetchOutcomeOf(e)).value;
    if now == FetchOutcomeOf(e) {
      assert longer[|results|].Failure? && FetchOutcomeOf(longer[|results|].error) == now;
    } else {
      var i :| 0 <= i < |results| && results[i].Failure? && FetchOutcomeOf(results[i].error) == now;
      assert longer[i] == results[i];
    }
  }

  lemma OneMoreAnswer(results: seq<ServerResult>, union: Destinations, worst: Option<FetchOutcome>, list: seq<string>)
    requires IsUnion(results, union) && IsWorst(results, worst)
    ensures IsUnion(results + [Success(list)], union + set d | d in list) && IsWorst(results + [Success(list)], worst)
  {
    var longer := results + [Success(list)];
    forall d ensures Answered(longer, d) <==> Answered(results, d) || d in list {
      if Answered(results, d) {
        var i :| 0 <= i < |results| && results[i].Success? && d in results[i].value;
        assert longer[i] == results[i];
      }
      if d in list {
        assert longer[|results|] == Success(list);
      }
    }
    if worst.Some? {
      var i :| 0 <= i < |results| && results[i].Failure? && FetchOutcomeOf(results[i].error) == worst.value;
      assert longer[i] == results[i];
    }
  }

  lemma FailureAddsNothing(results: seq<ServerResult>, union: Destinations, e: EcpdsError)
    requires IsUnion(results, union)
    ensures IsUnion(results + [Failure(e)], union)
  {
    var longer := results + [Failure(e)];
    forall d ensures Answered(longer, d) <==> Answered(results, d) {
      if Answered(results, d) {
        var i :| 0 <= i < |results| && results[i].Success? && d in results[i].value;
        assert longer[i] == results[i];
      }
    }
  }

  /** Every configured server must answer. */
  method MergeStrict(results: seq<ServerResult>) returns (merged: FetchResult)
    ensures IsStrictMerge(results, merged)
  {
    if results == [] {
      return Failure(ServiceUnavailable(Unreachable));
    }
    var union: Destinations := {};
    var worst: Option<FetchOutcome> := None;
    for i := 0 to |results|
      invariant IsUnion(results[..i], union) && IsWorst(results[..i], worst)
    {
      assert results[..i + 1] == results[..i] + [results[i]];
      match results[i] {
        case Success(list) =>
          OneMoreAnswer(results[..i], union, worst, list);
          union := union + set d | d in list;
        case Failure(e) =>
          FailureAddsNothing(results[..i], union, e);
          OneMoreFailure(results[..i], worst, e);
          worst := Worse(worst, FetchOutcomeOf(e));
      }
    }
    assert results[..|results|] == results;
    if worst.Some? {
      return Failure(ServiceUnavailable(worst.value));
    }
    merged := Success((union, Succeeded));
  }

  /** One server that answers is enough. */
  method MergeAnySuccess(results: seq<ServerResult>) returns (merged: FetchResult)
    ensures IsAnyMerge(results, merged)
  {
    var union: Destinations := {};
    var anySuccess := false;
    var worst: Option<FetchOutcome> := None;
    for i := 0 to |results|
      invariant IsUnion(results[..i], union) && IsWorst(results[..i], worst)
      invariant anySuccess <==> exists j :: 0 <= j < i && results[j].Success?
    {
      assert results[..i + 1] == results[..i] + [results[i]];
      match results[i] {
        case Success(list) =>
          OneMoreAnswer(results[..i], union, worst, list);
          anySuccess := true;
          union := union + set d | d in list;
        case Failure(e) =>
          FailureAddsNothing(results[..i], union, e);
          OneMoreFailure(results[..i], worst, e);
          worst := Worse(worst, FetchOutcomeOf(e));
      }
    }
    assert results[..|results|] == results;
    if !anySuccess {
      assert results != [] ==> results[0].Failure?;
      return Failure(ServiceUnavailable(if worst.Some? then worst.value else Unreachable));
    }
    merged := Success((union, if worst.Some? then worst.value else Succeeded));
  }

  // ---- what the policies guarantee ----------------------------------------------------------

  ghost predicate SameAnswers(a: seq<ServerResult>, b: seq<ServerResult>) {
    forall r :: r in a <==> r in b
  }

  lemma PermutedAnswers(a: seq<ServerResult>, b: seq<ServerResult>)
    requires multiset(a) == multiset(b)
    ensures SameAnswers(a, b)
  {
    forall r ensures r in a <==> r in b {
      assert r in a <==> r in multiset(a);
      assert r in b <==> r in multiset(b);
    }
  }

  lemma WorstUnique(a: seq<ServerResult>, b: seq<ServerResult>, wa: Option<FetchOutcome>, wb: Option<FetchOutcome>)
    requires SameAnswers(a, b) && IsWorst(a, wa) && IsWorst(b, wb)
    ensures wa == wb
  {
    if wa.Some? {
      FailureSeen(a, b, wa.value);
    }
    if wb.Some? {
      FailureSeen(b, a, wb.value);
    }
  }

  lemma FailureSeen(a: seq<ServerResult>, b: seq<ServerResult>, outcome: FetchOutcome)
    requires SameAnswers(a, b) && FailedWith(a, outcome)
    ensures FailedWith(b, outcome)
  {
    var i :| 0 <= i < |a| && a[i].Failure? && FetchOutcomeOf(a[i].error) == outcome;
    assert a[i] in b;
  }

  lemma UnionUnique(a: seq<ServerResult>, b: seq<ServerResult>, ua: Destinations, ub: Destinations)
    requires SameAnswers(a, b) && IsUnion(a, ua) && IsUnion(b, ub)
    ensures ua == ub
  {
    forall d ensures Answered(a, d) <==> Answered(b, d) {
      if i :| 0 <= i < |a| && a[i].Success? && d in a[i].value {
        assert a[i] in b;
      }
      if i :| 0 <= i < |b| && b[i].Success? && d in b[i].value {
        assert b[i] in a;
      }
    }
  }

  lemma AnswerSeen(a: seq<ServerResult>, b: seq<ServerResult>)
    requires SameAnswers(a, b)
    ensures (a == [] <==> b == []) && (AnyAnswer(a) <==> AnyAnswer(b))
  {
    assert a != [] ==> a[0] in b;
    assert b != [] ==> b[0] in a;
    if i :| 0 <= i < |a| && a[i].Success? {
      assert a[i] in b;
    }
    if i :| 0 <= i < |b| && b[i].Success? {
      assert b[i] in a;
    }
  }

  /** Neither the order in which servers answer nor an answer given twice changes the merged result. */
  lemma MergeIgnoresOrder(a: seq<ServerResult>, b: seq<ServerResult>, ra: FetchResult, rb: FetchResult)
    requires SameAnswers(a, b)
    ensures IsStrictMerge(a, ra) && IsStrictMerge(b, rb) ==> ra == rb
    ensures IsAnyMerge(a, ra) && IsAnyMerge(b, rb) ==> ra == rb
  {
    AnswerSeen(a, b);
    if IsStrictMerge(a, ra) && IsStrictMerge(b, rb) {
      StrictMergeUnique(a, b, ra, rb);
    }
    if IsAnyMerge(a, ra) && IsAnyMerge(b, rb) {
      AnyMergeUnique(a, b, ra, rb);
    }
  }

  function StrictWorst(results: seq<ServerResult>, merged: FetchResult): Option<FetchOutcome>
    requires merged.Failure? ==> merged.error.ServiceUnavailable?
  {
    if merged.Success? then None else Some(merged.error.fetchOutcome)
  }

  lemma StrictMergeUnique(a: seq<ServerResult>, b: seq<ServerResult>, ra: FetchResult, rb: FetchResult)
    requires SameAnswers(a, b) && IsStrictMerge(a, ra) && IsStrictMerge(b, rb)
    ensures ra == rb
  {
    AnswerSeen(a, b);
    if a != [] {
      WorstUnique(a, b, StrictWorst(a, ra), StrictWorst(b, rb));
      if ra.Success? {
        UnionUnique(a, b, ra.value.0, rb.value.0);
      }
    }
  }

  lemma AnyMergeUnique(a: seq<ServerResult>, b: seq<ServerResult>, ra: FetchResult, rb: FetchResult)
    requires SameAnswers(a, b) && IsAnyMerge(a, ra) && IsAnyMerge(b, rb)
    ensures ra == rb
  {
    AnswerSeen(a, b);
    if ra.Success? {
      UnionUnique(a, b, ra.value.0, rb.value.0);
      var wa := if ra.value.1 == Succeeded && IsWorst(a, None) then None else Some(ra.value.1);
      var wb := if rb.value.1 == Succeeded && IsWorst(b, None) then None else Some(rb.value.1);
      WorstUnique(a, b, wa, wb);
    } else if a != [] {
      WorstUnique(a, b, Some(ra.error.fetchOutcome), Some(rb.error.fetchOutcome));
    }
  }

  /** When the strict policy succeeds, the lenient one gives the same list with the same clean outcome. */
  lemma StrictImpliesAny(results: seq<ServerResult>, strict: FetchResult, lenient: FetchResult)
    requires IsStrictMerge(results, strict) && IsAnyMerge(results, lenient) && strict.Success?
    ensures lenient == strict
  {
    assert results[0].Success?;
    UnionUnique(results, results, strict.value.0, lenient.value.0);
    var worst := if lenient.value.1 == Succeeded && IsWorst(results, None) then None else Some(lenient.value.1);
    WorstUnique(results, results, None, worst);
  }

  /** What a single server reports when its request fails. */
  predicate IsServerError(e: EcpdsError) { e.Http? || e.InvalidResponse? }

  /** Running on part of the servers never looks healthy: the outcome is clean only if all of them answered. */
  lemma DegradedIsVisible(results: seq<ServerResult>, merged: FetchResult)
    requires forall i :: 0 <= i < |results| && results[i].Failure? ==> IsServerError(results[i].error)
    requires IsAnyMerge(results, merged) && merged.Success?
    ensures merged.value.1 == Succeeded <==> forall i :: 0 <= i < |results| ==> results[i].Success?
  {
    if !IsWorst(results, None) {
      var i :| 0 <= i < |results| && results[i].Failure? && FetchOutcomeOf(results[i].error) == merged.value.1;
    } else {
      var worst := if merged.value.1 == Succeeded && IsWorst(results, None) then None else Some(merged.value.1);
      WorstUnique(results, results, None, worst);
    }
  }

  datatype OutagePolicy = Strict | AnySuccess

  ghost predicate IsMerge(policy: OutagePolicy, results: seq<ServerResult>, merged: FetchResult) {
    match policy
    case Strict => IsStrictMerge(results, merged)
    case AnySuccess => IsAnyMerge(results, merged)
  }

  /** `fetch_user_destinations` once every server has replied or failed. */
  method MergeByPolicy(policy: OutagePolicy, results: seq<ServerResult>) returns (merged: FetchResult)
    ensures IsMerge(policy, results, merged)
  {
    if results == [] {
      return Failure(ServiceUnavailable(Unreachable));
    }
    match policy {
      case Strict => merged := MergeStrict(results);
      case AnySuccess => merged := MergeAnySuccess(results);
    }
  }

  /** Under either policy a merged list names exactly what some server answered. */
  lemma MergedWasAnswered(policy: OutagePolicy, results: seq<ServerResult>, merged: FetchResult, destination: string)
    requires IsMerge(policy, results, merged) && merged.Success?
    ensures destination in merged.value.0 <==> Answered(results, destination)
  {
    assert IsUnion(results, merged.value.0);
  }

  // ---- which failure is reported ------------------------------------------------------------

  /** From the failure that hides all others to the one that any other hides. */
  const SEVERITY: seq<FetchOutcome> := [Unauthorized, Forbidden, ClientError, BadBody, ServerError, Unreachable]

  /** The outcome the route layer reports, whether or not a list came with it. */
  function Reported(merged: FetchResult): FetchOutcome
    requires merged.Failure? ==> merged.error.ServiceUnavailable?
  {
    match merged
    case Success((_, outcome)) => outcome
    case Failure(e) => e.fetchOutcome
  }

  lemma FirstIsWorst(results: seq<ServerResult>, worst: FetchOutcome, k: nat)
    requires k < |SEVERITY| && IsWorst(results, Some(worst))
    ensures worst == SEVERITY[k] <==> FailedWith(results, SEVERITY[k])
                                      && forall j :: 0 <= j < k ==> !FailedWith(results, SEVERITY[j])
  {
    forall o | FailedWith(results, o) ensures Rank(o) <= Rank(worst) {
      var i :| 0 <= i < |results| && results[i].Failure? && FetchOutcomeOf(results[i].error) == o;
    }
    if worst != SEVERITY[k] && FailedWith(results, SEVERITY[k]) && worst != Succeeded {
      assert FailedWith(results, SEVERITY[6 - Rank(worst)]);
    }
  }

  /** Both policies report the first kind of the list that some server failed with. */
  lemma SeverityDecides(policy: OutagePolicy, results: seq<ServerResult>, merged: FetchResult, k: nat)
    requires k < |SEVERITY| && results != [] && !IsWorst(results, None)
    requires IsMerge(policy, results, merged)
    ensures Reported(merged) == SEVERITY[k] <==> FailedWith(results, SEVERITY[k])
                                                 && forall j :: 0 <= j < k ==> !FailedWith(results, SEVERITY[j])
  {
    FirstIsWorst(results, Reported(merged), k);
  }

  ghost predicate Replied(results: seq<ServerResult>, low: nat, high: nat) {
    exists i :: 0 <= i < |results| && RepliedWith(results[i], low, high)
  }

  /** An HTTP reply that is no list, with a status from `low` to `high`. */
  predicate RepliedWith(result: ServerResult, low: nat, high: nat) {
    result.Failure? && result.error.Http? && result.error.status.Some? && low <= result.error.status.value <= high
  }

  predicate NoReply(result: ServerResult) { result.Failure? && result.error.Http? && result.error.status.None? }

  ghost predicate Unreadable(results: seq<ServerResult>) {
    exists i :: 0 <= i < |results| && results[i].Failure? && results[i].error.InvalidResponse?
  }

  /**
   * Refused credentials are reported exactly when some server replied 401, whatever else went wrong; then
   * come 403, any other status from 400 to 499, a list that cannot be read, and any other status. An
   * outage is called unreachable exactly when no server that failed had replied at all.
   */
  lemma CredentialsBeforeOutage(policy: OutagePolicy, results: seq<ServerResult>, merged: FetchResult)
    requires forall i :: 0 <= i < |results| && results[i].Failure? ==> IsServerError(results[i].error)
    requires results != [] && !IsWorst(results, None) && IsMerge(policy, results, merged)
    ensures Reported(merged) == Unauthorized <==> Replied(results, 401, 401)
    ensures Reported(merged) == Forbidden <==> Replied(results, 403, 403) && !Replied(results, 401, 401)
    ensures Reported(merged) == ClientError <==>
            Replied(results, 400, 499) && !Replied(results, 401, 401) && !Replied(results, 403, 403)
    ensures Reported(merged) == BadBody <==> Unreadable(results) && !Replied(results, 400, 499)
    ensures Reported(merged) == Unreachable <==>
            forall i :: 0 <= i < |results| && results[i].Failure? ==> NoReply(results[i])
  {
    forall k | 0 <= k < |SEVERITY|
      ensures Reported(merged) == SEVERITY[k] <==>
              FailedWith(results, SEVERITY[k]) && forall j :: 0 <= j < k ==> !FailedWith(results, SEVERITY[j])
    {
      SeverityDecides(policy, results, merged, k);
    }
    assert FailedWith(results, SEVERITY[0]) <==> Replied(results, 401, 401);
    assert FailedWith(results, SEVERITY[1]) <==> Replied(results, 403, 403);
    StatusesSeen(results);
    assert FailedWith(results, SEVERITY[3]) <==> Unreadable(results);
    assert Reported(merged) == SEVERITY[2] <==> Reported(merged) == ClientError;
    assert Reported(merged) == SEVERITY[3] <==> Reported(merged) == BadBody;
    assert FailedWith(results, Reported(merged));
  }

  lemma StatusesSeen(results: seq<ServerResult>)
    requires forall i :: 0 <= i < |results| && results[i].Failure? ==> IsServerError(results[i].error)
    ensures Replied(results, 400, 499) <==>
            FailedWith(results, Unauthorized) || FailedWith(results, Forbidden) || FailedWith(results, ClientError)
  {
    forall i | 0 <= i < |results| && results[i].Failure?
      ensures RepliedWith(results[i], 400, 499) <==>
              FetchOutcomeOf(results[i].error) in {Unauthorized, Forbidden, ClientError}
    {
    }
    if Replied(results, 400, 499) {
      var i :| 0 <= i < |results| && RepliedWith(results[i], 400, 499);
      assert FailedWith(results, FetchOutcomeOf(results[i].error));
    }
  }
}
