/**
 * The single-flight destination cache (aviso-ecpds/src/cache.rs). Concurrent calls are a state
 * machine whose steps are the atomic segments of `try_get_or_fetch`; any call may take the next step.
 */
module EcpdsCache {
  import opened Wrappers
  import opened EcpdsClient

  datatype CacheOutcome = Hit | MissCoalesced | MissFetched(fetchOutcome: FetchOutcome)

  type CallId = nat
  type Answer = Result<Destinations, EcpdsError>

  /** Another waiter's copy of a shared error: sources that cannot be copied become 'unavailable'. */
  function CloneError(e: EcpdsError): (copy: EcpdsError)
    ensures FetchOutcomeOf(copy) == FetchOutcomeOf(e) && DenyReasonOf(copy) == DenyReasonOf(e)
    ensures copy.AccessDenied? ==> e.AccessDenied?
    ensures copy == e <==> !e.HttpClientBuild? && !e.InvalidServerUrl?
  {
    match e
    case HttpClientBuild => ServiceUnavailable(Unreachable)
    case InvalidServerUrl(_) => ServiceUnavailable(Unreachable)
    case _ => e
  }

  // ---- the machine --------------------------------------------------------------------------

  /** Where a call stands. `Panicked` is the failing `expect` on the outcome slot. */
  datatype Phase =
    | Missed
    | Leading
    | Landed
    | Joined(leader: CallId)
    | Served(list: Destinations)
    | Finished(outcome: CacheOutcome, answer: Answer)
    | Panicked

  /** `joined` remembers the flight that a call waited on. */
  datatype Call = Call(user: string, fetched: bool, slot: Option<FetchOutcome>, joined: Option<CallId>, phase: Phase)

  /** `landed` keeps the result of every fetch that has completed. */
  datatype State = State(
    cache: map<string, Destinations>, calls: map<CallId, Call>, flights: map<string, CallId>,
    landed: map<CallId, FetchResult>)

  const INITIAL := State(map[], map[], map[], map[])

  datatype Step =
    | Lookup(id: CallId, user: string)
    | Enter(id: CallId)
    | Land(id: CallId, result: FetchResult)
    | Finish(id: CallId, lastHolder: bool)
    | Evict(user: string)

  function OutcomeOf(result: FetchResult): FetchOutcome {
    match result
    case Success((_, outcome)) => outcome
    case Failure(e) => FetchOutcomeOf(e)
  }

  /** What a waiter gets of a flight's result. Only the last holder of a shared error gets the original. */
  function Shared(result: FetchResult, lastHolder: bool): Answer {
    match result
    case Success((list, _)) => Success(list)
    case Failure(e) => Failure(if lastHolder then e else CloneError(e))
  }

  predicate Enabled(s: State, step: Step) {
    match step
    case Lookup(id, _) => id !in s.calls
    case Enter(id) => id in s.calls && s.calls[id].phase.Missed?
    case Land(id, _) => id in s.calls && s.calls[id].phase.Leading?
    case Finish(id, _) =>
      id in s.calls
      && (match s.calls[id].phase
          case Landed => id in s.landed
          case Joined(leader) => leader in s.landed
          case Served(_) => true
          case _ => false)
    case Evict(_) => true
  }

  function WithPhase(s: State, id: CallId, phase: Phase): State
    requires id in s.calls
  {
    s.(calls := s.calls[id := s.calls[id].(phase := phase)])
  }

  function FinishWith(s: State, id: CallId, answer: Answer): State
    requires id in s.calls
  {
    var call := s.calls[id];
    if !call.fetched then WithPhase(s, id, Finished(MissCoalesced, answer))
    else match call.slot
      case Some(outcome) => WithPhase(s, id, Finished(MissFetched(outcome), answer))
      case None => WithPhase(s, id, Panicked)
  }

  function Entered(s: State, id: CallId): State
    requires id in s.calls
  {
    var user := s.calls[id].user;
    if user in s.cache then WithPhase(s, id, Served(s.cache[user]))
    else if user in s.flights then
      s.(calls := s.calls[id := s.calls[id].(joined := Some(s.flights[user]), phase := Joined(s.flights[user]))])
    else s.(calls := s.calls[id := s.calls[id].(fetched := true, phase := Leading)], flights := s.flights[user := id])
  }

  /** The fetch ends: the outcome slot is written, a success is stored, and the flight is over. */
  function Landing(s: State, id: CallId, result: FetchResult): State
    requires id in s.calls
  {
    var user := s.calls[id].user;
    State(
      if result.Success? then s.cache[user := result.value.0] else s.cache,
      s.calls[id := s.calls[id].(slot := Some(OutcomeOf(result)), phase := Landed)],
      s.flights - {user},
      s.landed[id := result])
  }

  function Apply(s: State, step: Step): State
    requires Enabled(s, step)
  {
    match step
    case Lookup(id, user) =>
      var phase := if user in s.cache then Finished(Hit, Success(s.cache[user])) else Missed;
      s.(calls := s.calls[id := Call(user, false, None, None, phase)])
    case Enter(id) => Entered(s, id)
    case Land(id, result) => Landing(s, id, result)
    case Finish(id, lastHolder) =>
      (match s.calls[id].phase
       case Landed => FinishWith(s, id, Shared(s.landed[id], lastHolder))
       case Joined(leader) => FinishWith(s, id, Shared(s.landed[leader], lastHolder))
       case Served(list) => FinishWith(s, id, Success(list))
       case _ => s)
    case Evict(user) => s.(cache := s.cache - {user})
  }

  /** The state that `steps` lead to, if each of them could be taken. */
  function Run(s: State, steps: seq<Step>): Option<State> {
    if steps == [] then Some(s)
    else match Run(s, steps[..|steps| - 1])
      case None => None
      case Some(before) =>
        var last := steps[|steps| - 1];
        if Enabled(before, last) then Some(Apply(before, last)) else None
  }

  ghost predicate Reachable(s: State) { exists steps :: Run(INITIAL, steps) == Some(s) }

  // ---- what every step keeps ----------------------------------------------------------------

  /** A flight belongs to a call that is fetching for that user, and every such call owns its flight. */
  predicate FlightsOwned(s: State) {
    && (forall u :: u in s.flights ==>
       s.flights[u] in s.calls && s.calls[s.flights[u]].phase.Leading? && s.calls[s.flights[u]].user == u)
    && (forall id :: id in s.calls && s.calls[id].phase.Leading? ==>
       s.calls[id].user in s.flights && s.flights[s.calls[id].user] == id)
  }

  /** One of the two copies of a flight's result that its callers get. */
  predicate IsShared(result: FetchResult, answer: Answer) {
    answer == Shared(result, true) || answer == Shared(result, false)
  }

  /** How far a call that ran its closure has come, that nobody else ran one, and what its flight gave it. */
  predicate CallKept(s: State, id: CallId)
    requires id in s.calls
  {
    var call := s.calls[id];
    (id in s.landed ==> call.slot == Some(OutcomeOf(s.landed[id])))
    && match call.phase
       case Missed => !call.fetched && id !in s.landed && call.joined.None?
       case Leading => call.fetched && id !in s.landed && call.joined.None?
       case Landed => call.fetched && id in s.landed && call.joined.None?
       case Joined(leader) =>
         !call.fetched && id !in s.landed && call.joined == Some(leader) && leader in s.calls
           && s.calls[leader].user == call.user
         && (s.calls[leader].phase.Leading? || leader in s.landed)
       case Served(list) => !call.fetched && id !in s.landed && call.joined.None?
       case Finished(outcome, answer) =>
         (call.fetched <==> outcome.MissFetched?) && (id in s.landed <==> outcome.MissFetched?)
         && (outcome.MissFetched? ==> outcome.fetchOutcome == OutcomeOf(s.landed[id]) && IsShared(s.landed[id], answer))
         && (call.joined.Some? ==> outcome.MissCoalesced? && WaitedOn(s, call.joined.value, call.user, answer))
       case Panicked => false
  }

  predicate WaitedOn(s: State, leader: CallId, user: string, answer: Answer) {
    leader in s.landed && leader in s.calls && s.calls[leader].user == user && IsShared(s.landed[leader], answer)
  }

  predicate CallsKept(s: State) {
    (forall id :: id in s.calls ==> CallKept(s, id)) && s.landed.Keys <= s.calls.Keys
  }

  /** Some completed fetch for `user` succeeded with this list. */
  predicate FetchedFor(s: State, user: string, list: Destinations) {
    exists id :: id in s.landed && id in s.calls && s.calls[id].user == user && s.landed[id].Success?
      && s.landed[id].value.0 == list
  }

  /** Some completed fetch for `user` failed with this error, up to copying. */
  predicate FailedFor(s: State, user: string, e: EcpdsError) {
    exists id :: id in s.landed && id in s.calls && s.calls[id].user == user && s.landed[id].Failure?
                 && (e == s.landed[id].error || e == CloneError(s.landed[id].error))
  }

  predicate AnswerFetched(s: State, user: string, answer: Answer) {
    if answer.Success? then FetchedFor(s, user, answer.value) else FailedFor(s, user, answer.error)
  }

  predicate Sourced(s: State, id: CallId)
    requires id in s.calls
  {
    match s.calls[id].phase
    case Served(list) => FetchedFor(s, s.calls[id].user, list)
    case Finished(_, answer) => AnswerFetched(s, s.calls[id].user, answer)
    case _ => true
  }

  predicate AllSourced(s: State) {
    (forall u :: u in s.cache ==> FetchedFor(s, u, s.cache[u])) && forall id :: id in s.calls ==> Sourced(s, id)
  }

  predicate Inv(s: State) { FlightsOwned(s) && CallsKept(s) && AllSourced(s) }

  lemma FlightsEntered(s: State, id: CallId)
    requires Inv(s) && Enabled(s, Enter(id))
    ensures FlightsOwned(Entered(s, id))
  {
    var user := s.calls[id].user;
    if user !in s.cache && user !in s.flights {
      assert Entered(s, id).flights[user] == id;
    }
  }

  lemma FlightsLanded(s: State, id: CallId, result: FetchResult)
    requires Inv(s) && Enabled(s, Land(id, result))
    ensures FlightsOwned(Landing(s, id, result))
  {
    assert s.flights[s.calls[id].user] == id;
  }

  lemma FlightsFinished(s: State, id: CallId, lastHolder: bool)
    requires Inv(s) && Enabled(s, Finish(id, lastHolder))
    ensures FlightsOwned(Apply(s, Finish(id, lastHolder)))
  {
    var after := Apply(s, Finish(id, lastHolder));
    assert after.flights == s.flights && !after.calls[id].phase.Leading?;
  }

  lemma FlightsKept(s: State, step: Step)
    requires Inv(s) && Enabled(s, step)
    ensures FlightsOwned(Apply(s, step))
  {
    match step {
      case Enter(id) => FlightsEntered(s, id);
      case Land(id, result) => FlightsLanded(s, id, result);
      case Finish(id, lastHolder) => FlightsFinished(s, id, lastHolder);
      case _ =>
    }
  }

  predicate Extends(after: State, before: State) {
    && (forall id :: id in before.landed ==> id in after.landed && after.landed[id] == before.landed[id])
    && (forall id :: id in before.calls ==> id in after.calls && after.calls[id].user == before.calls[id].user)
  }

  lemma StepExtends(s: State, step: Step)
    requires Enabled(s, step) && (step.Land? ==> step.id !in s.landed)
    ensures Extends(Apply(s, step), s)
  {
    match step {
      case Lookup(id, _) =>
      case Enter(id) => assert Entered(s, id).calls[id].user == s.calls[id].user;
      case Land(id, result) => assert Landing(s, id, result).calls[id].user == s.calls[id].user;
      case Finish(id, lastHolder) => FinishExtends(s, id, lastHolder);
      case Evict(_) =>
    }
  }

  lemma FinishExtends(s: State, id: CallId, lastHolder: bool)
    requires Enabled(s, Finish(id, lastHolder))
    ensures Extends(Apply(s, Finish(id, lastHolder)), s)
  {
  }

  /** Completed fetches stay on record, and a call keeps its user. */
  lemma HistoryGrows(s: State, step: Step)
    requires Inv(s) && Enabled(s, step)
    ensures Extends(Apply(s, step), s)
  {
    assert step.Land? ==> CallKept(s, step.id);
    StepExtends(s, step);
  }

  /** A call that fetches goes on fetching until its result is on record. */
  lemma LeaderKept(s: State, step: Step, leader: CallId)
    requires Inv(s) && Enabled(s, step) && leader in s.calls && (s.calls[leader].phase.Leading? || leader in s.landed)
    ensures var after := Apply(s, step);
            leader in after.calls && (after.calls[leader].phase.Leading? || leader in after.landed)
  {
    assert CallKept(s, leader);
  }

  lemma BystanderKept(s: State, step: Step, id: CallId)
    requires Inv(s) && Enabled(s, step) && id in s.calls && Apply(s, step).calls[id] == s.calls[id]
    ensures CallKept(Apply(s, step), id)
  {
    assert CallKept(s, id);
    HistoryGrows(s, step);
    if s.calls[id].phase.Joined? {
      LeaderKept(s, step, s.calls[id].phase.leader);
    }
  }

  lemma ActorKept(s: State, step: Step, id: CallId)
    requires Inv(s) && Enabled(s, step) && !step.Evict? && step.id == id
    ensures id in Apply(s, step).calls && CallKept(Apply(s, step), id)
  {
    if id in s.calls {
      assert CallKept(s, id);
    }
  }

  lemma CallsKeptByStep(s: State, step: Step)
    requires Inv(s) && Enabled(s, step)
    ensures CallsKept(Apply(s, step))
  {
    var after := Apply(s, step);
    forall id | id in after.calls ensures CallKept(after, id) {
      if !step.Evict? && id == step.id {
        ActorKept(s, step, id);
      } else {
        BystanderKept(s, step, id);
      }
    }
  }

  lemma SourceStays(s: State, step: Step, user: string, answer: Answer)
    requires Inv(s) && Enabled(s, step) && AnswerFetched(s, user, answer)
    ensures AnswerFetched(Apply(s, step), user, answer)
  {
    HistoryGrows(s, step);
    var after := Apply(s, step);
    if answer.Success? {
      var id :| id in s.landed && id in s.calls && s.calls[id].user == user && s.landed[id].Success?
        && s.landed[id].value.0 == answer.value;
      assert id in after.landed && after.landed[id] == s.landed[id];
    } else {
      var id :| id in s.landed && id in s.calls && s.calls[id].user == user && s.landed[id].Failure?
                && (answer.error == s.landed[id].error || answer.error == CloneError(s.landed[id].error));
      assert id in after.landed && after.landed[id] == s.landed[id];
    }
  }

  lemma SharedIsSourced(s: State, id: CallId, leader: CallId, lastHolder: bool)
    requires CallsKept(s) && id in s.calls && leader in s.landed && s.calls[leader].user == s.calls[id].user
    ensures AnswerFetched(s, s.calls[id].user, Shared(s.landed[leader], lastHolder))
  {
    assert leader in s.calls;
  }

  lemma FinishIsSourced(s: State, id: CallId, lastHolder: bool)
    requires Inv(s) && Enabled(s, Finish(id, lastHolder))
    ensures var call := Apply(s, Finish(id, lastHolder)).calls[id];
            call.phase.Finished? && AnswerFetched(Apply(s, Finish(id, lastHolder)), call.user, call.phase.answer)
  {
    assert CallKept(s, id) && Sourced(s, id);
    var call := Apply(s, Finish(id, lastHolder)).calls[id];
    FinishAnswer(s, id, lastHolder);
    SourceStays(s, Finish(id, lastHolder), call.user, call.phase.answer);
  }

  lemma FinishAnswer(s: State, id: CallId, lastHolder: bool)
    requires Inv(s) && Enabled(s, Finish(id, lastHolder))
    ensures var call := Apply(s, Finish(id, lastHolder)).calls[id];
            call.phase.Finished? && AnswerFetched(s, call.user, call.phase.answer)
  {
    assert CallKept(s, id) && Sourced(s, id);
    match s.calls[id].phase {
      case Landed => SharedIsSourced(s, id, id, lastHolder);
      case Joined(leader) => SharedIsSourced(s, id, leader, lastHolder);
      case Served(list) => assert AnswerFetched(s, s.calls[id].user, Success(list));
      case _ =>
    }
  }

  lemma LandedSourced(s: State, id: CallId, result: FetchResult)
    requires Enabled(s, Land(id, result)) && result.Success?
    ensures var after := Apply(s, Land(id, result)); FetchedFor(after, s.calls[id].user, result.value.0)
  {
    var after := Landing(s, id, result);
    assert id in after.landed && after.landed[id] == result && after.calls[id].user == s.calls[id].user;
  }

  /** An entry is either the one this step lands or an older one. */
  lemma EntryOrigin(s: State, step: Step, user: string)
    requires Enabled(s, step) && user in Apply(s, step).cache
    ensures var list := Apply(s, step).cache[user];
            (user in s.cache && s.cache[user] == list)
            || (step.Land? && user == s.calls[step.id].user && step.result.Success? && step.result.value.0 == list)
  {
  }

  lemma CacheSourced(s: State, step: Step, user: string)
    requires Inv(s) && Enabled(s, step) && user in Apply(s, step).cache
    ensures FetchedFor(Apply(s, step), user, Apply(s, step).cache[user])
  {
    EntryOrigin(s, step, user);
    if user in s.cache && s.cache[user] == Apply(s, step).cache[user] {
      SourceStays(s, step, user, Success(s.cache[user]));
    } else {
      LandedSourced(s, step.id, step.result);
    }
  }

  lemma SameCallSourced(s: State, step: Step, id: CallId)
    requires Inv(s) && Enabled(s, step) && id in s.calls && id in Apply(s, step).calls
    requires Apply(s, step).calls[id].phase == s.calls[id].phase
    ensures Sourced(Apply(s, step), id)
  {
    assert Sourced(s, id);
    HistoryGrows(s, step);
    match s.calls[id].phase {
      case Finished(_, answer) => SourceStays(s, step, s.calls[id].user, answer);
      case Served(list) => SourceStays(s, step, s.calls[id].user, Success(list));
      case _ =>
    }
  }

  lemma FoundInCacheSourced(s: State, step: Step, user: string)
    requires Inv(s) && Enabled(s, step) && user in s.cache
    ensures AnswerFetched(Apply(s, step), user, Success(s.cache[user]))
  {
    SourceStays(s, step, user, Success(s.cache[user]));
  }

  lemma MovedCallSourced(s: State, step: Step, id: CallId)
    requires Inv(s) && Enabled(s, step) && !step.Evict? && step.id == id
    ensures id in Apply(s, step).calls && Sourced(Apply(s, step), id)
  {
    match step {
      case Finish(_, lastHolder) =>
        FinishIsSourced(s, id, lastHolder);
      case Lookup(_, user) =>
        if user in s.cache { FoundInCacheSourced(s, step, user); }
      case Enter(_) =>
        if s.calls[id].user in s.cache { FoundInCacheSourced(s, step, s.calls[id].user); }
      case Land(_, _) =>
    }
  }

  lemma Untouched(s: State, step: Step, id: CallId)
    requires Enabled(s, step) && id in Apply(s, step).calls && (step.Evict? || step.id != id)
    ensures id in s.calls && Apply(s, step).calls[id] == s.calls[id]
  {
  }

  lemma CallSourced(s: State, step: Step, id: CallId)
    requires Inv(s) && Enabled(s, step) && id in Apply(s, step).calls
    ensures Sourced(Apply(s, step), id)
  {
    if !step.Evict? && step.id == id {
      MovedCallSourced(s, step, id);
    } else {
      Untouched(s, step, id);
      SameCallSourced(s, step, id);
    }
  }

  lemma StepKeeps(s: State, step: Step)
    requires Inv(s) && Enabled(s, step)
    ensures Inv(Apply(s, step))
  {
    var after := Apply(s, step);
    FlightsKept(s, step);
    CallsKeptByStep(s, step);
    forall u | u in after.cache ensures FetchedFor(after, u, after.cache[u]) {
      CacheSourced(s, step, u);
    }
    forall id | id in after.calls ensures Sourced(after, id) {
      CallSourced(s, step, id);
    }
  }

  lemma {:induction false} RunKeeps(steps: seq<Step>, s: State)
    requires Run(INITIAL, steps) == Some(s)
    ensures Inv(s)
  {
    if steps != [] {
      var before := Run(INITIAL, steps[..|steps| - 1]).value;
      RunKeeps(steps[..|steps| - 1], before);
      StepKeeps(before, steps[|steps| - 1]);
    }
  }

  lemma ReachableKeeps(s: State)
    requires Reachable(s)
    ensures Inv(s)
  {
    var steps :| Run(INITIAL, steps) == Some(s);
    RunKeeps(steps, s);
  }

  // ---- guarantees over every interleaving ---------------------------------------------------

  /** At most one fetch per user is in flight. */
  lemma SingleFlight(s: State, a: CallId, b: CallId)
    requires Reachable(s) && a in s.calls && b in s.calls
    requires s.calls[a].phase.Leading? && s.calls[b].phase.Leading? && s.calls[a].user == s.calls[b].user
    ensures a == b
  {
    ReachableKeeps(s);
  }

  /** The `expect` on the outcome slot never fails. */
  lemma NeverPanics(s: State, id: CallId)
    requires Reachable(s) && id in s.calls
    ensures !s.calls[id].phase.Panicked?
  {
    ReachableKeeps(s);
    assert CallKept(s, id);
  }

  /** A call reports a fetch exactly when its own closure ran, and then with the outcome of that very fetch. */
  lemma FetchReportedByItsCaller(s: State, id: CallId)
    requires Reachable(s) && id in s.calls && s.calls[id].phase.Finished?
    ensures s.calls[id].phase.outcome.MissFetched? <==> s.calls[id].fetched
    ensures s.calls[id].fetched <==> id in s.landed
    ensures id in s.landed ==> s.calls[id].phase.outcome == MissFetched(OutcomeOf(s.landed[id]))
  {
    ReachableKeeps(s);
    assert CallKept(s, id);
  }

  /** The flight a call took part in: its own, or the one it waited on. */
  function FlightOf(s: State, id: CallId): Option<CallId>
    requires id in s.calls
  {
    if s.calls[id].fetched then Some(id) else s.calls[id].joined
  }

  /** The same list, or errors that the rest of the system cannot tell apart. */
  predicate SameAnswer(a: Answer, b: Answer) {
    if a.Success? && b.Success? then a == b
    else
      && a.Failure? && b.Failure? && FetchOutcomeOf(a.error) == FetchOutcomeOf(b.error)
      && DenyReasonOf(a.error) == DenyReasonOf(b.error)
  }

  /** All callers of one flight are calls of one user, and they get the same answer. */
  lemma FlightShares(s: State, a: CallId, b: CallId)
    requires Reachable(s) && a in s.calls && b in s.calls && s.calls[a].phase.Finished? && s.calls[b].phase.Finished?
    requires FlightOf(s, a).Some? && FlightOf(s, a) == FlightOf(s, b)
    ensures s.calls[a].user == s.calls[b].user && SameAnswer(s.calls[a].phase.answer, s.calls[b].phase.answer)
  {
    ReachableKeeps(s);
    assert CallKept(s, a) && CallKept(s, b);
  }

  /** Whatever a call returns or the cache holds came from a completed fetch for the same user; no error is stored. */
  lemma EverythingWasFetched(s: State)
    requires Reachable(s)
    ensures forall u :: u in s.cache ==> FetchedFor(s, u, s.cache[u])
    ensures forall id :: id in s.calls && s.calls[id].phase.Finished? ==>
            AnswerFetched(s, s.calls[id].user, s.calls[id].phase.answer)
  {
    ReachableKeeps(s);
    forall id | id in s.calls && s.calls[id].phase.Finished?
      ensures AnswerFetched(s, s.calls[id].user, s.calls[id].phase.answer) {
      assert Sourced(s, id);
    }
  }

  /** A failed fetch leaves the cache as it was and frees the user for the next caller, who fetches again. */
  lemma ErrorsAreNotCached(s: State, id: CallId, e: EcpdsError, next: CallId)
    requires Reachable(s) && Enabled(s, Land(id, Failure(e))) && next !in s.calls && s.calls[id].user !in s.cache
    ensures var user := s.calls[id].user;
            var after := Run(s, [Land(id, Failure(e)), Lookup(next, user), Enter(next)]);
            after.Some? && after.value.cache == s.cache && after.value.calls[next].phase == Leading
  {
    ReachableKeeps(s);
    var user := s.calls[id].user;
    var landed := Apply(s, Land(id, Failure(e)));
    var looked := Apply(landed, Lookup(next, user));
    RunThree(s, Land(id, Failure(e)), Lookup(next, user), Enter(next));
  }

  lemma RunThree(s: State, a: Step, b: Step, c: Step)
    requires Enabled(s, a) && Enabled(Apply(s, a), b) && Enabled(Apply(Apply(s, a), b), c)
    ensures Run(s, [a, b, c]) == Some(Apply(Apply(Apply(s, a), b), c))
  {
    assert [a, b, c][..2] == [a, b] && [a, b][..1] == [a] && [a][..0] == [];
    assert Run(s, [a]) == Some(Apply(s, a));
  }

  /** A waiter never waits for nothing: its leader is still fetching, or the waiter can finish at once. */
  lemma WaitersWakeUp(s: State, id: CallId, lastHolder: bool)
    requires Reachable(s) && id in s.calls && s.calls[id].phase.Joined?
    ensures Enabled(s, Finish(id, lastHolder)) || Enabled(s, Land(s.calls[id].phase.leader, Success(({}, Succeeded))))
  {
    ReachableKeeps(s);
    assert CallKept(s, id);
  }

  // ---- lists and the servers they come from -------------------------------------------------

  /** What the servers reply to the fetch that a call runs for a user. */
  type Servers = (string, CallId) -> seq<ServerResult>

  /** A fetch lands with the merge of what the servers replied to it. */
  ghost predicate LandsMerged(policy: OutagePolicy, servers: Servers, s: State, step: Step) {
    step.Land? && step.id in s.calls ==> IsMerge(policy, servers(s.calls[step.id].user, step.id), step.result)
  }

  ghost predicate ServedRun(policy: OutagePolicy, servers: Servers, steps: seq<Step>) {
    steps == []
    || (ServedRun(policy, servers, steps[..|steps| - 1])
        && (Run(INITIAL, steps[..|steps| - 1]).Some? ==>
              LandsMerged(policy, servers, Run(INITIAL, steps[..|steps| - 1]).value, steps[|steps| - 1])))
  }

  ghost predicate FromServers(policy: OutagePolicy, servers: Servers, s: State) {
    forall id :: id in s.landed ==> id in s.calls && IsMerge(policy, servers(s.calls[id].user, id), s.landed[id])
  }

  lemma LandedFromServers(policy: OutagePolicy, servers: Servers, s: State, step: Step)
    requires Inv(s) && Enabled(s, step) && FromServers(policy, servers, s) && LandsMerged(policy, servers, s, step)
    ensures FromServers(policy, servers, Apply(s, step))
  {
    var after := Apply(s, step);
    HistoryGrows(s, step);
    forall id | id in after.landed
      ensures id in after.calls && IsMerge(policy, servers(after.calls[id].user, id), after.landed[id])
    {
      if id in s.landed {
        assert after.landed[id] == s.landed[id];
      } else {
        assert step.Land? && id == step.id;
      }
    }
  }

  lemma {:induction false} ServedRunKeeps(policy: OutagePolicy, servers: Servers, steps: seq<Step>, s: State)
    requires ServedRun(policy, servers, steps) && Run(INITIAL, steps) == Some(s)
    ensures FromServers(policy, servers, s)
  {
    if steps != [] {
      var prefix := steps[..|steps| - 1];
      var before := Run(INITIAL, prefix).value;
      ServedRunKeeps(policy, servers, prefix, before);
      RunKeeps(prefix, before);
      LandedFromServers(policy, servers, before, steps[|steps| - 1]);
    }
  }

  /** Some server answered a fetch for this user with this destination. */
  ghost predicate ServerListed(servers: Servers, s: State, user: string, destination: string) {
    exists id :: id in s.landed && id in s.calls && s.calls[id].user == user && Answered(servers(user, id), destination)
  }

  /** Over every interleaving, what a call is given was answered by a server asked for that call's user. */
  lemma AnswersComeFromServers(policy: OutagePolicy, servers: Servers, steps: seq<Step>, s: State, id: CallId,
                               destination: string)
    requires ServedRun(policy, servers, steps) && Run(INITIAL, steps) == Some(s)
    requires id in s.calls && s.calls[id].phase.Finished? && s.calls[id].phase.answer.Success?
    requires destination in s.calls[id].phase.answer.value
    ensures ServerListed(servers, s, s.calls[id].user, destination)
  {
    ServedRunKeeps(policy, servers, steps, s);
    RunKeeps(steps, s);
    assert Sourced(s, id);
    var user, list := s.calls[id].user, s.calls[id].phase.answer.value;
    var f :| f in s.landed && f in s.calls && s.calls[f].user == user && s.landed[f].Success?
      && s.landed[f].value.0 == list;
    MergedWasAnswered(policy, servers(user, f), s.landed[f], destination);
  }

  // ---- the counters -------------------------------------------------------------------------

  function FinishedCalls(s: State): set<CallId> { set id | id in s.calls && s.calls[id].phase.Finished? }

  function Hits(s: State): set<CallId> { set id | id in FinishedCalls(s) && s.calls[id].phase.outcome.Hit? }

  function Coalesced(s: State): set<CallId> {
    set id | id in FinishedCalls(s) && s.calls[id].phase.outcome.MissCoalesced?
  }

  function Fetchers(s: State): set<CallId> { set id | id in FinishedCalls(s) && s.calls[id].phase.outcome.MissFetched? }

  function AboutToReport(s: State): set<CallId> { set id | id in s.calls && s.calls[id].phase.Landed? }

  function InFlight(s: State): set<CallId> { set id | id in s.calls && s.calls[id].phase.Leading? }

  /** Fetches started: closures that ran. */
  function Started(s: State): set<CallId> { set id | id in s.calls && s.calls[id].fetched }

  lemma DisjointSizes<T>(a: set<T>, b: set<T>)
    requires a !! b
    ensures |a + b| == |a| + |b|
  {
  }

  /**
   * Every finished call is counted under one outcome, every completed fetch is reported once by the
   * call that ran it (or is about to be), and every started fetch is completed or in flight.
   */
  lemma Accounting(s: State)
    requires Reachable(s)
    ensures |Hits(s)| + |Coalesced(s)| + |Fetchers(s)| == |FinishedCalls(s)|
    ensures |Fetchers(s)| + |AboutToReport(s)| == |s.landed|
    ensures |s.landed| + |InFlight(s)| == |Started(s)|
  {
    ReachableKeeps(s);
    FinishedCounted(s);
    LandedReported(s);
    StartedCounted(s);
  }

  lemma FinishedCounted(s: State)
    ensures |Hits(s)| + |Coalesced(s)| + |Fetchers(s)| == |FinishedCalls(s)|
  {
    assert Hits(s) + Coalesced(s) + Fetchers(s) == FinishedCalls(s);
    DisjointSizes(Hits(s) + Coalesced(s), Fetchers(s));
    DisjointSizes(Hits(s), Coalesced(s));
  }

  lemma LandedReported(s: State)
    requires CallsKept(s)
    ensures |Fetchers(s)| + |AboutToReport(s)| == |s.landed|
  {
    forall id ensures id in Fetchers(s) + AboutToReport(s) <==> id in s.landed {
      if id in s.calls {
        assert CallKept(s, id);
      }
    }
    assert Fetchers(s) + AboutToReport(s) == s.landed.Keys;
    DisjointSizes(Fetchers(s), AboutToReport(s));
  }

  lemma StartedCall(s: State, id: CallId)
    requires CallsKept(s) && id in s.calls
    ensures s.calls[id].fetched <==> id in s.landed || s.calls[id].phase.Leading?
    ensures !(id in s.landed && s.calls[id].phase.Leading?)
  {
    assert CallKept(s, id);
  }

  lemma StartedCounted(s: State)
    requires CallsKept(s)
    ensures |s.landed| + |InFlight(s)| == |Started(s)|
  {
    forall id | id in s.calls
      ensures (id in Started(s) <==> id in s.landed || id in InFlight(s)) && !(id in s.landed && id in InFlight(s))
    {
      StartedCall(s, id);
    }
    assert s.landed.Keys + InFlight(s) == Started(s);
    DisjointSizes(s.landed.Keys, InFlight(s));
  }

  /** Once nothing is in progress, the calls that report a fetch are exactly the upstream fetches made. */
  lemma QuietAccounting(s: State)
    requires Reachable(s) && forall id :: id in s.calls ==> s.calls[id].phase.Finished?
    ensures |Fetchers(s)| == |s.landed| == |Started(s)|
  {
    Accounting(s);
    assert AboutToReport(s) == {} && InFlight(s) == {};
  }

  // ---- one call at a time -------------------------------------------------------------------

  /** The cache as one caller sees it when nobody interferes. `upstream` is what its fetch would return. */
  class DestinationCache {
    var entries: map<string, Destinations>

    constructor ()
      ensures entries == map[]
    {
      entries := map[];
    }

    method TryGetOrFetch(user: string, upstream: FetchResult) returns (outcome: CacheOutcome, answer: Answer)
      modifies this
      ensures if user in old(entries) then
              outcome == Hit && answer == Success(old(entries)[user]) && entries == old(entries)
              else outcome == MissFetched(OutcomeOf(upstream))
                   && answer == (if upstream.Success? then Success(upstream.value.0) else Failure(upstream.error))
                   && entries == if upstream.Success? then old(entries)[user := upstream.value.0] else old(entries)
      ensures forall id, s: State :: s.cache == old(entries) && id !in s.calls && user !in s.flights ==>
                exists after :: Run(s, AloneSteps(s, id, user, upstream)) == Some(after) && after.cache == entries
                                && after.calls[id].phase == Finished(outcome, answer)
    {
      ghost var before := entries;
      if user in entries {
        outcome, answer := Hit, Success(entries[user]);
      } else {
        var fetched := true;
        var slot: Option<FetchOutcome>;
        match upstream {
          case Success((list, found)) =>
            slot := Some(found);
            entries := entries[user := list];
          case Failure(e) =>
            slot := Some(FetchOutcomeOf(e));
        }
        answer := Shared(upstream, true);
        outcome := if fetched then MissFetched(slot.value) else MissCoalesced;
      }
      forall id, s: State | s.cache == before && id !in s.calls && user !in s.flights
        ensures exists after :: Run(s, AloneSteps(s, id, user, upstream)) == Some(after) && after.cache == entries
                                && after.calls[id].phase == Finished(outcome, answer)
      {
        AloneRun(s, id, user, upstream);
      }
    }
  }

  /** The steps of a call that runs from start to end without interference. */
  function AloneSteps(s: State, id: CallId, user: string, upstream: FetchResult): seq<Step> {
    if user in s.cache then [Lookup(id, user)] else [Lookup(id, user), Enter(id), Land(id, upstream), Finish(id, true)]
  }

  lemma AloneRun(s: State, id: CallId, user: string, upstream: FetchResult)
    requires id !in s.calls && user !in s.flights
    ensures var after := Run(s, AloneSteps(s, id, user, upstream));
            after.Some? && id in after.value.calls
            && if user in s.cache then
               after.value.cache == s.cache && after.value.calls[id].phase == Finished(Hit, Success(s.cache[user]))
               else after.value.calls[id].phase == Finished(MissFetched(OutcomeOf(upstream)), Shared(upstream, true))
                    && after.value.cache == if upstream.Success? then s.cache[user := upstream.value.0] else s.cache
  {
    if user in s.cache {
      assert [Lookup(id, user)][..0] == [];
    } else {
      AloneStates(s, id, user, upstream);
      RunFour(s, Lookup(id, user), Enter(id), Land(id, upstream), Finish(id, true));
    }
  }

  /** The call's own record after each of its four steps. */
  lemma AloneStates(s: State, id: CallId, user: string, upstream: FetchResult)
    requires id !in s.calls && user !in s.flights && user !in s.cache
    ensures var looked := Apply(s, Lookup(id, user));
            looked.calls[id] == Call(user, false, None, None, Missed) && looked.cache == s.cache
              && looked.flights == s.flights
            && var led := Apply(looked, Enter(id));
               led.calls[id] == Call(user, true, None, None, Leading) && led.cache == s.cache
               && var landed := Apply(led, Land(id, upstream));
                  landed.calls[id] == Call(user, true, Some(OutcomeOf(upstream)), None, Landed)
                  && id in landed.landed && landed.landed[id] == upstream
                  && landed.cache == if upstream.Success? then s.cache[user := upstream.value.0] else s.cache
  {
  }

  lemma RunFour(s: State, a: Step, b: Step, c: Step, d: Step)
    requires Enabled(s, a) && Enabled(Apply(s, a), b) && Enabled(Apply(Apply(s, a), b), c)
    requires Enabled(Apply(Apply(Apply(s, a), b), c), d)
    ensures Run(s, [a, b, c, d]) == Some(Apply(Apply(Apply(Apply(s, a), b), c), d))
  {
    RunThree(s, a, b, c);
    assert [a, b, c, d][..3] == [a, b, c];
  }
}
