/** The access check of a read request (aviso-ecpds/src/checker.rs). */
module EcpdsChecker {
  import opened Wrappers
  import opened EcpdsClient
  import opened EcpdsCache

  type Access = Result<(), EcpdsError>

  /** The requested destination is in the user's list. */
  predicate Allows(matchKey: string, identifier: map<string, string>, list: Destinations) {
    matchKey in identifier && identifier[matchKey] in list
  }

  /** The decision on what the cache gave the request, however it came by it. */
  function Decide(matchKey: string, identifier: map<string, string>, answer: Answer): (access: Access)
    ensures access.Success? <==> answer.Success? && Allows(matchKey, identifier, answer.value)
    ensures access == Failure(AccessDenied(MatchKeyMissing)) <==>
            matchKey !in identifier || answer == Failure(AccessDenied(MatchKeyMissing))
    ensures matchKey in identifier && answer.Failure? ==> access == Failure(answer.error)
  {
    if matchKey !in identifier then Failure(AccessDenied(MatchKeyMissing))
    else match answer
      case Failure(e) => Failure(e)
      case Success(list) =>
        if identifier[matchKey] in list then Success(()) else Failure(AccessDenied(DestinationNotInList))
  }

  /**
   * The check over every interleaving, coalesced calls included: who is let in asks for a
   * destination that a completed fetch for that very user returned.
   */
  lemma ConcurrentCheck(s: State, id: CallId, matchKey: string, identifier: map<string, string>)
    requires Reachable(s) && id in s.calls && s.calls[id].phase.Finished?
    requires Decide(matchKey, identifier, s.calls[id].phase.answer).Success?
    ensures exists list :: FetchedFor(s, s.calls[id].user, list) && Allows(matchKey, identifier, list)
  {
    EverythingWasFetched(s);
    assert AnswerFetched(s, s.calls[id].user, s.calls[id].phase.answer);
  }

  class Checker {
    const cache: DestinationCache
    const matchKey: string

    constructor (matchKey: string)
      ensures this.matchKey == matchKey && fresh(cache) && cache.entries == map[]
    {
      cache := new DestinationCache();
      this.matchKey := matchKey;
    }

    /** `upstream` is what the ECPDS servers would answer for this user now. */
    method CheckAccess(user: string, identifier: map<string, string>, upstream: FetchResult)
      returns (outcome: Option<CacheOutcome>, access: Access)
      modifies cache
      ensures outcome.None? <==> matchKey !in identifier
      ensures outcome.None? ==> access == Failure(AccessDenied(MatchKeyMissing)) && cache.entries == old(cache.entries)
      ensures outcome.Some? ==>
              outcome.value == if user in old(cache.entries) then Hit else MissFetched(OutcomeOf(upstream))
      ensures outcome.Some? ==>
                var cached := user in old(cache.entries);
                access == Decide(matchKey, identifier,
                                 if cached then Success(old(cache.entries)[user]) else Shared(upstream, true))
      ensures outcome.Some? && user !in old(cache.entries) && upstream.Failure? ==> access == Failure(upstream.error)
      ensures access.Success? <==>
              outcome.Some? && user in cache.entries && Allows(matchKey, identifier, cache.entries[user])
      ensures access.Failure? && access.error == AccessDenied(DestinationNotInList) ==>
              (user in cache.entries && !Allows(matchKey, identifier, cache.entries[user]))
              || upstream == Failure(AccessDenied(DestinationNotInList))
      ensures forall u :: u != user ==> (u in cache.entries <==> u in old(cache.entries))
                                        && (u in cache.entries ==> cache.entries[u] == old(cache.entries)[u])
      ensures user in cache.entries ==>
              (user in old(cache.entries) && cache.entries[user] == old(cache.entries)[user])
              || (user !in old(cache.entries) && upstream.Success? && cache.entries[user] == upstream.value.0)
    {
      if matchKey !in identifier {
        return None, Failure(AccessDenied(MatchKeyMissing));
      }
      var destination := identifier[matchKey];
      var cacheOutcome, answer := cache.TryGetOrFetch(user, upstream);
      match answer {
        case Success(destinations) =>
          access := if destination in destinations then Success(()) else Failure(AccessDenied(DestinationNotInList));
        case Failure(e) =>
          access := Failure(e);
      }
      outcome := Some(cacheOutcome);
    }
  }
}
