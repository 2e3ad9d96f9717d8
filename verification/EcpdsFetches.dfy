/** How often a user's list is fetched, over every interleaving of cache calls (aviso-ecpds/src/cache.rs). */
module EcpdsFetches {
  import opened Wrappers
  import opened EcpdsClient
  import opened EcpdsCache

  // ---- fetches against evictions ------------------------------------------------------------

  /** The completed fetches for a user that succeeded. */
  function Successes(s: State, user: string): set<CallId> {
    set id | id in s.landed && id in s.calls && s.calls[id].user == user && s.landed[id].Success?
  }

  /** How many of the steps took the user's entry away. */
  function Evictions(steps: seq<Step>, user: string): nat {
    if steps == [] then 0
    else Evictions(steps[..|steps| - 1], user) + if steps[|steps| - 1] == Evict(user) then 1 else 0
  }

  /** No fetch is under way for a user whose list is cached. */
  predicate FlightsUncached(s: State) { forall u :: u in s.flights ==> u !in s.cache }

  /** Successful fetches, with the one under way, against the evictions so far. */
  predicate Bounded(s: State, user: string, evictions: nat) {
    |Successes(s, user)| <= evictions + if user in s.cache then 1 else 0
  }

  lemma UncachedKept(s: State, step: Step)
    requires Inv(s) && FlightsUncached(s) && Enabled(s, step)
    ensures FlightsUncached(Apply(s, step))
  {
    if step.Land? {
      assert s.flights[s.calls[step.id].user] == step.id;
      var after := Apply(s, step);
      forall u | u in after.flights ensures u !in after.cache {
        assert u in s.flights && u != s.calls[step.id].user;
      }
    } else if step.Finish? {
      assert Apply(s, step).flights == s.flights && Apply(s, step).cache == s.cache;
    }
  }

  lemma LandedSuccesses(s: State, id: CallId, result: FetchResult, user: string)
    requires Inv(s) && Enabled(s, Land(id, result))
    ensures var after := Apply(s, Land(id, result));
            if result.Success? && s.calls[id].user == user then
              Successes(after, user) == Successes(s, user) + {id} && id !in Successes(s, user)
            else
              Successes(after, user) == Successes(s, user)
  {
    assert CallKept(s, id);
  }

  lemma OtherSuccesses(s: State, step: Step, user: string)
    requires Inv(s) && Enabled(s, step) && !step.Land?
    ensures Successes(Apply(s, step), user) == Successes(s, user)
  {
    HistoryGrows(s, step);
    SameLanded(s, step);
    SameRecord(s, Apply(s, step), user);
  }

  lemma SameLanded(s: State, step: Step)
    requires Enabled(s, step) && !step.Land?
    ensures Apply(s, step).landed == s.landed
  {
  }

  lemma SameRecord(s: State, after: State, user: string)
    requires after.landed == s.landed && s.landed.Keys <= s.calls.Keys && Extends(after, s)
    ensures Successes(after, user) == Successes(s, user)
  {
  }

  lemma BoundKept(s: State, step: Step, user: string, evictions: nat)
    requires Inv(s) && FlightsUncached(s) && Enabled(s, step) && Bounded(s, user, evictions)
    ensures Bounded(Apply(s, step), user, evictions + if step == Evict(user) then 1 else 0)
  {
    if step.Land? {
      assert s.flights[s.calls[step.id].user] == step.id;
      LandedSuccesses(s, step.id, step.result, user);
    } else {
      OtherSuccesses(s, step, user);
      if step.Finish? {
        assert Apply(s, step).cache == s.cache;
      }
    }
  }

  lemma {:induction false} RunBounds(steps: seq<Step>, s: State, user: string)
    requires Run(INITIAL, steps) == Some(s)
    ensures FlightsUncached(s) && Bounded(s, user, Evictions(steps, user))
  {
    if steps == [] {
      assert Successes(s, user) == {};
    } else {
      var prefix, last := steps[..|steps| - 1], steps[|steps| - 1];
      var before := Run(INITIAL, prefix).value;
      RunKeeps(prefix, before);
      RunBounds(prefix, before, user);
      UncachedKept(before, last);
      BoundKept(before, last, user, Evictions(prefix, user));
    }
  }

  /**
   * One fetch serves every caller: over every run, a user's successful fetches, the one under way
   * included, are at most one more than the evictions of that user.
   */
  lemma FetchesBounded(steps: seq<Step>, s: State, user: string)
    requires Run(INITIAL, steps) == Some(s)
    ensures |Successes(s, user)| + (if user in s.flights then 1 else 0) <= Evictions(steps, user) + 1
  {
    RunBounds(steps, s, user);
  }

  // ---- callers that need no fetch -----------------------------------------------------------

  /** A call that looks while the list is cached is a hit, and nothing else changes. */
  lemma CachedLookup(s: State, id: CallId, user: string)
    requires id !in s.calls && user in s.cache
    ensures var after := Apply(s, Lookup(id, user));
            && after.calls[id].phase == Finished(Hit, Success(s.cache[user])) && !after.calls[id].fetched
            && after.cache == s.cache && after.flights == s.flights && after.landed == s.landed
  {
  }

  /** A call that enters while the list is cached starts no fetch and is served that list. */
  lemma CachedEntry(s: State, id: CallId)
    requires Inv(s) && Enabled(s, Enter(id)) && s.calls[id].user in s.cache
    ensures var after := Apply(s, Enter(id));
            && after.calls[id].phase == Served(s.cache[s.calls[id].user]) && !after.calls[id].fetched
            && after.cache == s.cache && after.flights == s.flights && after.landed == s.landed
  {
    assert CallKept(s, id);
  }

  /** A call that enters while another fetches for its user starts no fetch and waits for that one. */
  lemma JoiningEntry(s: State, id: CallId)
    requires Inv(s) && FlightsUncached(s) && Enabled(s, Enter(id)) && s.calls[id].user in s.flights
    ensures var after := Apply(s, Enter(id));
            && after.calls[id].phase == Joined(s.flights[s.calls[id].user]) && !after.calls[id].fetched
            && after.cache == s.cache && after.flights == s.flights && after.landed == s.landed
  {
    assert CallKept(s, id);
  }

  predicate ServedOr(s: State, id: CallId, list: Destinations) {
    id in s.calls && !s.calls[id].fetched
    && (s.calls[id].phase == Served(list) || s.calls[id].phase == Finished(MissCoalesced, Success(list)))
  }

  lemma ServedKept(s: State, step: Step, id: CallId, list: Destinations)
    requires Inv(s) && Enabled(s, step) && ServedOr(s, id, list)
    ensures ServedOr(Apply(s, step), id, list)
  {
  }

  lemma {:induction false} ServedRuns(s: State, steps: seq<Step>, t: State, id: CallId, list: Destinations)
    requires Reachable(s) && ServedOr(s, id, list) && Run(s, steps) == Some(t)
    ensures Reachable(t) && ServedOr(t, id, list)
  {
    if steps != [] {
      var prefix, last := steps[..|steps| - 1], steps[|steps| - 1];
      var before := Run(s, prefix).value;
      ServedRuns(s, prefix, before, id, list);
      ReachableKeeps(before);
      ServedKept(before, last, id, list);
      ReachableStep(before, last);
    }
  }

  lemma ReachableStep(s: State, step: Step)
    requires Reachable(s) && Enabled(s, step)
    ensures Reachable(Apply(s, step))
  {
    var steps :| Run(INITIAL, steps) == Some(s);
    var more := steps + [step];
    assert more[..|more| - 1] == steps;
    assert Run(INITIAL, more) == Some(Apply(s, step));
  }

  /**
   * Whatever happens after a call has entered with its list cached, evictions included, it never
   * fetches, can always finish, and finishes coalesced with the list that was cached.
   */
  lemma CachedCallerIsCoalesced(s: State, id: CallId, steps: seq<Step>, t: State)
    requires Reachable(s) && Enabled(s, Enter(id)) && s.calls[id].user in s.cache
    requires Run(Apply(s, Enter(id)), steps) == Some(t)
    ensures id in t.calls && !t.calls[id].fetched
    ensures t.calls[id].phase.Finished? || Enabled(t, Finish(id, true))
    ensures t.calls[id].phase.Finished? ==>
              t.calls[id].phase == Finished(MissCoalesced, Success(s.cache[s.calls[id].user]))
  {
    EnteredIsServed(s, id);
    ServedRuns(Apply(s, Enter(id)), steps, t, id, s.cache[s.calls[id].user]);
  }

  lemma EnteredIsServed(s: State, id: CallId)
    requires Reachable(s) && Enabled(s, Enter(id)) && s.calls[id].user in s.cache
    ensures Reachable(Apply(s, Enter(id))) && ServedOr(Apply(s, Enter(id)), id, s.cache[s.calls[id].user])
  {
    ReachableKeeps(s);
    CachedEntry(s, id);
    ReachableStep(s, Enter(id));
  }

  /** Two concurrent misses of one user: the second caller is served what the first one fetched. */
  lemma SecondMissIsServed(user: string, list: Destinations)
    ensures var result: FetchResult := Success((list, Succeeded));
            var steps := [Lookup(1, user), Lookup(2, user), Enter(1), Land(1, result), Enter(2)];
            Run(INITIAL, steps).Some? && Run(INITIAL, steps).value.calls[2].phase == Served(list)
  {
    var result: FetchResult := Success((list, Succeeded));
    var a := Apply(INITIAL, Lookup(1, user));
    var b := Apply(a, Lookup(2, user));
    var c := Apply(b, Enter(1));
    var d := Apply(c, Land(1, result));
    RunThree(INITIAL, Lookup(1, user), Lookup(2, user), Enter(1));
    var three := [Lookup(1, user), Lookup(2, user), Enter(1)];
    var four := three + [Land(1, result)];
    var five := four + [Enter(2)];
    assert four[..3] == three && five[..4] == four;
    assert Run(INITIAL, four) == Some(d);
    assert Run(INITIAL, five) == Some(Apply(d, Enter(2)));
    assert five == [Lookup(1, user), Lookup(2, user), Enter(1), Land(1, result), Enter(2)];
  }

  // ---- every call can finish ----------------------------------------------------------------

  lemma {:induction false} RunFrom(s: State, first: Step, rest: seq<Step>)
    requires Enabled(s, first)
    ensures Run(s, [first] + rest) == Run(Apply(s, first), rest)
  {
    var steps, last := [first] + rest, |rest| - 1;
    if rest == [] {
      assert steps[..0] == [] && steps[0] == first;
    } else {
      assert steps[..|steps| - 1] == [first] + rest[..last];
      RunFrom(s, first, rest[..last]);
    }
  }

  /** The steps a call still needs, its leader's included, when nobody disturbs it. */
  function StepsLeft(s: State, id: CallId): nat
    requires id in s.calls
  {
    match s.calls[id].phase
    case Missed => 3
    case Leading => 2
    case Joined(leader) => if leader in s.landed then 1 else 2
    case Finished(_, _) => 0
    case _ => 1
  }

  function NextStep(s: State, id: CallId, result: FetchResult): Step
    requires id in s.calls
  {
    match s.calls[id].phase
    case Missed => Enter(id)
    case Leading => Land(id, result)
    case Joined(leader) => if leader in s.landed then Finish(id, true) else Land(leader, result)
    case _ => Finish(id, true)
  }

  lemma NextStepTaken(s: State, id: CallId, result: FetchResult)
    requires Reachable(s) && id in s.calls && !s.calls[id].phase.Finished?
    ensures Enabled(s, NextStep(s, id, result)) && Reachable(Apply(s, NextStep(s, id, result)))
  {
    ReachableKeeps(s);
    assert CallKept(s, id);
    ReachableStep(s, NextStep(s, id, result));
  }

  lemma NextStepHelps(s: State, id: CallId, result: FetchResult)
    requires id in s.calls && CallKept(s, id) && !s.calls[id].phase.Finished? && Enabled(s, NextStep(s, id, result))
    ensures var after := Apply(s, NextStep(s, id, result));
            id in after.calls && (after.calls[id].phase.Panicked? || StepsLeft(after, id) < StepsLeft(s, id))
  {
  }

  /** From every reachable state every call finishes in at most three steps, whatever its fetch returns. */
  lemma {:induction false} EveryCallFinishes(s: State, id: CallId, result: FetchResult)
    returns (steps: seq<Step>, t: State)
    requires Reachable(s) && id in s.calls
    ensures Run(s, steps) == Some(t) && id in t.calls && t.calls[id].phase.Finished?
    ensures |steps| <= StepsLeft(s, id) <= 3
    decreases StepsLeft(s, id)
  {
    if s.calls[id].phase.Finished? {
      steps, t := [], s;
    } else {
      var first := NextStep(s, id, result);
      NextStepTaken(s, id, result);
      ReachableKeeps(s);
      NextStepHelps(s, id, result);
      NeverPanics(Apply(s, first), id);
      var rest;
      rest, t := EveryCallFinishes(Apply(s, first), id, result);
      RunFrom(s, first, rest);
      steps := [first] + rest;
    }
  }

  // ---- the bound is reached -----------------------------------------------------------------

  lemma OneMore(steps: seq<Step>, s: State, step: Step, user: string)
    requires Run(INITIAL, steps) == Some(s) && Enabled(s, step)
    ensures Run(INITIAL, steps + [step]) == Some(Apply(s, step))
    ensures Evictions(steps + [step], user) == Evictions(steps, user) + if step == Evict(user) then 1 else 0
  {
    assert (steps + [step])[..|steps|] == steps;
  }

  lemma LeaderStates(s: State, user: string, id: CallId)
    requires s.flights == map[] && user !in s.cache && id !in s.calls
    ensures var looked := Apply(s, Lookup(id, user));
            && Enabled(looked, Enter(id))
            && var led := Apply(looked, Enter(id));
               && id in led.calls && led.calls[id].phase == Leading && led.calls[id].user == user
               && led.flights == map[user := id] && led.calls.Keys == s.calls.Keys + {id}
  {
    var looked := Apply(s, Lookup(id, user));
    assert looked.calls[id] == Call(user, false, None, None, Missed);
    assert looked.cache == s.cache && looked.flights == s.flights;
  }

  lemma OneMoreSuccess(led: State, id: CallId, user: string, result: FetchResult)
    requires Inv(led) && Enabled(led, Land(id, result)) && led.calls[id].user == user && result.Success?
    requires led.flights == map[user := id]
    ensures var t := Apply(led, Land(id, result));
            |Successes(t, user)| == |Successes(led, user)| + 1 && t.flights == map[] && t.calls.Keys == led.calls.Keys
  {
    LandedSuccesses(led, id, result, user);
  }

  lemma Fetched(steps: seq<Step>, s: State, user: string, id: CallId, list: Destinations)
    returns (more: seq<Step>, t: State)
    requires Run(INITIAL, steps) == Some(s) && s.flights == map[] && user !in s.cache && id !in s.calls
    ensures Run(INITIAL, more) == Some(t) && Evictions(more, user) == Evictions(steps, user)
    ensures |Successes(t, user)| == |Successes(s, user)| + 1
    ensures t.flights == map[] && t.calls.Keys == s.calls.Keys + {id}
  {
    LeaderStates(s, user, id);
    var a, looked := steps + [Lookup(id, user)], Apply(s, Lookup(id, user));
    RunKeeps(steps, s);
    OneMore(steps, s, Lookup(id, user), user);
    OtherSuccesses(s, Lookup(id, user), user);
    var b, led := a + [Enter(id)], Apply(looked, Enter(id));
    RunKeeps(a, looked);
    OneMore(a, looked, Enter(id), user);
    OtherSuccesses(looked, Enter(id), user);
    RunKeeps(b, led);
    var result: FetchResult := Success((list, Succeeded));
    OneMore(b, led, Land(id, result), user);
    OneMoreSuccess(led, id, user, result);
    more, t := b + [Land(id, result)], Apply(led, Land(id, result));
  }

  /** For every number of evictions some run fetches once more than that, so the bound cannot be lowered. */
  lemma {:induction false} BoundIsReached(user: string, list: Destinations, n: nat) returns (steps: seq<Step>, s: State)
    ensures Run(INITIAL, steps) == Some(s) && Evictions(steps, user) == n && |Successes(s, user)| == n + 1
    ensures s.flights == map[] && forall id :: id in s.calls ==> id <= n
  {
    if n == 0 {
      assert Successes(INITIAL, user) == {};
      steps, s := Fetched([], INITIAL, user, 0, list);
    } else {
      var before, t := BoundIsReached(user, list, n - 1);
      RunKeeps(before, t);
      OneMore(before, t, Evict(user), user);
      OtherSuccesses(t, Evict(user), user);
      steps, s := Fetched(before + [Evict(user)], Apply(t, Evict(user)), user, n, list);
    }
  }
}
