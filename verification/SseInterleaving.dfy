/**
 * Connections opened and dropped concurrently (src/metrics.rs): the two gauges, and the reference
 * counts under their lock, move in separate steps that interleave freely.
 */
module SseInterleaving {
  import opened Wrappers
  import opened SseMetrics

  /** How far a connection has come, named after the last step it took. */
  datatype Stage = Starting | Gauged | Counted | Live | Dropping | Gone {
    function Next(): Stage {
      match this
      case Starting => Gauged
      case Gauged => Counted
      case Counted => Live
      case Live => Dropping
      case Dropping => Gone
      case Gone => Gone
    }
  }

  datatype Tracked = Tracked(c: Connection, stage: Stage)

  datatype State = State(m: Snapshot, tracked: map<nat, Tracked>)

  const INITIAL := State(EMPTY, map[])

  datatype Step = Begin(id: nat, c: Connection) | Advance(id: nat)

  /** One step of opening or dropping a connection: a gauge, the counter, or the locked reference counts. */
  function Effect(m: Snapshot, t: Tracked): Snapshot {
    match t.stage
    case Starting => m.(active := Moved(m.active, t.c.Labels(), 1))
    case Gauged => m.(total := Moved(m.total, t.c.Labels(), 1))
    case Counted => UserAdded(m, t.c)
    case Live => m.(active := Moved(m.active, t.c.Labels(), -1))
    case Dropping => UserRemoved(m, t.c)
    case Gone => m
  }

  predicate Enabled(s: State, step: Step) {
    match step
    case Begin(id, _) => id !in s.tracked
    case Advance(id) => id in s.tracked && !s.tracked[id].stage.Gone?
  }

  function Apply(s: State, step: Step): State
    requires Enabled(s, step)
  {
    match step
    case Begin(id, c) => s.(tracked := s.tracked[id := Tracked(c, Starting)])
    case Advance(id) =>
      var t := s.tracked[id];
      State(Effect(s.m, t), s.tracked[id := Tracked(t.c, t.stage.Next())])
  }

  function Run(s: State, steps: seq<Step>): Option<State> {
    if steps == [] then Some(s)
    else
      var last := |steps| - 1;
      match Run(s, steps[..last])
      case Some(before) => if Enabled(before, steps[last]) then Some(Apply(before, steps[last])) else None
      case None => None
  }

  /** Undisturbed, the steps of opening and of dropping are those of the metrics object's methods. */
  lemma UndisturbedSteps(m: Snapshot, c: Connection)
    ensures var gauged := Effect(m, Tracked(c, Starting));
            Effect(Effect(gauged, Tracked(c, Gauged)), Tracked(c, Counted)) == Opened(m, c)
    ensures Effect(Effect(m, Tracked(c, Live)), Tracked(c, Dropping)) == Dropped(m, c)
  {
  }

  // ---- what holds between the steps ---------------------------------------------------------

  const ON_GAUGE := {Gauged, Counted, Live}
  const ON_TOTAL := {Counted, Live, Dropping, Gone}
  const ON_RECORD := {Live, Dropping}

  /** The connections that have come to one of these stages. */
  function At(s: State, stages: set<Stage>): Guards {
    map id | id in s.tracked && s.tracked[id].stage in stages :: s.tracked[id].c
  }

  predicate SeriesCounts(series: map<(string, string), int>, guards: Guards, labels: (string, string)) {
    Value(series, labels) == |Labelled(guards, labels)|
  }

  /**
   * Every series counts the connections that have taken its step, and each user on record has as many
   * references as connections between the two locked steps.
   */
  ghost predicate Between(s: State) {
    && (forall labels :: SeriesCounts(s.m.active, At(s, ON_GAUGE), labels))
    && (forall labels :: SeriesCounts(s.m.total, At(s, ON_TOTAL), labels))
    && Recorded(s.m, At(s, ON_RECORD))
  }

  lemma AtAfter(s: State, id: nat, stages: set<Stage>)
    requires Enabled(s, Advance(id))
    ensures var t, before, after := s.tracked[id], At(s, stages), At(Apply(s, Advance(id)), stages);
            && (id in before <==> t.stage in stages) && (id in before ==> before[id] == t.c)
            && after == if t.stage.Next() in stages then before[id := t.c] else before - {id}
  {
  }

  lemma AtAfterBegin(s: State, id: nat, c: Connection, stages: set<Stage>)
    requires id !in s.tracked && Starting !in stages
    ensures At(Apply(s, Begin(id, c)), stages) == At(s, stages)
  {
  }

  lemma SeriesUp(series: map<(string, string), int>, guards: Guards, id: nat, c: Connection, labels: (string, string))
    requires id !in guards && SeriesCounts(series, guards, labels)
    ensures SeriesCounts(Moved(series, c.Labels(), 1), guards[id := c], labels)
  {
    LabelledAfterOpen(guards, id, c, labels);
  }

  lemma SeriesDown(series: map<(string, string), int>, guards: Guards, id: nat, labels: (string, string))
    requires id in guards && SeriesCounts(series, guards, labels)
    ensures SeriesCounts(Moved(series, guards[id].Labels(), -1), guards - {id}, labels)
  {
    DropUndoesOpen(guards, id);
    LabelledAfterOpen(guards - {id}, id, guards[id], labels);
  }

  lemma GaugeKept(s: State, id: nat, labels: (string, string))
    requires Between(s) && Enabled(s, Advance(id))
    ensures SeriesCounts(Apply(s, Advance(id)).m.active, At(Apply(s, Advance(id)), ON_GAUGE), labels)
  {
    var t, before := s.tracked[id], At(s, ON_GAUGE);
    AtAfter(s, id, ON_GAUGE);
    assert SeriesCounts(s.m.active, before, labels);
    if t.stage.Starting? {
      SeriesUp(s.m.active, before, id, t.c, labels);
    } else if t.stage.Live? {
      SeriesDown(s.m.active, before, id, labels);
    } else {
      assert At(Apply(s, Advance(id)), ON_GAUGE) == before;
    }
  }

  lemma TotalKept(s: State, id: nat, labels: (string, string))
    requires Between(s) && Enabled(s, Advance(id))
    ensures SeriesCounts(Apply(s, Advance(id)).m.total, At(Apply(s, Advance(id)), ON_TOTAL), labels)
  {
    var t, before := s.tracked[id], At(s, ON_TOTAL);
    AtAfter(s, id, ON_TOTAL);
    assert SeriesCounts(s.m.total, before, labels);
    if t.stage.Gauged? {
      SeriesUp(s.m.total, before, id, t.c, labels);
    } else {
      assert At(Apply(s, Advance(id)), ON_TOTAL) == before;
    }
  }

  lemma RecordKept(s: State, id: nat)
    requires Between(s) && Enabled(s, Advance(id))
    ensures Recorded(Apply(s, Advance(id)).m, At(Apply(s, Advance(id)), ON_RECORD))
  {
    var t, before, after := s.tracked[id], At(s, ON_RECORD), Apply(s, Advance(id));
    AtAfter(s, id, ON_RECORD);
    if t.stage.Counted? {
      RecordUp(s.m, before, id, t.c);
    } else if t.stage.Dropping? {
      RecordDown(s.m, before, id);
    } else {
      assert At(after, ON_RECORD) == before;
      SameRecord(s.m, after.m, before);
    }
  }

  /** Every single step keeps what holds between the steps. */
  lemma StepKeepsBetween(s: State, step: Step)
    requires Between(s) && Enabled(s, step)
    ensures Between(Apply(s, step))
  {
    match step {
      case Begin(id, c) =>
        AtAfterBegin(s, id, c, ON_GAUGE);
        AtAfterBegin(s, id, c, ON_TOTAL);
        AtAfterBegin(s, id, c, ON_RECORD);
        assert Apply(s, step).m == s.m;
      case Advance(id) =>
        forall labels ensures SeriesCounts(Apply(s, step).m.active, At(Apply(s, step), ON_GAUGE), labels) {
          GaugeKept(s, id, labels);
        }
        forall labels ensures SeriesCounts(Apply(s, step).m.total, At(Apply(s, step), ON_TOTAL), labels) {
          TotalKept(s, id, labels);
        }
        RecordKept(s, id);
    }
  }

  /** So does every interleaving. */
  lemma {:induction false} RunKeepsBetween(steps: seq<Step>, s: State)
    requires Run(INITIAL, steps) == Some(s)
    ensures Between(s)
  {
    if steps == [] {
    } else {
      var last := |steps| - 1;
      var before := Run(INITIAL, steps[..last]).value;
      RunKeepsBetween(steps[..last], before);
      StepKeepsBetween(before, steps[last]);
    }
  }

  // ---- gauges against live connections ------------------------------------------------------

  lemma LabelledParts(a: Guards, b: Guards, both: Guards, labels: (string, string))
    requires a.Keys !! b.Keys && both == a + b
    ensures |Labelled(both, labels)| == |Labelled(a, labels)| + |Labelled(b, labels)|
  {
    assert Labelled(both, labels) == Labelled(a, labels) + Labelled(b, labels);
  }

  /**
   * After every interleaving the gauge of active connections is ahead of the live ones by exactly those
   * still opening, and the users on record are those of live or dropping connections.
   */
  lemma GaugesInProgress(steps: seq<Step>, s: State, labels: (string, string), route: string)
    requires Run(INITIAL, steps) == Some(s)
    ensures Value(s.m.active, labels)
            == |Labelled(At(s, {Live}), labels)| + |Labelled(At(s, {Gauged, Counted}), labels)|
    ensures Value(s.m.uniqueActive, route) == |LiveUsers(At(s, ON_RECORD), route)|
  {
    RunKeepsBetween(steps, s);
    assert SeriesCounts(s.m.active, At(s, ON_GAUGE), labels);
    assert At(s, ON_GAUGE) == At(s, {Live}) + At(s, {Gauged, Counted});
    LabelledParts(At(s, {Live}), At(s, {Gauged, Counted}), At(s, ON_GAUGE), labels);
    RecordedUsers(s.m, At(s, ON_RECORD), route);
  }

  /** A drop that reaches the lock always finds its user on record, so the count never saturates. */
  lemma DropFindsUser(steps: seq<Step>, s: State, id: nat)
    requires Run(INITIAL, steps) == Some(s) && id in s.tracked && s.tracked[id].stage.Dropping?
    requires s.tracked[id].c.username.Some?
    ensures UserCount(s.m, s.tracked[id].c.route, s.tracked[id].c.username.value) > 0
  {
    RunKeepsBetween(steps, s);
    OnRecord(s.m, At(s, ON_RECORD), id);
  }

  /** No operation is under way. */
  predicate AtRest(s: State) { forall id :: id in s.tracked ==> s.tracked[id].stage.Live? || s.tracked[id].stage.Gone? }

  /** At rest, however the operations interleaved, the accounts are those of the live connections. */
  lemma RestAccounts(steps: seq<Step>, s: State)
    requires Run(INITIAL, steps) == Some(s) && AtRest(s)
    ensures Accounts(s.m, At(s, {Live}))
    ensures forall labels :: Value(s.m.total, labels) == |Labelled(At(s, {Live, Gone}), labels)|
  {
    RunKeepsBetween(steps, s);
    var live := At(s, {Live});
    assert At(s, ON_GAUGE) == live && At(s, ON_RECORD) == live && At(s, ON_TOTAL) == At(s, {Live, Gone});
    forall labels ensures GaugesCount(s.m, live, labels) {
      assert SeriesCounts(s.m.active, At(s, ON_GAUGE), labels);
    }
    forall labels ensures Value(s.m.total, labels) == |Labelled(At(s, {Live, Gone}), labels)| {
      assert SeriesCounts(s.m.total, At(s, ON_TOTAL), labels);
    }
  }

  // ---- every connection can end -------------------------------------------------------------

  function StepsLeft(stage: Stage): nat {
    match stage
    case Starting => 5
    case Gauged => 4
    case Counted => 3
    case Live => 2
    case Dropping => 1
    case Gone => 0
  }

  /** The connections that have not ended. */
  function Unfinished(s: State): set<nat> { set id | id in s.tracked && !s.tracked[id].stage.Gone? }

  /** From every state one connection can be run to its end, and no other is touched. */
  lemma {:induction false} OneEnds(steps: seq<Step>, s: State, id: nat) returns (more: seq<Step>, t: State)
    requires Run(INITIAL, steps) == Some(s) && id in s.tracked
    ensures Run(INITIAL, more) == Some(t) && t.tracked == s.tracked[id := Tracked(s.tracked[id].c, Gone)]
    decreases StepsLeft(s.tracked[id].stage)
  {
    if s.tracked[id].stage.Gone? {
      more, t := steps, s;
    } else {
      var longer, after := OneMoreStep(steps, s, Advance(id));
      more, t := OneEnds(longer, after, id);
    }
  }

  lemma {:induction false} AllEnd(steps: seq<Step>, s: State) returns (more: seq<Step>, t: State)
    requires Run(INITIAL, steps) == Some(s)
    ensures Run(INITIAL, more) == Some(t) && Unfinished(t) == {}
    decreases Unfinished(s)
  {
    if id :| id in Unfinished(s) {
      var longer, before := OneEnds(steps, s, id);
      assert Unfinished(before) == Unfinished(s) - {id};
      more, t := AllEnd(longer, before);
    } else {
      more, t := steps, s;
    }
  }

  /** Every interleaving can be run on to a state where all connections have ended, and every gauge is then zero. */
  lemma EverythingDrains(steps: seq<Step>, s: State, labels: (string, string), route: string, user: string)
    returns (more: seq<Step>, t: State)
    requires Run(INITIAL, steps) == Some(s)
    ensures Run(INITIAL, more) == Some(t) && Unfinished(t) == {}
    ensures Value(t.m.active, labels) == 0 && Value(t.m.uniqueActive, route) == 0 && user !in UsersOn(t.m, route)
  {
    more, t := AllEnd(steps, s);
    assert forall id :: id in t.tracked && !t.tracked[id].stage.Gone? ==> id in Unfinished(t);
    RestAccounts(more, t);
    assert At(t, {Live}) == map[];
    assert GaugesCount(t.m, map[], labels) && UsersCount(t.m, map[], route, user);
    UniqueGaugeIsDistinctUsers(t.m, map[], route);
  }

  /** Any connections at all can be live together, so no interleaving above is there in vain. */
  lemma {:induction false} AnyConnectionsLive(cs: seq<Connection>) returns (steps: seq<Step>, s: State)
    ensures Run(INITIAL, steps) == Some(s)
    ensures forall id: nat :: id in s.tracked <==> id < |cs|
    ensures forall id :: id in s.tracked ==> s.tracked[id] == Tracked(cs[id], Live)
  {
    if cs == [] {
      steps, s := [], INITIAL;
    } else {
      var id := |cs| - 1;
      var before, t := AnyConnectionsLive(cs[..id]);
      steps, s := OneMoreStep(before, t, Begin(id, cs[id]));
      steps, s := OneMoreStep(steps, s, Advance(id));
      steps, s := OneMoreStep(steps, s, Advance(id));
      steps, s := OneMoreStep(steps, s, Advance(id));
      assert s.tracked == t.tracked[id := Tracked(cs[id], Live)];
    }
  }

  lemma OneMoreStep(steps: seq<Step>, s: State, step: Step) returns (more: seq<Step>, t: State)
    requires Run(INITIAL, steps) == Some(s) && Enabled(s, step)
    ensures Run(INITIAL, more) == Some(t) && t == Apply(s, step)
  {
    more, t := steps + [step], Apply(s, step);
    assert more[..|more| - 1] == steps;
  }
}
