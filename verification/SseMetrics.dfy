/** Connection guards and the gauges they move (src/metrics.rs). */
module SseMetrics {
  import opened Wrappers

  datatype Connection = Connection(route: string, eventType: string, username: Option<string>) {
    function Labels(): (string, string) { (route, eventType) }
  }

  /** Gauges and counters by label, and the reference counts behind the unique-user gauge. */
  datatype Snapshot = Snapshot(
    active: map<(string, string), int>, total: map<(string, string), int>,
    uniqueActive: map<string, int>, uniqueUsers: map<string, map<string, nat>>)

  const EMPTY := Snapshot(map[], map[], map[], map[])

  /** The guards alive, each under its own number. */
  type Guards = map<nat, Connection>

  function Value<L>(series: map<L, int>, l: L): int { if l in series then series[l] else 0 }

  function Moved<L>(series: map<L, int>, l: L, delta: int): map<L, int> { series[l := Value(series, l) + delta] }

  function UsersOn(m: Snapshot, route: string): map<string, nat> {
    if route in m.uniqueUsers then m.uniqueUsers[route] else map[]
  }

  function UserCount(m: Snapshot, route: string, user: string): nat {
    if user in UsersOn(m, route) then UsersOn(m, route)[user] else 0
  }

  // ---- opening and dropping -----------------------------------------------------------------

  function UserOpened(m: Snapshot, route: string, user: string): Snapshot {
    var count := UserCount(m, route, user) + 1;
    m.(uniqueUsers := m.uniqueUsers[route := UsersOn(m, route)[user := count]],
       uniqueActive := if count == 1 then Moved(m.uniqueActive, route, 1) else m.uniqueActive)
  }

  function UserAdded(m: Snapshot, c: Connection): Snapshot {
    if c.username.Some? then UserOpened(m, c.route, c.username.value) else m
  }

  function GaugedUp(m: Snapshot, c: Connection): Snapshot {
    m.(active := Moved(m.active, c.Labels(), 1), total := Moved(m.total, c.Labels(), 1))
  }

  function Opened(m: Snapshot, c: Connection): Snapshot { UserAdded(GaugedUp(m, c), c) }

  /** Nothing changes for a user that is not on record; a count that reaches zero is removed. */
  function UserDropped(m: Snapshot, route: string, user: string): Snapshot {
    if user !in UsersOn(m, route) then m
    else
      var count := UserCount(m, route, user);
      if count <= 1 then
        m.(uniqueUsers := m.uniqueUsers[route := UsersOn(m, route) - {user}],
           uniqueActive := Moved(m.uniqueActive, route, -1))
      else
        m.(uniqueUsers := m.uniqueUsers[route := UsersOn(m, route)[user := count - 1]])
  }

  function UserRemoved(m: Snapshot, c: Connection): Snapshot {
    if c.username.Some? then UserDropped(m, c.route, c.username.value) else m
  }

  function GaugedDown(m: Snapshot, c: Connection): Snapshot { m.(active := Moved(m.active, c.Labels(), -1)) }

  function Dropped(m: Snapshot, c: Connection): Snapshot { UserRemoved(GaugedDown(m, c), c) }

  // ---- counts over live guards --------------------------------------------------------------

  function Labelled(live: Guards, labels: (string, string)): set<nat> {
    set id | id in live && live[id].Labels() == labels
  }

  function OfUser(live: Guards, route: string, user: string): set<nat> {
    set id | id in live && live[id].route == route && live[id].username == Some(user)
  }

  /** The users with at least one live connection on a route. */
  function LiveUsers(live: Guards, route: string): set<string> {
    set id | id in live && live[id].route == route && live[id].username.Some? :: live[id].username.value
  }

  predicate GaugesCount(m: Snapshot, live: Guards, labels: (string, string)) {
    Value(m.active, labels) == |Labelled(live, labels)|
  }

  predicate UsersCount(m: Snapshot, live: Guards, route: string, user: string) {
    UserCount(m, route, user) == |OfUser(live, route, user)|
      && (user in UsersOn(m, route) ==> UsersOn(m, route)[user] > 0)
  }

  predicate UniqueCount(m: Snapshot, route: string) { Value(m.uniqueActive, route) == |UsersOn(m, route)| }

  /** The reference counts and the unique-user gauge count these connections. */
  ghost predicate Recorded(m: Snapshot, live: Guards) {
    (forall route, user :: UsersCount(m, live, route, user)) && forall route :: UniqueCount(m, route)
  }

  ghost predicate Accounts(m: Snapshot, live: Guards) {
    (forall labels :: GaugesCount(m, live, labels)) && Recorded(m, live)
  }

  // ---- one more, one fewer ------------------------------------------------------------------

  lemma LabelledAfterOpen(live: Guards, id: nat, c: Connection, labels: (string, string))
    requires id !in live
    ensures |Labelled(live[id := c], labels)| == |Labelled(live, labels)| + if labels == c.Labels() then 1 else 0
  {
    assert Labelled(live[id := c], labels) ==
           if labels == c.Labels() then Labelled(live, labels) + {id} else Labelled(live, labels);
  }

  predicate Carries(c: Connection, route: string, user: string) { c.route == route && c.username == Some(user) }

  lemma OfUserAfterOpen(live: Guards, id: nat, c: Connection, route: string, user: string)
    requires id !in live
    ensures |OfUser(live[id := c], route, user)|
            == |OfUser(live, route, user)| + if Carries(c, route, user) then 1 else 0
  {
    assert OfUser(live[id := c], route, user) ==
           if Carries(c, route, user) then OfUser(live, route, user) + {id} else OfUser(live, route, user);
  }

  /** A dropped guard is one whose opening is undone. */
  lemma DropUndoesOpen(live: Guards, id: nat)
    requires id in live
    ensures (live - {id})[id := live[id]] == live
  {
  }

  lemma MapGrows<K, V>(m: map<K, V>, k: K, v: V)
    ensures |m[k := v]| == if k in m then |m| else |m| + 1
  {
    assert m[k := v].Keys == m.Keys + {k};
    if k in m {
      assert m.Keys + {k} == m.Keys;
    }
  }

  lemma MapShrinks<K, V>(m: map<K, V>, k: K)
    requires k in m
    ensures |m - {k}| == |m| - 1
  {
    assert (m - {k}).Keys == m.Keys - {k};
  }

  lemma UniqueAfterOpen(m: Snapshot, c: Connection, route: string)
    requires UniqueCount(m, route) && forall user :: user in UsersOn(m, route) ==> UsersOn(m, route)[user] > 0
    ensures UniqueCount(UserAdded(m, c), route)
  {
    if c.username.Some? && c.route == route {
      MapGrows(UsersOn(m, route), c.username.value, UserCount(m, route, c.username.value) + 1);
    }
  }

  lemma UniqueAfterDrop(m: Snapshot, c: Connection, route: string)
    requires UniqueCount(m, route)
    ensures UniqueCount(UserRemoved(m, c), route)
  {
    if c.username.Some? && c.route == route && c.username.value in UsersOn(m, route) {
      if UserCount(m, route, c.username.value) <= 1 {
        MapShrinks(UsersOn(m, route), c.username.value);
      } else {
        MapGrows(UsersOn(m, route), c.username.value, UserCount(m, route, c.username.value) - 1);
      }
    }
  }

  lemma UsersAfterOpen(m: Snapshot, c: Connection, route: string, user: string)
    ensures UserCount(UserAdded(m, c), route, user)
            == UserCount(m, route, user) + if Carries(c, route, user) then 1 else 0
    ensures user in UsersOn(UserAdded(m, c), route) <==> user in UsersOn(m, route) || Carries(c, route, user)
  {
  }

  lemma UsersAfterDrop(m: Snapshot, c: Connection, route: string, user: string)
    requires user in UsersOn(m, route) ==> UsersOn(m, route)[user] > 0
    requires Carries(c, route, user) ==> UserCount(m, route, user) > 0
    ensures UserCount(UserRemoved(m, c), route, user)
            == UserCount(m, route, user) - if Carries(c, route, user) then 1 else 0
    ensures user in UsersOn(UserRemoved(m, c), route) ==> UsersOn(UserRemoved(m, c), route)[user] > 0
  {
  }

  // ---- what opening and dropping keep -------------------------------------------------------

  lemma RecordUp(m: Snapshot, live: Guards, id: nat, c: Connection)
    requires Recorded(m, live) && id !in live
    ensures Recorded(UserAdded(m, c), live[id := c])
  {
    var after, grown := UserAdded(m, c), live[id := c];
    forall route, user ensures UsersCount(after, grown, route, user) {
      assert UsersCount(m, live, route, user);
      OfUserAfterOpen(live, id, c, route, user);
      UsersAfterOpen(m, c, route, user);
    }
    forall route ensures UniqueCount(after, route) {
      assert UniqueCount(m, route) && forall user :: user in UsersOn(m, route) ==> UsersCount(m, live, route, user);
      UniqueAfterOpen(m, c, route);
    }
  }

  /** The user of a connection on record has a count to decrement. */
  lemma OnRecord(m: Snapshot, live: Guards, id: nat)
    requires Recorded(m, live) && id in live && live[id].username.Some?
    ensures UserCount(m, live[id].route, live[id].username.value) > 0
  {
    var route, user := live[id].route, live[id].username.value;
    assert UsersCount(m, live, route, user) && id in OfUser(live, route, user);
  }

  lemma RecordDown(m: Snapshot, live: Guards, id: nat)
    requires Recorded(m, live) && id in live
    ensures Recorded(UserRemoved(m, live[id]), live - {id})
  {
    var c := live[id];
    DropUndoesOpen(live, id);
    if c.username.Some? {
      OnRecord(m, live, id);
    }
    var after, left := UserRemoved(m, c), live - {id};
    forall route, user ensures UsersCount(after, left, route, user) {
      assert UsersCount(m, live, route, user);
      OfUserAfterOpen(left, id, c, route, user);
      UsersAfterDrop(m, c, route, user);
    }
    forall route ensures UniqueCount(after, route) {
      assert UniqueCount(m, route);
      UniqueAfterDrop(m, c, route);
    }
  }

  lemma SameRecord(m: Snapshot, after: Snapshot, live: Guards)
    requires Recorded(m, live) && after.uniqueUsers == m.uniqueUsers && after.uniqueActive == m.uniqueActive
    ensures Recorded(after, live)
  {
    forall route, user ensures UsersCount(after, live, route, user) {
      assert UsersCount(m, live, route, user);
    }
    forall route ensures UniqueCount(after, route) {
      assert UniqueCount(m, route);
    }
  }

  lemma OpenKeeps(m: Snapshot, live: Guards, id: nat, c: Connection)
    requires Accounts(m, live) && id !in live
    ensures Accounts(Opened(m, c), live[id := c])
  {
    var after, grown := Opened(m, c), live[id := c];
    forall labels ensures GaugesCount(after, grown, labels) {
      assert GaugesCount(m, live, labels);
      LabelledAfterOpen(live, id, c, labels);
    }
    SameRecord(m, GaugedUp(m, c), live);
    RecordUp(GaugedUp(m, c), live, id, c);
  }

  /** A live guard's user is on record, so a drop always finds the count it decrements. */
  lemma LiveUserOnRecord(m: Snapshot, live: Guards, id: nat)
    requires Accounts(m, live) && id in live && live[id].username.Some?
    ensures UserCount(m, live[id].route, live[id].username.value) > 0
  {
    OnRecord(m, live, id);
  }

  lemma DropKeeps(m: Snapshot, live: Guards, id: nat)
    requires Accounts(m, live) && id in live
    ensures Accounts(Dropped(m, live[id]), live - {id})
  {
    var c := live[id];
    DropUndoesOpen(live, id);
    var after, left := Dropped(m, c), live - {id};
    forall labels ensures GaugesCount(after, left, labels) {
      assert GaugesCount(m, live, labels);
      LabelledAfterOpen(left, id, c, labels);
    }
    SameRecord(m, GaugedDown(m, c), live);
    RecordDown(GaugedDown(m, c), live, id);
  }

  lemma RecordedUsers(m: Snapshot, live: Guards, route: string)
    requires Recorded(m, live)
    ensures Value(m.uniqueActive, route) == |LiveUsers(live, route)|
  {
    assert UniqueCount(m, route);
    forall user ensures user in UsersOn(m, route) <==> user in LiveUsers(live, route) {
      assert UsersCount(m, live, route, user);
      if user in UsersOn(m, route) {
        assert OfUser(live, route, user) != {};
        var id :| id in OfUser(live, route, user);
      }
      if id :| id in live && live[id].route == route && live[id].username == Some(user) {
        assert id in OfUser(live, route, user);
      }
    }
    assert UsersOn(m, route).Keys == LiveUsers(live, route);
  }

  /** The unique-user gauge of a route is the number of distinct users with a live connection on it. */
  lemma UniqueGaugeIsDistinctUsers(m: Snapshot, live: Guards, route: string)
    requires Accounts(m, live)
    ensures Value(m.uniqueActive, route) == |LiveUsers(live, route)|
  {
    RecordedUsers(m, live, route);
  }

  // ---- whole runs ---------------------------------------------------------------------------

  datatype Event = Open(c: Connection) | Drop(id: nat)

  /**
   * Gauges and live guards after some events; the guard of an `Open` is numbered by its place. None
   * if a dead guard is dropped.
   */
  function Run(events: seq<Event>): Option<(Snapshot, Guards)> {
    if events == [] then Some((EMPTY, map[]))
    else
      var n := |events| - 1;
      match (Run(events[..n]), events[n])
      case (Some((m, live)), Open(c)) => Some((Opened(m, c), live[n := c]))
      case (Some((m, live)), Drop(id)) => if id in live then Some((Dropped(m, live[id]), live - {id})) else None
      case _ => None
  }

  /** How many of the events opened a connection with these labels. */
  function Opens(events: seq<Event>, labels: (string, string)): nat {
    if events == [] then 0
    else
      var last := events[|events| - 1];
      Opens(events[..|events| - 1], labels) + if last.Open? && last.c.Labels() == labels then 1 else 0
  }

  /**
   * Over every run of opens and drops, gauges count live guards and the counter counts every
   * connection ever opened.
   */
  lemma {:induction false} RunAccounts(events: seq<Event>, labels: (string, string))
    requires Run(events).Some?
    ensures Accounts(Run(events).value.0, Run(events).value.1)
    ensures forall id :: id in Run(events).value.1 ==> id < |events|
    ensures Value(Run(events).value.0.total, labels) == Opens(events, labels)
  {
    if events == [] {
      EmptyAccounts();
    } else {
      var n := |events| - 1;
      RunAccounts(events[..n], labels);
      var (m, live) := Run(events[..n]).value;
      if events[n].Open? {
        OpenKeeps(m, live, n, events[n].c);
      } else {
        DropKeeps(m, live, events[n].id);
      }
    }
  }

  lemma EmptyAccounts()
    ensures Accounts(EMPTY, map[])
  {
  }

  /** Once every guard is gone every gauge reads zero and no user is on record. */
  lemma IdleIsZero(events: seq<Event>, labels: (string, string), route: string, user: string)
    requires Run(events).Some? && Run(events).value.1 == map[]
    ensures var m := Run(events).value.0;
            Value(m.active, labels) == 0 && Value(m.uniqueActive, route) == 0 && user !in UsersOn(m, route)
  {
    RunAccounts(events, labels);
    var (m, live) := Run(events).value;
    assert GaugesCount(m, live, labels) && UsersCount(m, live, route, user);
    UniqueGaugeIsDistinctUsers(m, live, route);
  }

  // ---- the metrics object and its guards ----------------------------------------------------

  class AppMetrics {
    var active: map<(string, string), int>
    var total: map<(string, string), int>
    var uniqueActive: map<string, int>
    var uniqueUsers: map<string, map<string, nat>>
    ghost var live: Guards

    ghost function Gauges(): Snapshot
      reads this
    {
      Snapshot(active, total, uniqueActive, uniqueUsers)
    }

    ghost predicate Valid()
      reads this
    {
      Accounts(Gauges(), live)
    }

    constructor ()
      ensures Valid() && Gauges() == EMPTY && live == map[]
    {
      active, total, uniqueActive, uniqueUsers, live := map[], map[], map[], map[], map[];
      new;
      EmptyAccounts();
    }

    /** The user part of opening, under the lock of the reference counts. */
    method AddUser(route: string, user: string)
      modifies this`uniqueActive, this`uniqueUsers
      ensures Gauges() == UserOpened(old(Gauges()), route, user)
    {
      var users := if route in uniqueUsers then uniqueUsers[route] else map[];
      var count := (if user in users then users[user] else 0) + 1;
      uniqueUsers := uniqueUsers[route := users[user := count]];
      if count == 1 {
        uniqueActive := Moved(uniqueActive, route, 1);
      }
    }

    /** The user part of dropping. */
    method RemoveUser(route: string, user: string)
      modifies this`uniqueActive, this`uniqueUsers
      ensures Gauges() == UserDropped(old(Gauges()), route, user)
    {
      if route in uniqueUsers && user in uniqueUsers[route] {
        var users := uniqueUsers[route];
        var count := if users[user] == 0 then 0 else users[user] - 1;
        var counted := users[user := count];
        if count == 0 {
          counted := counted - {user};
          assert counted == users - {user};
          uniqueActive := Moved(uniqueActive, route, -1);
        }
        uniqueUsers := uniqueUsers[route := counted];
      }
    }

    method CountOpen(c: Connection)
      modifies this`active, this`total, this`uniqueActive, this`uniqueUsers
      ensures Gauges() == Opened(old(Gauges()), c)
    {
      active := Moved(active, c.Labels(), 1);
      total := Moved(total, c.Labels(), 1);
      if c.username.Some? {
        AddUser(c.route, c.username.value);
      }
    }

    method CountDrop(c: Connection)
      modifies this`active, this`uniqueActive, this`uniqueUsers
      ensures Gauges() == Dropped(old(Gauges()), c)
    {
      active := Moved(active, c.Labels(), -1);
      if c.username.Some? {
        RemoveUser(c.route, c.username.value);
      }
    }

    /** Counts a new connection. Its guard is live until dropped. */
    method TrackSseConnection(route: string, eventType: string, username: Option<string>)
      returns (guard: SseConnectionGuard)
      requires Valid()
      modifies this
      ensures Valid() && fresh(guard) && guard.metrics == this && guard.c == Connection(route, eventType, username)
      ensures guard.id !in old(live) && live == old(live)[guard.id := guard.c]
      ensures Gauges() == Opened(old(Gauges()), guard.c)
    {
      var c := Connection(route, eventType, username);
      ghost var id := Bounded(live.Keys);
      OpenKeeps(Gauges(), live, id, c);
      CountOpen(c);
      live := live[id := c];
      guard := new SseConnectionGuard(this, c, id);
    }
  }

  class SseConnectionGuard {
    const metrics: AppMetrics
    const c: Connection
    ghost const id: nat

    constructor (metrics: AppMetrics, c: Connection, ghost id: nat)
      ensures this.metrics == metrics && this.c == c && this.id == id
    {
      this.metrics, this.c, this.id := metrics, c, id;
    }

    /** `Drop::drop`, which runs once for a live guard. */
    method Drop()
      requires metrics.Valid() && id in metrics.live && metrics.live[id] == c
      modifies metrics
      ensures metrics.Valid() && metrics.live == old(metrics.live) - {id}
      ensures metrics.Gauges() == Dropped(old(metrics.Gauges()), c)
    {
      DropKeeps(metrics.Gauges(), metrics.live, id);
      metrics.CountDrop(c);
      metrics.live := metrics.live - {id};
    }
  }

  lemma Bounded(used: set<nat>) returns (n: nat)
    ensures forall k :: k in used ==> k < n
  {
    if used == {} {
      n := 0;
    } else {
      var k :| k in used;
      var m := Bounded(used - {k});
      assert used == (used - {k}) + {k};
      n := if m <= k then k + 1 else m;
    }
  }
}
