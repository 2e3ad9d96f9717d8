/**
 * The region of every strictly convex ring, under both fill rules and in both directions: a point is
 * contained exactly when it lies on the inner side of every edge, and touched when on no outer side.
 */
module ConvexRing {
  import opened Json
  import opened Platform
  import opened Geometry

  /** Every three vertices, in order, turn left: a strictly convex polygon, passed once anticlockwise. */
  ghost predicate TurnsLeft(vs: seq<Coordinate>) {
    |vs| >= 3 && forall i, j, k :: 0 <= i < j < k < |vs| ==> Orientation(vs[i], vs[j], vs[k]) > 0
  }

  /** Every three vertices, in order, turn right: passed once clockwise. */
  ghost predicate TurnsRight(vs: seq<Coordinate>) {
    |vs| >= 3 && forall i, j, k :: 0 <= i < j < k < |vs| ==> Orientation(vs[i], vs[j], vs[k]) < 0
  }

  /** The vertices with the first one repeated at the end. */
  function RingOf(vs: seq<Coordinate>): (ring: seq<Coordinate>)
    requires vs != []
    ensures |ring| == |vs| + 1 && ring[|vs|] == vs[0] && forall i :: 0 <= i < |vs| ==> ring[i] == vs[i]
  {
    vs + [vs[0]]
  }

  predicate LeftOfAll(ring: seq<Coordinate>, p: Coordinate) {
    forall i :: 0 <= i < |ring| - 1 ==> Orientation(ring[i], ring[i + 1], p) > 0
  }

  predicate RightOfNone(ring: seq<Coordinate>, p: Coordinate) {
    forall i :: 0 <= i < |ring| - 1 ==> Orientation(ring[i], ring[i + 1], p) >= 0
  }

  predicate RightOfAll(ring: seq<Coordinate>, p: Coordinate) {
    forall i :: 0 <= i < |ring| - 1 ==> Orientation(ring[i], ring[i + 1], p) < 0
  }

  predicate LeftOfNone(ring: seq<Coordinate>, p: Coordinate) {
    forall i :: 0 <= i < |ring| - 1 ==> Orientation(ring[i], ring[i + 1], p) <= 0
  }

  // ---- identities of orientations -----------------------------------------------------------

  /** The orientation as the cross product of the vectors that lead from the point to the two ends. */
  lemma CrossProduct(a: Coordinate, b: Coordinate, p: Coordinate)
    ensures Orientation(a, b, p)
            == (a.lon - p.lon) * (b.lat - p.lat) - (b.lon - p.lon) * (a.lat - p.lat)
  {
    var x, y, u, v := a.lon - p.lon, a.lat - p.lat, b.lon - p.lon, b.lat - p.lat;
    assert b.lon - a.lon == u - x && b.lat - a.lat == v - y && p.lat - a.lat == -y && p.lon - a.lon == -x;
    assert (u - x) * (-y) - (v - y) * (-x) == x * v - u * y;
  }

  lemma Cyclic(a: Coordinate, b: Coordinate, c: Coordinate)
    ensures Orientation(a, b, c) == Orientation(b, c, a) == Orientation(c, a, b)
    ensures Orientation(b, a, c) == -Orientation(a, b, c)
  {
  }

  lemma Quadrilateral(a: Coordinate, b: Coordinate, c: Coordinate, d: Coordinate, level: int)
    ensures Orientation(b, c, d) * (a.lat - level) + Orientation(a, b, d) * (c.lat - level)
            == Orientation(a, c, d) * (b.lat - level) + Orientation(a, b, c) * (d.lat - level)
  {
  }

  lemma ThreeVectors(x1: int, y1: int, x2: int, y2: int, x3: int, y3: int)
    ensures (x2 * y3 - x3 * y2) * y1 + (x3 * y1 - x1 * y3) * y2 + (x1 * y2 - x2 * y1) * y3 == 0
  {
  }

  lemma Barycentric(u: Coordinate, v: Coordinate, w: Coordinate, p: Coordinate)
    ensures Orientation(v, w, p) * (u.lat - p.lat) + Orientation(w, u, p) * (v.lat - p.lat)
            + Orientation(u, v, p) * (w.lat - p.lat) == 0
  {
    CrossProduct(v, w, p);
    CrossProduct(w, u, p);
    CrossProduct(u, v, p);
    ThreeVectors(u.lon - p.lon, u.lat - p.lat, v.lon - p.lon, v.lat - p.lat, w.lon - p.lon, w.lat - p.lat);
  }

  /** The areas seen from a point add up to the area of the triangle. */
  lemma AreasAdd(u: Coordinate, v: Coordinate, w: Coordinate, p: Coordinate)
    ensures Orientation(v, w, p) + Orientation(w, u, p) + Orientation(u, v, p) == Orientation(u, v, w)
  {
  }

  /** Where the line through `a` and `b` meets the latitude of `p`, measured against the edge from `e` to `f`. */
  lemma LevelLat(a: Coordinate, b: Coordinate, e: Coordinate, f: Coordinate, p: Coordinate)
    ensures (b.lat - p.lat) * Orientation(e, f, a) + (p.lat - a.lat) * Orientation(e, f, b)
            == (b.lat - a.lat) * Orientation(e, f, p) + (e.lat - f.lat) * Orientation(a, b, p)
  {
  }

  lemma LevelLon(a: Coordinate, b: Coordinate, e: Coordinate, f: Coordinate, p: Coordinate)
    ensures (b.lon - p.lon) * Orientation(e, f, a) + (p.lon - a.lon) * Orientation(e, f, b)
            == (b.lon - a.lon) * Orientation(e, f, p) + (e.lon - f.lon) * Orientation(a, b, p)
  {
  }

  // ---- signs of products --------------------------------------------------------------------

  lemma Positive(x: int, y: int)
    requires x > 0 && y > 0
    ensures x * y > 0
  {
  }

  lemma NotPositive(x: int, y: int)
    requires x >= 0 && y <= 0
    ensures x * y <= 0
  {
  }

  /** A positive factor keeps the sign. */
  lemma Factor(h: int, o: int)
    requires h > 0
    ensures (h * o > 0 <==> o > 0) && (h * o == 0 <==> o == 0)
  {
  }

  lemma Scaled(x: int, small: int, large: int)
    requires x >= 0 && small <= large
    ensures x * small <= x * large
  {
  }

  lemma Weights(s: int, x: int, t: int, y: int)
    requires s > 0 && x >= 0 && t >= 0 && y >= 0
    ensures s * x + t * y >= 0
    ensures s * x + t * y == 0 ==> x == 0
  {
    NotPositive(t, -y);
    Factor(s, x);
  }

  lemma ZeroProduct(x: int, y: int)
    requires x * y == 0
    ensures x == 0 || y == 0
  {
  }

  // ---- edges and vertices -------------------------------------------------------------------

  /** No vertex is to the right of an edge, and only the edge's own ends are on its line. */
  lemma EdgeLeft(vs: seq<Coordinate>, i: nat, k: nat)
    requires TurnsLeft(vs) && i < |vs| && k < |vs|
    ensures var o := Orientation(RingOf(vs)[i], RingOf(vs)[i + 1], vs[k]);
            o >= 0 && (o == 0 ==> vs[k] == RingOf(vs)[i] || vs[k] == RingOf(vs)[i + 1])
  {
    var n := |vs|;
    if i + 1 < n {
      Degenerate(vs[i], vs[i + 1]);
      if k < i {
        LeftTurn(vs, k, i, i + 1);
      } else if k > i + 1 {
        LeftTurn(vs, i, i + 1, k);
      }
    } else {
      Degenerate(vs[i], vs[0]);
      if 0 < k < i {
        LeftTurn(vs, 0, k, i);
      }
    }
  }

  lemma LeftTurn(vs: seq<Coordinate>, i: nat, j: nat, k: nat)
    requires TurnsLeft(vs) && i < j < k < |vs|
    ensures Orientation(vs[i], vs[j], vs[k]) > 0 && Orientation(vs[j], vs[k], vs[i]) > 0
    ensures Orientation(vs[k], vs[i], vs[j]) > 0
  {
    Cyclic(vs[i], vs[j], vs[k]);
  }

  lemma Alternating(a: Coordinate, b: Coordinate, c: Coordinate, d: Coordinate, p: Coordinate)
    requires Orientation(b, c, d) > 0 && Orientation(a, b, d) > 0 && Orientation(a, c, d) > 0
    requires Orientation(a, b, c) > 0
    ensures !(Above(a, p) == Above(c, p) && Above(b, p) == Above(d, p) && Above(a, p) != Above(b, p))
  {
    Quadrilateral(a, b, c, d, p.lat);
    if Above(a, p) == Above(c, p) == 1 && Above(b, p) == Above(d, p) == 0 {
      Positive(Orientation(b, c, d), a.lat - p.lat);
      Positive(Orientation(a, b, d), c.lat - p.lat);
      NotPositive(Orientation(a, c, d), b.lat - p.lat);
      NotPositive(Orientation(a, b, c), d.lat - p.lat);
    }
    if Above(a, p) == Above(c, p) == 0 && Above(b, p) == Above(d, p) == 1 {
      NotPositive(Orientation(b, c, d), a.lat - p.lat);
      NotPositive(Orientation(a, b, d), c.lat - p.lat);
      Positive(Orientation(a, c, d), b.lat - p.lat);
      Positive(Orientation(a, b, c), d.lat - p.lat);
    }
  }

  /** A convex ring goes up through a latitude at most once, and down at most once. */
  lemma OneSwitch(vs: seq<Coordinate>, p: Coordinate, i: nat, j: nat)
    requires TurnsLeft(vs) && i < j < |vs|
    requires Above(RingOf(vs)[i], p) != Above(RingOf(vs)[i + 1], p)
    ensures Above(RingOf(vs)[j], p) != Above(RingOf(vs)[i], p)
            || Above(RingOf(vs)[j + 1], p) != Above(RingOf(vs)[i + 1], p)
  {
    if i + 1 < j {
      if j + 1 < |vs| {
        Alternating(vs[i], vs[i + 1], vs[j], vs[j + 1], p);
      } else if i > 0 {
        Alternating(vs[0], vs[i], vs[i + 1], vs[j], p);
      }
    }
  }

  /** Between a vertex below and one above there is an edge that switches. */
  lemma {:induction false} SwitchBetween(ring: seq<Coordinate>, p: Coordinate, start: nat, stop: nat) returns (i: nat)
    requires start < stop < |ring| && Above(ring[start], p) != Above(ring[stop], p)
    ensures start <= i < stop
    ensures Above(ring[i], p) == Above(ring[start], p) && Above(ring[i + 1], p) == Above(ring[stop], p)
    decreases stop - start
  {
    if Above(ring[start + 1], p) == Above(ring[stop], p) {
      i := start;
    } else {
      i := SwitchBetween(ring, p, start + 1, stop);
    }
  }

  /** In a closed ring that passes the latitude there is an edge each way. */
  lemma BothSwitches(ring: seq<Coordinate>, p: Coordinate, low: nat, high: nat) returns (up: nat, down: nat)
    requires ring != [] && ring[0] == ring[|ring| - 1] && low < |ring| && high < |ring|
    requires Above(ring[low], p) == 0 && Above(ring[high], p) == 1
    ensures up < |ring| - 1 && Above(ring[up], p) == 0 && Above(ring[up + 1], p) == 1
    ensures down < |ring| - 1 && Above(ring[down], p) == 1 && Above(ring[down + 1], p) == 0
  {
    var last := |ring| - 1;
    if low < high {
      up := SwitchBetween(ring, p, low, high);
      if Above(ring[last], p) == 0 {
        down := SwitchBetween(ring, p, high, last);
      } else {
        down := SwitchBetween(ring, p, 0, low);
      }
    } else {
      down := SwitchBetween(ring, p, high, low);
      if Above(ring[last], p) == 1 {
        up := SwitchBetween(ring, p, low, last);
      } else {
        up := SwitchBetween(ring, p, 0, high);
      }
    }
  }

  // ---- the winding number -------------------------------------------------------------------

  lemma {:induction false} WindingNone(ring: seq<Coordinate>, p: Coordinate)
    requires forall i :: 0 <= i < |ring| - 1 ==> Crossing(ring[i], ring[i + 1], p) == 0
    ensures Winding(ring, p) == 0
  {
    if |ring| >= 2 {
      var rest := ring[1..];
      forall i | 0 <= i < |rest| - 1 ensures Crossing(rest[i], rest[i + 1], p) == 0 {
        assert rest[i] == ring[i + 1] && rest[i + 1] == ring[i + 2];
        assert Crossing(ring[i + 1], ring[i + 1 + 1], p) == 0;
      }
      assert Crossing(ring[0], ring[0 + 1], p) == 0;
      WindingNone(rest, p);
    }
  }

  lemma {:induction false} WindingOne(ring: seq<Coordinate>, p: Coordinate, u: nat)
    requires u < |ring| - 1
    requires forall i :: 0 <= i < |ring| - 1 && i != u ==> Crossing(ring[i], ring[i + 1], p) == 0
    ensures Winding(ring, p) == Crossing(ring[u], ring[u + 1], p)
  {
    var rest := ring[1..];
    forall i | 0 <= i < |rest| - 1 && i + 1 != u ensures Crossing(rest[i], rest[i + 1], p) == 0 {
      assert Crossing(ring[i + 1], ring[i + 1 + 1], p) == 0;
    }
    if u == 0 {
      WindingNone(rest, p);
    } else {
      assert Crossing(ring[0], ring[0 + 1], p) == 0;
      WindingOne(rest, p, u - 1);
    }
  }

  lemma {:induction false} WindingTwo(ring: seq<Coordinate>, p: Coordinate, u: nat, d: nat)
    requires u < |ring| - 1 && d < |ring| - 1 && u != d
    requires forall i :: 0 <= i < |ring| - 1 && i != u && i != d ==> Crossing(ring[i], ring[i + 1], p) == 0
    ensures Winding(ring, p) == Crossing(ring[u], ring[u + 1], p) + Crossing(ring[d], ring[d + 1], p)
  {
    var rest := ring[1..];
    forall i | 0 <= i < |rest| - 1 && i + 1 != u && i + 1 != d ensures Crossing(rest[i], rest[i + 1], p) == 0 {
      assert Crossing(ring[i + 1], ring[i + 1 + 1], p) == 0;
    }
    if u == 0 {
      WindingOne(rest, p, d - 1);
    } else if d == 0 {
      WindingOne(rest, p, u - 1);
    } else {
      assert Crossing(ring[0], ring[0 + 1], p) == 0;
      WindingTwo(rest, p, u - 1, d - 1);
    }
  }

  lemma SameSideNoCrossing(a: Coordinate, b: Coordinate, p: Coordinate)
    requires Above(a, p) == Above(b, p)
    ensures Crossing(a, b, p) == 0
  {
  }

  /** A ring that stays on one side of the latitude of `p` does not wind around it. */
  lemma FlatWinding(ring: seq<Coordinate>, p: Coordinate)
    requires forall i, j :: 0 <= i < |ring| && 0 <= j < |ring| ==> Above(ring[i], p) == Above(ring[j], p)
    ensures Winding(ring, p) == 0
  {
    forall i | 0 <= i < |ring| - 1 ensures Crossing(ring[i], ring[i + 1], p) == 0 {
      SameSideNoCrossing(ring[i], ring[i + 1], p);
    }
    WindingNone(ring, p);
  }

  /** The winding number of a convex ring is decided by its one edge up and its one edge down. */
  lemma ConvexWinding(vs: seq<Coordinate>, p: Coordinate, up: nat, down: nat)
    requires TurnsLeft(vs) && up < |vs| && down < |vs|
    requires Above(RingOf(vs)[up], p) == 0 && Above(RingOf(vs)[up + 1], p) == 1
    requires Above(RingOf(vs)[down], p) == 1 && Above(RingOf(vs)[down + 1], p) == 0
    ensures var r := RingOf(vs);
            Winding(r, p) == (if Orientation(r[up], r[up + 1], p) > 0 then 1 else 0)
                             - (if Orientation(r[down], r[down + 1], p) < 0 then 1 else 0)
  {
    var r := RingOf(vs);
    forall i | 0 <= i < |r| - 1 && i != up && i != down ensures Crossing(r[i], r[i + 1], p) == 0 {
      OtherEdge(vs, p, up, i);
      OtherEdge(vs, p, down, i);
      SameSideNoCrossing(r[i], r[i + 1], p);
    }
    WindingTwo(r, p, up, down);
    UpCrossing(r[up], r[up + 1], p);
    DownCrossing(r[down], r[down + 1], p);
  }

  lemma OtherEdge(vs: seq<Coordinate>, p: Coordinate, switch: nat, i: nat)
    requires TurnsLeft(vs) && switch < |vs| && i < |vs| && i != switch
    requires Above(RingOf(vs)[switch], p) != Above(RingOf(vs)[switch + 1], p)
    ensures !(Above(RingOf(vs)[i], p) == Above(RingOf(vs)[switch], p)
              && Above(RingOf(vs)[i + 1], p) == Above(RingOf(vs)[switch + 1], p))
  {
    if i < switch {
      if Above(RingOf(vs)[i], p) != Above(RingOf(vs)[i + 1], p) {
        OneSwitch(vs, p, i, switch);
      }
    } else {
      OneSwitch(vs, p, switch, i);
    }
  }

  lemma UpCrossing(a: Coordinate, b: Coordinate, p: Coordinate)
    requires Above(a, p) == 0 && Above(b, p) == 1
    ensures Crossing(a, b, p) == if Orientation(a, b, p) > 0 then 1 else 0
  {
  }

  lemma DownCrossing(a: Coordinate, b: Coordinate, p: Coordinate)
    requires Above(a, p) == 1 && Above(b, p) == 0
    ensures Crossing(a, b, p) == if Orientation(a, b, p) < 0 then -1 else 0
  {
  }

  // ---- wound around means inside ------------------------------------------------------------

  /** A collinear point at a latitude that the edge passes is on the edge. */
  lemma PassedCollinear(a: Coordinate, b: Coordinate, p: Coordinate)
    requires Above(a, p) != Above(b, p)
    ensures Orientation(a, b, p) == 0 ==> OnEdge(a, b, p)
  {
    if Orientation(a, b, p) == 0 {
      var h, t, x, y := b.lat - a.lat, p.lat - a.lat, b.lon - a.lon, p.lon - a.lon;
      assert x * t == h * y;
      if h > 0 {
        Between(h, t, x, y);
      } else {
        assert x * (-t) == (-h) * y;
        Between(-h, -t, x, y);
      }
    }
  }

  lemma Between(h: int, t: int, x: int, y: int)
    requires h > 0 && 0 <= t <= h && x * t == h * y
    ensures Min(0, x) <= y <= Max(0, x)
  {
    var least, most := Min(0, x), Max(0, x);
    Scaled(h - t, least, 0);
    Scaled(h - t, 0, most);
    Scaled(t, least, x);
    Scaled(t, x, most);
    assert h * least == (h - t) * least + t * least && h * most == (h - t) * most + t * most;
    Factor(h, least - y);
    Factor(h, y - most);
  }

  /** The edge up is never left of the edge down. */
  lemma UpRightOfDown(a: Coordinate, b: Coordinate, c: Coordinate, d: Coordinate, p: Coordinate)
    requires a.lat <= p.lat < b.lat && d.lat <= p.lat < c.lat
    requires Orientation(c, d, a) >= 0 && Orientation(c, d, b) >= 0
    requires Orientation(c, d, p) < 0
    ensures Orientation(a, b, p) > 0
  {
    LevelLat(a, b, c, d, p);
    Weights(b.lat - p.lat, Orientation(c, d, a), p.lat - a.lat, Orientation(c, d, b));
    Positive(b.lat - a.lat, -Orientation(c, d, p));
    Factor(c.lat - d.lat, Orientation(a, b, p));
  }

  /** Strictly between the edge up and the edge down, a point is on the inner side of every edge but a flat one. */
  lemma BetweenInside(a: Coordinate, b: Coordinate, c: Coordinate, d: Coordinate, e: Coordinate, f: Coordinate,
                      p: Coordinate)
    requires a.lat <= p.lat < b.lat && d.lat <= p.lat < c.lat
    requires Orientation(a, b, p) > 0 && Orientation(c, d, p) > 0
    requires Orientation(e, f, a) >= 0 && Orientation(e, f, b) >= 0
    requires Orientation(e, f, c) >= 0 && Orientation(e, f, d) >= 0
    ensures Orientation(e, f, p) >= 0
    ensures Orientation(e, f, p) == 0 ==> e.lat == f.lat && Orientation(e, f, a) == 0 && Orientation(e, f, d) == 0
  {
    LevelLat(a, b, e, f, p);
    LevelLat(d, c, e, f, p);
    Cyclic(d, c, p);
    Weights(b.lat - p.lat, Orientation(e, f, a), p.lat - a.lat, Orientation(e, f, b));
    Weights(c.lat - p.lat, Orientation(e, f, d), p.lat - d.lat, Orientation(e, f, c));
    Tilted(b.lat - a.lat, c.lat - d.lat, e.lat - f.lat, Orientation(e, f, p), Orientation(a, b, p),
           Orientation(c, d, p));
  }

  lemma Tilted(h: int, k: int, g: int, o: int, u: int, d: int)
    requires h > 0 && k > 0 && u > 0 && d > 0
    requires h * o + g * u >= 0 && k * o - g * d >= 0
    ensures o >= 0
    ensures o == 0 ==> g == 0
  {
    Factor(u, g);
    Factor(d, g);
    Factor(h, o);
    Factor(k, o);
  }

  /** A flat edge with the ends of the edge up and the edge down on it has the point between them. */
  lemma FlatEdge(a: Coordinate, b: Coordinate, c: Coordinate, d: Coordinate, e: Coordinate, f: Coordinate,
                 p: Coordinate)
    requires a.lat <= p.lat < b.lat && d.lat <= p.lat < c.lat
    requires Orientation(a, b, p) > 0 && Orientation(c, d, p) > 0 && Orientation(e, f, p) == 0
    requires e.lat == f.lat == p.lat && (a == e || a == f) && (d == e || d == f)
    ensures OnEdge(e, f, p)
  {
    assert Orientation(a, b, p) == (b.lat - a.lat) * (a.lon - p.lon);
    Factor(b.lat - a.lat, a.lon - p.lon);
    assert Orientation(c, d, p) == (c.lat - d.lat) * (p.lon - d.lon);
    Factor(c.lat - d.lat, p.lon - d.lon);
  }

  /** Between the edge up and the edge down a point is on the inner side of an edge, or on it. */
  lemma InnerOrOn(a: Coordinate, b: Coordinate, c: Coordinate, d: Coordinate, e: Coordinate, f: Coordinate,
                  p: Coordinate)
    requires a.lat <= p.lat < b.lat && d.lat <= p.lat < c.lat && e != f
    requires Orientation(a, b, p) > 0 && Orientation(c, d, p) > 0
    requires Orientation(e, f, a) >= 0 && Orientation(e, f, b) >= 0
    requires Orientation(e, f, c) >= 0 && Orientation(e, f, d) >= 0
    requires Orientation(e, f, a) == 0 ==> a == e || a == f
    requires Orientation(e, f, d) == 0 ==> d == e || d == f
    ensures Orientation(e, f, p) > 0 || OnEdge(e, f, p)
  {
    BetweenInside(a, b, c, d, e, f, p);
    if Orientation(e, f, p) == 0 {
      FlatLine(e, f, p);
      FlatEdge(a, b, c, d, e, f, p);
    }
  }

  lemma FlatLine(e: Coordinate, f: Coordinate, p: Coordinate)
    requires e != f && e.lat == f.lat && Orientation(e, f, p) == 0
    ensures p.lat == e.lat
  {
    assert Orientation(e, f, p) == (f.lon - e.lon) * (p.lat - e.lat);
    ZeroProduct(f.lon - e.lon, p.lat - e.lat);
  }

  lemma OffBoundary(ring: seq<Coordinate>, p: Coordinate, i: nat)
    requires !OnBoundary(ring, p) && i < |ring| - 1
    ensures !OnEdge(ring[i], ring[i + 1], p)
  {
  }

  /** Wound around and not on the boundary means on the inner side of every edge. */
  lemma WoundIsInside(vs: seq<Coordinate>, p: Coordinate)
    requires TurnsLeft(vs) && Winding(RingOf(vs), p) != 0
    ensures Winding(RingOf(vs), p) == 1
    ensures !OnBoundary(RingOf(vs), p) ==> LeftOfAll(RingOf(vs), p)
  {
    var r := RingOf(vs);
    var up, down := PassingEdges(r, p);
    ConvexWinding(vs, p, up, down);
    VertexLeft(vs, down, up);
    VertexLeft(vs, down, up + 1);
    if Orientation(r[down], r[down + 1], p) < 0 {
      UpRightOfDown(r[up], r[up + 1], r[down], r[down + 1], p);
    }
    if !OnBoundary(r, p) {
      OffBoundary(r, p, down);
      PassedCollinear(r[down], r[down + 1], p);
      forall k | 0 <= k < |r| - 1 ensures Orientation(r[k], r[k + 1], p) > 0 {
        EdgeInside(vs, p, up, down, k);
      }
    }
  }

  /** A closed ring that winds around a point passes its latitude both ways. */
  lemma PassingEdges(ring: seq<Coordinate>, p: Coordinate) returns (up: nat, down: nat)
    requires ring != [] && ring[0] == ring[|ring| - 1] && Winding(ring, p) != 0
    ensures up < |ring| - 1 && Above(ring[up], p) == 0 && Above(ring[up + 1], p) == 1
    ensures down < |ring| - 1 && Above(ring[down], p) == 1 && Above(ring[down + 1], p) == 0
  {
    if forall i, j :: 0 <= i < |ring| && 0 <= j < |ring| ==> Above(ring[i], p) == Above(ring[j], p) {
      FlatWinding(ring, p);
    }
    var i, j :| 0 <= i < |ring| && 0 <= j < |ring| && Above(ring[i], p) != Above(ring[j], p);
    if Above(ring[i], p) == 0 {
      up, down := BothSwitches(ring, p, i, j);
    } else {
      up, down := BothSwitches(ring, p, j, i);
    }
  }

  lemma VertexLeft(vs: seq<Coordinate>, i: nat, k: nat)
    requires TurnsLeft(vs) && i < |vs| && k <= |vs|
    ensures var r := RingOf(vs); var o := Orientation(r[i], r[i + 1], r[k]);
            o >= 0 && (o == 0 ==> r[k] == r[i] || r[k] == r[i + 1])
  {
    EdgeLeft(vs, i, if k < |vs| then k else 0);
  }

  lemma EdgeInside(vs: seq<Coordinate>, p: Coordinate, up: nat, down: nat, k: nat)
    requires TurnsLeft(vs) && up < |vs| && down < |vs| && k < |vs| && !OnBoundary(RingOf(vs), p)
    requires Above(RingOf(vs)[up], p) == 0 && Above(RingOf(vs)[up + 1], p) == 1
    requires Above(RingOf(vs)[down], p) == 1 && Above(RingOf(vs)[down + 1], p) == 0
    requires Orientation(RingOf(vs)[up], RingOf(vs)[up + 1], p) > 0
    requires Orientation(RingOf(vs)[down], RingOf(vs)[down + 1], p) > 0
    ensures Orientation(RingOf(vs)[k], RingOf(vs)[k + 1], p) > 0
  {
    var r := RingOf(vs);
    VertexLeft(vs, k, up);
    VertexLeft(vs, k, up + 1);
    VertexLeft(vs, k, down);
    VertexLeft(vs, k, down + 1);
    EndsDiffer(vs, k);
    OffBoundary(r, p, k);
    InnerOrOn(r[up], r[up + 1], r[down], r[down + 1], r[k], r[k + 1], p);
  }

  lemma EndsDiffer(vs: seq<Coordinate>, i: nat)
    requires TurnsLeft(vs) && i < |vs|
    ensures RingOf(vs)[i] != RingOf(vs)[i + 1]
  {
    var third := if i == 0 then 2 else if i + 1 < |vs| then 0 else 1;
    if third < i {
      if i + 1 < |vs| {
        assert Orientation(vs[third], vs[i], vs[i + 1]) > 0;
      } else {
        assert Orientation(vs[0], vs[third], vs[i]) > 0;
      }
    } else {
      assert Orientation(vs[0], vs[1], vs[2]) > 0;
    }
  }

  // ---- inside means wound around ------------------------------------------------------------

  /** The turn at a vertex, with its two neighbours. */
  lemma TurnAt(vs: seq<Coordinate>, i: nat)
    requires TurnsLeft(vs) && i < |vs|
    ensures var before := if i == 0 then |vs| - 1 else i - 1;
            Orientation(vs[before], vs[i], RingOf(vs)[i + 1]) > 0 && RingOf(vs)[before + 1] == vs[i]
  {
    var n := |vs|;
    if i == 0 {
      Cyclic(vs[n - 1], vs[0], vs[1]);
    } else if i == n - 1 {
      Cyclic(vs[0], vs[n - 2], vs[n - 1]);
    }
  }

  lemma LowestVertex(vs: seq<Coordinate>, sign: int) returns (i: nat)
    requires vs != [] && (sign == 1 || sign == -1)
    ensures i < |vs| && forall k :: 0 <= k < |vs| ==> sign * vs[i].lat <= sign * vs[k].lat
  {
    if |vs| == 1 {
      i := 0;
    } else {
      var j := LowestVertex(vs[1..], sign);
      i := if sign * vs[0].lat <= sign * vs[j + 1].lat then 0 else j + 1;
      forall k | 0 <= k < |vs| ensures sign * vs[i].lat <= sign * vs[k].lat {
        assert k > 0 ==> vs[k] == vs[1..][k - 1];
      }
    }
  }

  /** Seen from inside, a ring neither stays above the point's latitude nor stays at or below it. */
  lemma NotAllAbove(u: Coordinate, v: Coordinate, w: Coordinate, p: Coordinate)
    requires Orientation(u, v, w) > 0 && Orientation(u, v, p) > 0 && Orientation(v, w, p) > 0
    requires v.lat <= u.lat && v.lat <= w.lat
    ensures v.lat <= p.lat
  {
    Barycentric(u, v, w, p);
    AreasAdd(u, v, w, p);
    var x, y, z, level := Orientation(v, w, p), Orientation(w, u, p), Orientation(u, v, p), v.lat - p.lat;
    Scaled(x, level, u.lat - p.lat);
    Scaled(z, level, w.lat - p.lat);
    assert x * level + y * level + z * level == (x + y + z) * level;
    Factor(x + y + z, level);
  }

  lemma NotAllBelow(u: Coordinate, v: Coordinate, w: Coordinate, p: Coordinate)
    requires Orientation(u, v, w) > 0 && Orientation(u, v, p) > 0 && Orientation(v, w, p) > 0
    requires u.lat <= v.lat && w.lat <= v.lat
    ensures v.lat > p.lat
  {
    Barycentric(u, v, w, p);
    AreasAdd(u, v, w, p);
    var x, y, z, level := Orientation(v, w, p), Orientation(w, u, p), Orientation(u, v, p), v.lat - p.lat;
    Scaled(x, u.lat - p.lat, level);
    Scaled(z, w.lat - p.lat, level);
    assert x * level + y * level + z * level == (x + y + z) * level;
    Factor(x + y + z, level);
    Factor(x, level - (u.lat - p.lat));
    Factor(z, level - (w.lat - p.lat));
    FlatTurn(u, v, w);
  }

  lemma FlatTurn(u: Coordinate, v: Coordinate, w: Coordinate)
    ensures u.lat == v.lat == w.lat ==> Orientation(u, v, w) == 0
  {
  }

  lemma SomeBelow(vs: seq<Coordinate>, p: Coordinate) returns (i: nat)
    requires TurnsLeft(vs) && LeftOfAll(RingOf(vs), p)
    ensures i < |vs| && vs[i].lat <= p.lat
  {
    i := LowestVertex(vs, 1);
    var before := if i == 0 then |vs| - 1 else i - 1;
    TurnAt(vs, i);
    NextVertex(vs, i, 1);
    assert Orientation(RingOf(vs)[before], RingOf(vs)[before + 1], p) > 0;
    NotAllAbove(vs[before], vs[i], RingOf(vs)[i + 1], p);
  }

  lemma SomeAbove(vs: seq<Coordinate>, p: Coordinate) returns (i: nat)
    requires TurnsLeft(vs) && LeftOfAll(RingOf(vs), p)
    ensures i < |vs| && vs[i].lat > p.lat
  {
    i := LowestVertex(vs, -1);
    var before := if i == 0 then |vs| - 1 else i - 1;
    TurnAt(vs, i);
    NextVertex(vs, i, -1);
    assert -1 * vs[i].lat <= -1 * vs[before].lat;
    assert Orientation(RingOf(vs)[before], RingOf(vs)[before + 1], p) > 0;
    NotAllBelow(vs[before], vs[i], RingOf(vs)[i + 1], p);
  }

  lemma InsideIsWound(vs: seq<Coordinate>, p: Coordinate)
    requires TurnsLeft(vs) && LeftOfAll(RingOf(vs), p)
    ensures Winding(RingOf(vs), p) == 1
  {
    var low := SomeBelow(vs, p);
    var high := SomeAbove(vs, p);
    var up, down := BothSwitches(RingOf(vs), p, low, high);
    ConvexWinding(vs, p, up, down);
  }

  lemma NextVertex(vs: seq<Coordinate>, i: nat, sign: int)
    requires i < |vs| && forall k :: 0 <= k < |vs| ==> sign * vs[i].lat <= sign * vs[k].lat
    ensures sign * vs[i].lat <= sign * RingOf(vs)[i + 1].lat
  {
    if i + 1 < |vs| {
      assert sign * vs[i].lat <= sign * vs[i + 1].lat;
    }
  }

  // ---- the boundary -------------------------------------------------------------------------

  lemma NotNegativeBetween(s: int, x: int, t: int, y: int, h: int, o: int)
    requires x >= 0 && y >= 0 && h == s + t && h != 0 && s * x + t * y == h * o
    requires (s >= 0 && t >= 0) || (s <= 0 && t <= 0)
    ensures o >= 0
  {
    if s >= 0 && t >= 0 {
      Scaled(s, 0, x);
      Scaled(t, 0, y);
      Factor(h, -o);
    } else {
      NotPositive(x, s);
      NotPositive(y, t);
      Factor(-h, -o);
    }
  }

  /** A point of an edge is on no outer side of another line if both ends are not. */
  lemma SegmentLeft(a: Coordinate, b: Coordinate, e: Coordinate, f: Coordinate, p: Coordinate)
    requires a != b && OnEdge(a, b, p) && Orientation(e, f, a) >= 0 && Orientation(e, f, b) >= 0
    ensures Orientation(e, f, p) >= 0
  {
    LevelLat(a, b, e, f, p);
    LevelLon(a, b, e, f, p);
    var x, y, o := Orientation(e, f, a), Orientation(e, f, b), Orientation(e, f, p);
    if a.lat != b.lat {
      NotNegativeBetween(b.lat - p.lat, x, p.lat - a.lat, y, b.lat - a.lat, o);
    } else {
      NotNegativeBetween(b.lon - p.lon, x, p.lon - a.lon, y, b.lon - a.lon, o);
    }
  }

  lemma BoundaryRightOfNone(vs: seq<Coordinate>, p: Coordinate)
    requires TurnsLeft(vs) && OnBoundary(RingOf(vs), p)
    ensures RightOfNone(RingOf(vs), p)
  {
    var r := RingOf(vs);
    var i :| 0 <= i < |r| - 1 && OnEdge(r[i], r[i + 1], p);
    forall k | 0 <= k < |r| - 1 ensures Orientation(r[k], r[k + 1], p) >= 0 {
      VertexLeft(vs, k, i);
      VertexLeft(vs, k, i + 1);
      EndsDiffer(vs, i);
      SegmentLeft(r[i], r[i + 1], r[k], r[k + 1], p);
    }
  }

  /** `h` times something not negative is a positive multiple of `t`, so `t` leans where `h` does. */
  lemma SameLean(h: int, o: int, t: int, turn: int)
    requires o >= 0 && turn > 0 && t * turn == h * o
    ensures (h >= 0 ==> t >= 0) && (h <= 0 ==> t <= 0)
  {
    Factor(turn, t);
    Factor(turn, -t);
    if h >= 0 {
      Scaled(o, 0, h);
    } else {
      NotPositive(o, h);
    }
  }

  /** A collinear point on no outer side of the two neighbouring edges is on the edge. */
  lemma NeighboursBound(d: Coordinate, e: Coordinate, f: Coordinate, g: Coordinate, p: Coordinate)
    requires Orientation(d, e, f) > 0 && Orientation(e, f, g) > 0 && Orientation(e, f, p) == 0
    requires Orientation(d, e, p) >= 0 && Orientation(f, g, p) >= 0
    ensures OnEdge(e, f, p)
  {
    LevelLat(e, f, d, e, p);
    LevelLon(e, f, d, e, p);
    LevelLat(e, f, f, g, p);
    LevelLon(e, f, f, g, p);
    Cyclic(e, f, g);
    Degenerate(d, e);
    Degenerate(f, g);
    SameLean(f.lat - e.lat, Orientation(d, e, p), p.lat - e.lat, Orientation(d, e, f));
    SameLean(f.lon - e.lon, Orientation(d, e, p), p.lon - e.lon, Orientation(d, e, f));
    SameLean(f.lat - e.lat, Orientation(f, g, p), f.lat - p.lat, Orientation(e, f, g));
    SameLean(f.lon - e.lon, Orientation(f, g, p), f.lon - p.lon, Orientation(e, f, g));
  }

  lemma Degenerate(a: Coordinate, b: Coordinate)
    ensures Orientation(a, b, a) == 0 && Orientation(a, b, b) == 0
  {
  }

  lemma CollinearOnBoundary(vs: seq<Coordinate>, p: Coordinate, k: nat)
    requires TurnsLeft(vs) && RightOfNone(RingOf(vs), p) && k < |vs|
    requires Orientation(RingOf(vs)[k], RingOf(vs)[k + 1], p) == 0
    ensures OnBoundary(RingOf(vs), p)
  {
    var r, n := RingOf(vs), |vs|;
    var before, next := if k == 0 then n - 1 else k - 1, if k + 1 == n then 0 else k + 1;
    TurnAt(vs, k);
    TurnAt(vs, next);
    assert Orientation(r[before], r[before + 1], p) >= 0 && Orientation(r[next], r[next + 1], p) >= 0;
    NeighboursBound(r[before], r[k], r[k + 1], r[next + 1], p);
    assert OnEdge(r[k], r[k + 1], p);
  }

  // ---- the region ---------------------------------------------------------------------------

  lemma ClosedRing(vs: seq<Coordinate>)
    requires vs != [] && vs[0] != vs[|vs| - 1]
    ensures Closed(vs) == RingOf(vs) && Closed(RingOf(vs)) == RingOf(vs)
  {
  }

  lemma InteriorIsWound(rule: FillRule, ring: seq<Coordinate>, p: Coordinate)
    requires -1 <= Winding(ring, p) <= 1
    ensures Interior(rule, ring, p) <==> Winding(ring, p) != 0
  {
    CountParity(ring, p);
  }

  lemma LeftRegion(rule: FillRule, vs: seq<Coordinate>, p: Coordinate)
    requires TurnsLeft(vs)
    ensures Interior(rule, RingOf(vs), p) && !OnBoundary(RingOf(vs), p) <==> LeftOfAll(RingOf(vs), p)
    ensures Interior(rule, RingOf(vs), p) || OnBoundary(RingOf(vs), p) <==> RightOfNone(RingOf(vs), p)
  {
    var r := RingOf(vs);
    if Winding(r, p) != 0 {
      WoundIsInside(vs, p);
    }
    InteriorIsWound(rule, r, p);
    if LeftOfAll(r, p) {
      InsideIsWound(vs, p);
      forall i | 0 <= i < |r| - 1 ensures !OnEdge(r[i], r[i + 1], p) {
      }
    }
    if OnBoundary(r, p) {
      BoundaryRightOfNone(vs, p);
    } else if RightOfNone(r, p) && !LeftOfAll(r, p) {
      var k :| 0 <= k < |r| - 1 && Orientation(r[k], r[k + 1], p) <= 0;
      CollinearOnBoundary(vs, p, k);
    }
  }

  /** An anticlockwise convex polygon, closed or not: strictly left of every edge, or right of none. */
  lemma ConvexRegion(rule: FillRule, vs: seq<Coordinate>, p: Coordinate)
    requires TurnsLeft(vs)
    ensures Contains(rule, vs, p) <==> LeftOfAll(RingOf(vs), p)
    ensures Touches(rule, vs, p) <==> RightOfNone(RingOf(vs), p)
    ensures Contains(rule, RingOf(vs), p) == Contains(rule, vs, p)
    ensures Touches(rule, RingOf(vs), p) == Touches(rule, vs, p)
  {
    EndsDiffer(vs, |vs| - 1);
    ClosedRing(vs);
    LeftRegion(rule, vs, p);
  }

  // ---- the other direction ------------------------------------------------------------------

  function Reversed(ring: seq<Coordinate>): (back: seq<Coordinate>)
    ensures |back| == |ring| && forall i :: 0 <= i < |ring| ==> back[i] == ring[|ring| - 1 - i]
  {
    seq(|ring|, i requires 0 <= i < |ring| => ring[|ring| - 1 - i])
  }

  lemma CrossingBack(a: Coordinate, b: Coordinate, p: Coordinate)
    ensures Crossing(b, a, p) == -Crossing(a, b, p)
    ensures Orientation(b, a, p) == -Orientation(a, b, p)
    ensures OnEdge(b, a, p) == OnEdge(a, b, p)
  {
    Cyclic(a, b, p);
  }

  lemma {:induction false} WindingLast(ring: seq<Coordinate>, p: Coordinate)
    requires |ring| >= 2
    ensures Winding(ring, p)
            == Winding(ring[..|ring| - 1], p) + Crossing(ring[|ring| - 2], ring[|ring| - 1], p)
  {
    if |ring| > 2 {
      WindingLast(ring[1..], p);
      assert ring[1..][..|ring| - 2] == ring[..|ring| - 1][1..];
    }
  }

  lemma {:induction false} WindingReversed(ring: seq<Coordinate>, p: Coordinate)
    ensures Winding(Reversed(ring), p) == -Winding(ring, p)
  {
    if |ring| >= 2 {
      var n := |ring| - 1;
      WindingLast(ring, p);
      WindingReversed(ring[..n], p);
      assert Reversed(ring)[1..] == Reversed(ring[..n]);
      CrossingBack(ring[n - 1], ring[n], p);
    }
  }

  lemma BoundaryReversed(ring: seq<Coordinate>, p: Coordinate)
    ensures OnBoundary(Reversed(ring), p) == OnBoundary(ring, p)
  {
    var back, n := Reversed(ring), |ring| - 1;
    forall i | 0 <= i < n ensures OnEdge(back[n - 1 - i], back[n - 1 - i + 1], p) == OnEdge(ring[i], ring[i + 1], p) {
      CrossingBack(ring[i], ring[i + 1], p);
    }
    if i :| 0 <= i < n && OnEdge(ring[i], ring[i + 1], p) {
      assert OnEdge(back[n - 1 - i], back[n - 1 - i + 1], p);
    }
    if j :| 0 <= j < n && OnEdge(back[j], back[j + 1], p) {
      assert OnEdge(ring[n - 1 - j], ring[n - 1 - j + 1], p);
    }
  }

  /** The vertices from the first one backwards. */
  function Backwards(vs: seq<Coordinate>): (back: seq<Coordinate>)
    requires vs != []
    ensures |back| == |vs| && forall i :: 0 <= i < |vs| ==> back[i] == RingOf(vs)[|vs| - i]
  {
    seq(|vs|, i requires 0 <= i < |vs| => RingOf(vs)[|vs| - i])
  }

  lemma BackwardsRing(vs: seq<Coordinate>)
    requires vs != []
    ensures RingOf(Backwards(vs)) == Reversed(RingOf(vs))
  {
  }

  lemma BackwardsTurnsLeft(vs: seq<Coordinate>)
    requires TurnsRight(vs)
    ensures TurnsLeft(Backwards(vs))
  {
    var back, n := Backwards(vs), |vs|;
    forall i, j, k | 0 <= i < j < k < n ensures Orientation(back[i], back[j], back[k]) > 0 {
      var a, b, c := back[i], back[j], back[k];
      Cyclic(a, b, c);
      Cyclic(c, b, a);
      Cyclic(a, c, b);
      if i == 0 {
        assert Orientation(vs[0], vs[n - k], vs[n - j]) < 0;
      } else {
        assert Orientation(vs[n - k], vs[n - j], vs[n - i]) < 0;
      }
    }
  }

  lemma SidesReversed(ring: seq<Coordinate>, p: Coordinate)
    ensures LeftOfAll(Reversed(ring), p) == RightOfAll(ring, p) && RightOfNone(Reversed(ring), p) == LeftOfNone(ring, p)
  {
    var back, n := Reversed(ring), |ring| - 1;
    forall i | 0 <= i < n
      ensures Orientation(back[n - 1 - i], back[n - 1 - i + 1], p) == -Orientation(ring[i], ring[i + 1], p)
    {
      CrossingBack(ring[i], ring[i + 1], p);
    }
    forall j | 0 <= j < n
      ensures Orientation(back[j], back[j + 1], p) == -Orientation(ring[n - 1 - j], ring[n - 1 - j + 1], p)
    {
      CrossingBack(ring[n - 1 - j], ring[n - 1 - j + 1], p);
    }
  }

  lemma InteriorReversed(rule: FillRule, ring: seq<Coordinate>, p: Coordinate)
    ensures Interior(rule, Reversed(ring), p) == Interior(rule, ring, p)
  {
    WindingReversed(ring, p);
    CountParity(ring, p);
    CountParity(Reversed(ring), p);
    SameParity(CrossingCount(ring, p), CrossingCount(Reversed(ring), p), Winding(ring, p));
  }

  lemma SameParity(m: int, n: int, w: int)
    requires (m - w) % 2 == 0 && (n + w) % 2 == 0
    ensures m % 2 == n % 2
  {
  }

  lemma RightEnds(vs: seq<Coordinate>)
    requires TurnsRight(vs)
    ensures vs[0] != vs[|vs| - 1]
  {
    assert Orientation(vs[0], vs[1], vs[|vs| - 1]) < 0;
  }

  /** A clockwise convex polygon, closed or not: strictly right of every edge, or left of none. */
  lemma ConvexRegionClockwise(rule: FillRule, vs: seq<Coordinate>, p: Coordinate)
    requires TurnsRight(vs)
    ensures Contains(rule, vs, p) <==> RightOfAll(RingOf(vs), p)
    ensures Touches(rule, vs, p) <==> LeftOfNone(RingOf(vs), p)
    ensures Contains(rule, RingOf(vs), p) == Contains(rule, vs, p)
    ensures Touches(rule, RingOf(vs), p) == Touches(rule, vs, p)
  {
    RightEnds(vs);
    ClosedRing(vs);
    BackwardsTurnsLeft(vs);
    BackwardsRing(vs);
    LeftRegion(rule, Backwards(vs), p);
    InteriorReversed(rule, RingOf(vs), p);
    BoundaryReversed(RingOf(vs), p);
    SidesReversed(RingOf(vs), p);
  }

  // ---- triangles ----------------------------------------------------------------------------

  /** Every triangle, whichever way it turns. */
  lemma TriangleRegion(rule: FillRule, a: Coordinate, b: Coordinate, c: Coordinate, p: Coordinate)
    requires Orientation(a, b, c) != 0
    ensures var x, y, z := Orientation(a, b, p), Orientation(b, c, p), Orientation(c, a, p);
            && (Contains(rule, [a, b, c, a], p) <==> (x > 0 && y > 0 && z > 0) || (x < 0 && y < 0 && z < 0))
            && (Touches(rule, [a, b, c, a], p) <==> (x >= 0 && y >= 0 && z >= 0) || (x <= 0 && y <= 0 && z <= 0))
  {
    var vs := [a, b, c];
    AreasAdd(a, b, c, p);
    assert RingOf(vs) == [a, b, c, a];
    if Orientation(a, b, c) > 0 {
      assert TurnsLeft(vs);
      ConvexRegion(rule, vs, p);
    } else {
      assert TurnsRight(vs);
      ConvexRegionClockwise(rule, vs, p);
    }
    TriangleSides(a, b, c, p);
  }

  lemma TriangleSides(a: Coordinate, b: Coordinate, c: Coordinate, p: Coordinate)
    ensures var r := [a, b, c, a];
            var x, y, z := Orientation(a, b, p), Orientation(b, c, p), Orientation(c, a, p);
            && (LeftOfAll(r, p) <==> x > 0 && y > 0 && z > 0) && (RightOfNone(r, p) <==> x >= 0 && y >= 0 && z >= 0)
            && (RightOfAll(r, p) <==> x < 0 && y < 0 && z < 0) && (LeftOfNone(r, p) <==> x <= 0 && y <= 0 && z <= 0)
  {
    var r := [a, b, c, a];
    assert r[0] == a && r[0 + 1] == b && r[1 + 1] == c && r[2 + 1] == a;
  }

  // ---- rings in pieces ----------------------------------------------------------------------

  lemma {:induction false} WindingSplit(ring: seq<Coordinate>, p: Coordinate, k: nat)
    requires k < |ring|
    ensures Winding(ring, p) == Winding(ring[..k + 1], p) + Winding(ring[k..], p)
  {
    if k > 0 {
      WindingSplit(ring[1..], p, k - 1);
      assert ring[1..][..k] == ring[..k + 1][1..] && ring[1..][k - 1..] == ring[k..];
    } else {
      assert ring[0..] == ring;
    }
  }

  /** The part that a chord cuts off, and what it leaves. */
  function CutOff(ring: seq<Coordinate>, i: nat, j: nat): seq<Coordinate>
    requires i < j < |ring|
  {
    ring[i..j + 1] + [ring[i]]
  }

  function Remainder(ring: seq<Coordinate>, i: nat, j: nat): seq<Coordinate>
    requires i < j < |ring|
  {
    ring[..i + 1] + ring[j..]
  }

  lemma ChordWinding(ring: seq<Coordinate>, i: nat, j: nat, p: Coordinate)
    requires i < j < |ring|
    ensures Winding(ring, p) == Winding(CutOff(ring, i, j), p) + Winding(Remainder(ring, i, j), p)
  {
    var middle, cut, rest := ring[i..j + 1], CutOff(ring, i, j), Remainder(ring, i, j);
    WindingSplit(ring, p, i);
    WindingSplit(ring[i..], p, j - i);
    assert ring[i..][..j - i + 1] == middle && ring[i..][j - i..] == ring[j..];
    WindingLast(cut, p);
    assert cut[..|cut| - 1] == middle;
    WindingSplit(rest, p, i);
    assert rest[..i + 1] == ring[..i + 1] && rest[i..] == [ring[i]] + ring[j..];
    assert ([ring[i]] + ring[j..])[1..] == ring[j..];
    CrossingBack(ring[i], ring[j], p);
  }

  /**
   * Under both rules the interior of a ring is that of its two parts on either side of a chord, wherever
   * those do not overlap. With the convex parts above, this gives the interior of every polygon that
   * chords divide into triangles.
   */
  lemma ChordSplit(rule: FillRule, ring: seq<Coordinate>, i: nat, j: nat, p: Coordinate)
    requires i < j < |ring|
    requires !(Interior(rule, CutOff(ring, i, j), p) && Interior(rule, Remainder(ring, i, j), p))
    ensures Interior(rule, ring, p) <==>
            Interior(rule, CutOff(ring, i, j), p) || Interior(rule, Remainder(ring, i, j), p)
  {
    ChordWinding(ring, i, j, p);
    OddWinding(ring, p);
    OddWinding(CutOff(ring, i, j), p);
    OddWinding(Remainder(ring, i, j), p);
    OddSum(Winding(CutOff(ring, i, j), p), Winding(Remainder(ring, i, j), p));
  }

  lemma OddWinding(ring: seq<Coordinate>, p: Coordinate)
    ensures Interior(EvenOdd, ring, p) <==> Winding(ring, p) % 2 == 1
  {
    CountParity(ring, p);
    SameOddness(CrossingCount(ring, p), Winding(ring, p));
  }

  lemma SameOddness(n: int, w: int)
    requires (n - w) % 2 == 0
    ensures n % 2 == 1 <==> w % 2 == 1
  {
  }

  lemma OddSum(a: int, b: int)
    ensures (a + b) % 2 == 1 <==> (a % 2 == 1) != (b % 2 == 1)
  {
  }

  // ---- a ring that is not its box -----------------------------------------------------------

  /** The diamond of docs/src/practical-examples/spatial-filtering.md, in hundredths. */
  const DIAMOND := [Coordinate(5250, 1340), Coordinate(5260, 1350), Coordinate(5250, 1360), Coordinate(5240, 1350)]

  /** A point in the corner of the diamond's box is in the box and not in the diamond; its centre is in both. */
  lemma DiamondIsNotItsBox(rule: FillRule)
    ensures var corner, centre := Coordinate(5258, 1342), Coordinate(5250, 1350);
            && InBox(BoxOf(RingOf(DIAMOND)), corner) && !Touches(rule, RingOf(DIAMOND), corner)
            && InBox(BoxOf(RingOf(DIAMOND)), centre) && Contains(rule, RingOf(DIAMOND), centre)
  {
    var r := RingOf(DIAMOND);
    DiamondTurns();
    ConvexRegionClockwise(rule, DIAMOND, Coordinate(5258, 1342));
    ConvexRegionClockwise(rule, DIAMOND, Coordinate(5250, 1350));
    DiamondSides(r);
    BoxIsTight(r);
    InTightBox(r, BoxOf(r));
  }

  lemma DiamondTurns()
    ensures TurnsRight(DIAMOND)
  {
    var vs := DIAMOND;
    assert Orientation(vs[0], vs[1], vs[2]) < 0 && Orientation(vs[0], vs[1], vs[3]) < 0;
    assert Orientation(vs[0], vs[2], vs[3]) < 0 && Orientation(vs[1], vs[2], vs[3]) < 0;
    forall i, j, k | 0 <= i < j < k < 4 ensures Orientation(vs[i], vs[j], vs[k]) < 0 {
    }
  }

  lemma DiamondSides(r: seq<Coordinate>)
    requires r == RingOf(DIAMOND)
    ensures !LeftOfNone(r, Coordinate(5258, 1342)) && RightOfAll(r, Coordinate(5250, 1350))
  {
    var corner, centre := Coordinate(5258, 1342), Coordinate(5250, 1350);
    assert r[0 + 1] == DIAMOND[1] && r[1 + 1] == DIAMOND[2] && r[2 + 1] == DIAMOND[3] && r[3 + 1] == DIAMOND[0];
    assert Orientation(r[0], r[0 + 1], corner) > 0;
    assert Orientation(r[0], r[0 + 1], centre) < 0 && Orientation(r[1], r[1 + 1], centre) < 0;
    assert Orientation(r[2], r[2 + 1], centre) < 0 && Orientation(r[3], r[3 + 1], centre) < 0;
  }

  lemma InTightBox(r: seq<Coordinate>, box: Box)
    requires r == RingOf(DIAMOND) && TightBox(box, r)
    ensures InBox(box, Coordinate(5258, 1342)) && InBox(box, Coordinate(5250, 1350))
  {
    assert r[0] in r && r[1] in r && r[2] in r && r[3] in r;
  }
}
