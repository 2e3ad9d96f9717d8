/** Delivery of stored geometry where a convex polygon is stored or requested. */
module ConvexDelivery {
  import opened Wrappers
  import opened Json
  import opened Platform
  import opened Schema
  import opened Shapes
  import opened Topics
  import opened Spatial
  import opened Validation
  import opened Processor
  import opened WildcardMatcher
  import opened Delivery
  import opened ConvexRing
  import Geometry

  ghost predicate IsConvex(vs: seq<Coordinate>) { TurnsLeft(vs) || TurnsRight(vs) }

  /** On the inner side of every edge, which is the left one of an anticlockwise polygon. */
  ghost predicate StrictlyInside(vs: seq<Coordinate>, c: Coordinate)
    requires IsConvex(vs)
  {
    if TurnsLeft(vs) then LeftOfAll(RingOf(vs), c) else RightOfAll(RingOf(vs), c)
  }

  /** On the outer side of no edge. */
  ghost predicate InsideOrOn(vs: seq<Coordinate>, c: Coordinate)
    requires IsConvex(vs)
  {
    if TurnsLeft(vs) then RightOfNone(RingOf(vs), c) else LeftOfNone(RingOf(vs), c)
  }

  lemma ConvexSides(rule: FillRule, vs: seq<Coordinate>, c: Coordinate)
    requires IsConvex(vs)
    ensures Geometry.Contains(rule, RingOf(vs), c) <==> StrictlyInside(vs, c)
    ensures Geometry.Touches(rule, RingOf(vs), c) <==> InsideOrOn(vs, c)
  {
    if TurnsLeft(vs) {
      ConvexRegion(rule, vs, c);
    } else {
      ConvexRegionClockwise(rule, vs, c);
    }
  }

  /**
   * A requested point and a stored convex polygon: beside agreement and constraints, delivery is the
   * point lying strictly on the inner side of every edge.
   */
  lemma PointInConvexPolygon(p: Platform, schemas: Schemas, eventType: string, notify: Request, payload: bool,
                             n: ProcessingResult, stream: Request, w: ProcessingResult, vs: seq<Coordinate>,
                             c: Coordinate, text: string)
    requires Lawful(p) && RoutingAccepted(schemas) && eventType in schemas && schemas[eventType].topic.Some?
    requires IsNotifyResult(p, eventType, schemas[eventType], notify, payload, n)
    requires IsStreamResult(p, eventType, schemas[eventType], stream, w)
    requires IsConvex(vs) && ProducerShape(p, schemas[eventType], notify) == Some(Ring(RingOf(vs)))
    requires "point" in w.params && ParsePointText(p, w.params["point"]) == Some(c)
    requires "polygon" in w.params ==> w.params["polygon"] == "*"
    ensures schemas[eventType].identifier.Keys <= w.params.Keys && n.params.Keys == schemas[eventType].identifier.Keys
    ensures w.constraints.Keys <= n.params.Keys
    ensures Delivered(p, schemas, n.topic, StoredWith(n), text, w) <==>
            && FieldsAgree(schemas[eventType], w.params, n.params)
            && ConstraintsHold(p, w.constraints, n.params)
            && StrictlyInside(vs, c)
  {
    EndToEndSpatial(p, schemas, eventType, notify, payload, n, stream, w, Ring(RingOf(vs)), text);
    ConvexSides(p.fill, vs, c);
  }

  /**
   * A requested convex polygon and a stored cloud: beside agreement and constraints, delivery is some
   * point of the cloud lying on the outer side of no edge.
   */
  lemma CloudInConvexPolygon(p: Platform, schemas: Schemas, eventType: string, notify: Request, payload: bool,
                             n: ProcessingResult, stream: Request, w: ProcessingResult, cloud: seq<Coordinate>,
                             vs: seq<Coordinate>, text: string)
    requires Lawful(p) && RoutingAccepted(schemas) && eventType in schemas && schemas[eventType].topic.Some?
    requires IsNotifyResult(p, eventType, schemas[eventType], notify, payload, n)
    requires IsStreamResult(p, eventType, schemas[eventType], stream, w)
    requires ProducerShape(p, schemas[eventType], notify) == Some(Cloud(cloud))
    requires IsConvex(vs) && "point" !in w.params && "polygon" in w.params && w.params["polygon"] != "*"
    requires ParsePolygonText(p, w.params["polygon"]) == Some(RingOf(vs))
    ensures schemas[eventType].identifier.Keys <= w.params.Keys && n.params.Keys == schemas[eventType].identifier.Keys
    ensures w.constraints.Keys <= n.params.Keys
    ensures Delivered(p, schemas, n.topic, StoredWith(n), text, w) <==>
            && FieldsAgree(schemas[eventType], w.params, n.params)
            && ConstraintsHold(p, w.constraints, n.params)
            && exists i :: 0 <= i < |cloud| && InsideOrOn(vs, cloud[i])
  {
    EndToEndSpatial(p, schemas, eventType, notify, payload, n, stream, w, Cloud(cloud), text);
    forall i | 0 <= i < |cloud|
      ensures Geometry.Touches(p.fill, RingOf(vs), cloud[i]) <==> InsideOrOn(vs, cloud[i])
    {
      ConvexSides(p.fill, vs, cloud[i]);
    }
    CloudAnswer(p, w.params, cloud, RingOf(vs), text);
  }

  lemma CloudAnswer(p: Platform, request: Params, cloud: seq<Coordinate>, ring: seq<Coordinate>, text: string)
    requires "point" !in request && "polygon" in request && request["polygon"] != "*"
    requires ParsePolygonText(p, request["polygon"]) == Some(ring) && ring != []
    ensures PlainAnswer(p, request, Cloud(cloud), text) && BoxesAdmit(p, request, Cloud(cloud)) <==>
            exists i :: 0 <= i < |cloud| && Geometry.Touches(p.fill, ring, cloud[i])
  {
  }
}
