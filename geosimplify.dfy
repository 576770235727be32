/** The geometry library's tolerance-based simplification, seen from the
    operation: one routine per supported kind, each returning a geometry of
    the kind it was given. The algorithm itself is not modelled; the routines
    are a parameter, and the only thing ever assumed of them is `KeepsRings`. */
module GeoSimplify {
  import opened Geometry
  import opened GeomType

  datatype Simplifier = Simplifier(
    lineString: (LineString, Scalar) -> LineString,
    multiLineString: (MultiLineString, Scalar) -> MultiLineString,
    polygon: (Polygon, Scalar) -> Polygon,
    multiPolygon: (MultiPolygon, Scalar) -> MultiPolygon)

  /** Simplify `g` with tolerance `epsilon` and convert the result back into
      a `Geometry` of the same kind. */
  function SimplifyGeometry(lib: Simplifier, g: Geometry, epsilon: Scalar): (r: Geometry)
    requires Supported(g)
    ensures Supported(r) && KindOf(r) == KindOf(g)
  {
    match g
    case LineStringGeom(ls) => LineStringGeom(lib.lineString(ls, epsilon))
    case MultiLineStringGeom(mls) => MultiLineStringGeom(lib.multiLineString(mls, epsilon))
    case PolygonGeom(p) => PolygonGeom(lib.polygon(p, epsilon))
    case MultiPolygonGeom(mp) => MultiPolygonGeom(lib.multiPolygon(mp, epsilon))
    case Point(_) => assert false; g
    case MultiPoint(_) => assert false; g
    case GeometryCollection(_) => assert false; g
  }

  /** The smallest number of coordinates of a valid closed ring. */
  const MinRingLength: nat := 4

  predicate RingOk(ring: LineString)
  {
    |ring.coords| >= MinRingLength
  }

  /** Every ring of the polygon, exterior and interiors, is long enough. */
  predicate RingsOk(p: Polygon)
  {
    RingOk(p.exterior) && forall i :: 0 <= i < |p.interiors| ==> RingOk(p.interiors[i])
  }

  /** The assumption on the library: simplifying a polygon whose rings are all
      long enough leaves every ring long enough. */
  ghost predicate KeepsRings(lib: Simplifier)
  {
    forall p: Polygon, epsilon: Scalar {:trigger lib.polygon(p, epsilon)} ::
      RingsOk(p) ==> RingsOk(lib.polygon(p, epsilon))
  }

  /** The debug assertions of the polygon visitor as written: the simplified
      exterior is checked, but the interiors checked are those of the INPUT. */
  predicate PolygonDebugChecksAsWritten(input: Polygon, simplified: Polygon): (r: bool)
    ensures r ==> RingOk(simplified.exterior)
    ensures RingsOk(input) ==> (r <==> RingOk(simplified.exterior))
  {
    RingOk(simplified.exterior) &&
    forall i :: 0 <= i < |input.interiors| ==> RingOk(input.interiors[i])
  }

  /** The as-written checks do not depend on the simplified interiors. */
  lemma AsWrittenChecksIgnoreSimplifiedInteriors(input: Polygon, simplified: Polygon, others: seq<LineString>)
    ensures PolygonDebugChecksAsWritten(input, simplified) ==
            PolygonDebugChecksAsWritten(input, Polygon(simplified.exterior, others))
  {
  }

  /** The as-written checks say nothing about the simplified interiors: a
      simplified polygon with a two-point interior passes them. */
  lemma AsWrittenChecksMissShortInterior()
    ensures var ring := LineString([Coord(0.0, 0.0), Coord(4.0, 0.0), Coord(0.0, 4.0), Coord(0.0, 0.0)]);
            var input := Polygon(ring, [ring]);
            var simplified := Polygon(ring, [LineString([Coord(0.0, 0.0), Coord(0.0, 0.0)])]);
            PolygonDebugChecksAsWritten(input, simplified) && !RingsOk(simplified)
  {
    var ring := LineString([Coord(0.0, 0.0), Coord(4.0, 0.0), Coord(0.0, 4.0), Coord(0.0, 0.0)]);
    var short := LineString([Coord(0.0, 0.0), Coord(0.0, 0.0)]);
    assert !RingOk(Polygon(ring, [short]).interiors[0]);
  }

  /** Under the library assumption, the as-written checks never fire for an
      input whose rings are long enough, whatever the tolerance. (The checks
      as evidently intended, `RingsOk` of the simplified polygon, are then
      `KeepsRings` itself.) */
  lemma PolygonDebugChecksHold(lib: Simplifier, input: Polygon, epsilon: Scalar)
    requires KeepsRings(lib) && RingsOk(input)
    ensures PolygonDebugChecksAsWritten(input, lib.polygon(input, epsilon))
  {
  }
}
