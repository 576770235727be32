/** Geometry values handled by the Simplify operation: the seven geometry
    kinds the operation framework distinguishes, features and feature
    collections.
    Coordinates are the projected-or-not scalar of the application, taken
    here as an exact real number. */
module Geometry {

  type Scalar = real

  datatype Coord = Coord(x: Scalar, y: Scalar)

  /** An ordered sequence of coordinates; a ring when it is a polygon boundary. */
  datatype LineString = LineString(coords: seq<Coord>)

  datatype Polygon = Polygon(exterior: LineString, interiors: seq<LineString>)

  datatype MultiLineString = MultiLineString(lines: seq<LineString>)

  datatype MultiPolygon = MultiPolygon(polygons: seq<Polygon>)

  datatype Geometry =
    | Point(point: Coord)
    | LineStringGeom(lineString: LineString)
    | PolygonGeom(polygon: Polygon)
    | MultiPoint(points: seq<Coord>)
    | MultiLineStringGeom(multiLineString: MultiLineString)
    | MultiPolygonGeom(multiPolygon: MultiPolygon)
    | GeometryCollection(geometries: seq<Geometry>)

  /** The seven geometry kinds, one per variant of `Geometry`. */
  datatype GeomKind =
    | PointKind
    | LineStringKind
    | PolygonKind
    | MultiPointKind
    | MultiLineStringKind
    | MultiPolygonKind
    | GeometryCollectionKind

  function KindOf(g: Geometry): (k: GeomKind)
    ensures k == PointKind <==> g.Point?
    ensures k == LineStringKind <==> g.LineStringGeom?
    ensures k == PolygonKind <==> g.PolygonGeom?
    ensures k == MultiLineStringKind <==> g.MultiLineStringGeom?
    ensures k == MultiPolygonKind <==> g.MultiPolygonGeom?
    ensures k == MultiPointKind <==> g.MultiPoint?
    ensures k == GeometryCollectionKind <==> g.GeometryCollection?
  {
    match g
    case Point(_) => PointKind
    case LineStringGeom(_) => LineStringKind
    case PolygonGeom(_) => PolygonKind
    case MultiPoint(_) => MultiPointKind
    case MultiLineStringGeom(_) => MultiLineStringKind
    case MultiPolygonGeom(_) => MultiPolygonKind
    case GeometryCollection(_) => GeometryCollectionKind
  }

  /** A feature pairs a geometry with its properties (string keys and values). */
  datatype Feature = Feature(geometry: Geometry, properties: map<string, string>)

  datatype FeatureCollection = FeatureCollection(features: seq<Feature>)

  /** A collection made of a single feature that carries `g` and no properties. */
  function FromGeometry(g: Geometry): (fc: FeatureCollection)
    ensures |fc.features| == 1
    ensures fc.features[0].geometry == g && fc.features[0].properties == map[]
  {
    FeatureCollection([Feature(g, map[])])
  }
}
