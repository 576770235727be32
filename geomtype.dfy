/** The geometry-kind bit set used to declare which kinds an operation acts on.
    Each of the seven kinds owns one bit of a byte; `FromBitsTruncate` keeps
    only the bits that name a kind. */
module GeomType {
  import opened Geometry

  type GeomTypeBits = bv8

  function Bit(k: GeomKind): (b: GeomTypeBits)
  {
    match k
    case PointKind => 0x01
    case LineStringKind => 0x02
    case PolygonKind => 0x04
    case MultiPointKind => 0x08
    case MultiLineStringKind => 0x10
    case MultiPolygonKind => 0x20
    case GeometryCollectionKind => 0x40
  }

  /** The union of the bits of all seven kinds. */
  const AllBits: GeomTypeBits := 0x7F

  function FromBitsTruncate(b: GeomTypeBits): (m: GeomTypeBits)
    ensures m & !AllBits == 0
    ensures forall k :: (m & Bit(k) != 0) == (b & Bit(k) != 0)
  {
    b & AllBits
  }

  predicate Contains(mask: GeomTypeBits, k: GeomKind)
  {
    mask & Bit(k) != 0
  }

  /** The kinds the Simplify operation declares: line strings, multi line
      strings, polygons and multi polygons. */
  const AllowedGeomTypes: GeomTypeBits :=
    FromBitsTruncate(Bit(LineStringKind) | Bit(MultiLineStringKind) | Bit(PolygonKind) | Bit(MultiPolygonKind))

  const Name: string := "Simplify geometries"

  /** A geometry is handled by one of the Simplify visitors exactly when its
      kind is in the declared mask. */
  predicate Supported(g: Geometry)
  {
    Contains(AllowedGeomTypes, KindOf(g))
  }

  lemma AllowedGeomTypesAreExactlyTheLineAndPolygonKinds(k: GeomKind)
    ensures Contains(AllowedGeomTypes, k) <==>
      k in {LineStringKind, MultiLineStringKind, PolygonKind, MultiPolygonKind}
    ensures !Contains(AllowedGeomTypes, PointKind)
    ensures !Contains(AllowedGeomTypes, MultiPointKind)
    ensures !Contains(AllowedGeomTypes, GeometryCollectionKind)
  {
  }

  lemma SupportedGeometries(g: Geometry)
    ensures Supported(g) <==>
      g.LineStringGeom? || g.MultiLineStringGeom? || g.PolygonGeom? || g.MultiPolygonGeom?
  {
  }
}
