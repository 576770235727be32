# Simplify geometry operation (rgis)

A Dafny model of the "Simplify geometries" operation of the rgis GIS viewer.
The operation is an object the host drives one call at a time:

- `next_action` tells the host whether to keep rendering the parameter UI or to perform the operation.
- `ui` reads a tolerance (epsilon) typed as text. When the text parses, `ui` stores the tolerance, runs a preview and may set the commit flag on a click. When it does not parse, `ui` disables the Execute button.
- The four `visit_*` callbacks append the simplified line string, multi line string, polygon or multi polygon to a buffer, once a tolerance is stored.
- `finalize` drains the buffer into one feature whose geometry is a geometry collection.

Files:

- `geometry.dfy` (module `Geometry`): coordinates, the seven geometry kinds the operation framework distinguishes, features and feature collections.
- `geomtype.dfy` (module `GeomType`): the geometry-kind bit mask and the operation's declared kinds.
- `geosimplify.dfy` (module `GeoSimplify`): the geometry library's simplification, taken as a parameter (`Simplifier`). It also holds the ring-length assumption and the polygon visitor's debug checks.
- `simplifyop.dfy` (module `SimplifyOperation`): the operation's state (`OpState`), one specification function per call, and the class `Simplify`. Each method of the class is proved to update the fields exactly as its function says.
- `properties.dfy` (module `SimplifyProperties`): lemmas about whole runs, that is, any sequence of visits, parameter steps and finalizations.

## Model

| member | source | states |
|---|---|---|
| `Geometry.KindOf` | rgis-geo-ops/src/simplify.rs:16-21 | each geometry has the kind its variant names, the kind the declared mask is tested against: for each of the seven kinds, a geometry has that kind exactly when it is that variant |
| `Geometry.FromGeometry` | rgis-geo-ops/src/simplify.rs:112 | a collection built from one geometry holds exactly one feature, which carries that geometry and no properties |
| `GeomType.FromBitsTruncate` | rgis-geo-ops/src/simplify.rs:16-21 | the truncated mask has no bit outside the seven kinds, and it contains a kind exactly when the given bits do |
| `GeomType.AllowedGeomTypesAreExactlyTheLineAndPolygonKinds` | rgis-geo-ops/src/simplify.rs:16-21 | the declared mask contains exactly LineString, MultiLineString, Polygon and MultiPolygon; Point, MultiPoint and GeometryCollection are excluded |
| `GeomType.SupportedGeometries` | rgis-geo-ops/src/simplify.rs:16-21 | a geometry has a declared kind exactly when it is one of the four variants that have a visitor |
| `GeoSimplify.SimplifyGeometry` | rgis-geo-ops/src/simplify.rs:75-107 | simplifying a supported geometry and converting it back gives a geometry of the same, still supported, kind |
| `GeoSimplify.PolygonDebugChecksAsWritten` | rgis-geo-ops/src/simplify.rs:95-97 | passing the polygon visitor's debug checks as written implies that the simplified exterior has at least four coordinates; for an input whose rings are all long enough, the checks pass exactly when the simplified exterior is long enough, so they look at no simplified interior |
| `GeoSimplify.AsWrittenChecksIgnoreSimplifiedInteriors` | rgis-geo-ops/src/simplify.rs:95-97 | the as-written checks give the same answer whatever interiors the simplified polygon has |
| `GeoSimplify.AsWrittenChecksMissShortInterior` | rgis-geo-ops/src/simplify.rs:95-98 | the polygon visitor's debug checks, as written, pass for a simplified polygon that has a two-coordinate interior ring |
| `GeoSimplify.PolygonDebugChecksHold` | rgis-geo-ops/src/simplify.rs:94-98 | if the library keeps rings at four or more coordinates, then for an input polygon with long-enough rings the as-written debug checks pass, whatever the tolerance |
| `SimplifyOperation.Default` | rgis-geo-ops/src/simplify.rs:7-13 | a default operation has an empty buffer, empty text, no tolerance, an unset commit flag, and so its next action is RenderUi |
| `SimplifyOperation.ActionOf` | rgis-geo-ops/src/simplify.rs:30-36 | the next action is Perform if and only if the commit flag is set, and RenderUi otherwise |
| `SimplifyOperation.AfterVisit` | rgis-geo-ops/src/simplify.rs:75-107 | with no tolerance, a visit changes nothing; with tolerance e, it keeps the buffer as a prefix and appends exactly one element, the input simplified with e, of the input's kind; text, tolerance and flag are unchanged |
| `SimplifyOperation.AfterUi` | rgis-geo-ops/src/simplify.rs:38-73 | the text becomes the edited text and the buffer is untouched; a failed parse keeps the tolerance (a stale one included) and the flag; a successful parse stores the parsed tolerance; the flag is set afterwards if and only if it was set already, or the text parsed, the preview succeeded and the button was clicked |
| `SimplifyOperation.AfterFinalize` | rgis-geo-ops/src/simplify.rs:109-116 | the result is always Ok: one feature with no properties whose geometry is a geometry collection of exactly the prior buffer; the buffer is left empty; the other fields are unchanged |
| `SimplifyOperation.Simplify.constructor` | rgis-geo-ops/src/simplify.rs:24-26 | a built operation is in the default state |
| `SimplifyOperation.Simplify.NextAction` | rgis-geo-ops/src/simplify.rs:30-36 | returns Perform exactly when the commit flag is set, and changes nothing |
| `SimplifyOperation.Simplify.Ui` | rgis-geo-ops/src/simplify.rs:38-73 | the fields after the call are those given by `AfterUi` |
| `SimplifyOperation.Simplify.VisitLineString` | rgis-geo-ops/src/simplify.rs:75-80 | the fields after the call are those given by `AfterVisit` on the line string |
| `SimplifyOperation.Simplify.VisitMultiLineString` | rgis-geo-ops/src/simplify.rs:82-90 | the fields after the call are those given by `AfterVisit` on the multi line string |
| `SimplifyOperation.Simplify.VisitPolygon` | rgis-geo-ops/src/simplify.rs:92-100 | the fields after the call are those given by `AfterVisit` on the polygon |
| `SimplifyOperation.Simplify.VisitMultiPolygon` | rgis-geo-ops/src/simplify.rs:102-107 | the fields after the call are those given by `AfterVisit` on the multi polygon |
| `SimplifyOperation.Simplify.Finalize` | rgis-geo-ops/src/simplify.rs:109-116 | returns what `AfterFinalize` returns and leaves the fields in its drained state |
| `SimplifyProperties.PerformIsSticky` | rgis-geo-ops/src/simplify.rs:65-66 | no run ever clears the commit flag, so once the next action is Perform it stays Perform |
| `SimplifyProperties.CommitExactlyOnValidClick` | rgis-geo-ops/src/simplify.rs:46-67 | from an uncommitted state, a run ends committed if and only if some step of it parsed the text, got a successful preview and was clicked |
| `SimplifyProperties.UnparsableTextNeverCommits` | rgis-geo-ops/src/simplify.rs:69-71 | if the text never parses, a fresh operation's next action stays RenderUi, whatever else happens |
| `SimplifyProperties.VisitsAppendInOrder` | rgis-geo-ops/src/simplify.rs:75-107 | with a tolerance stored, n visits grow the buffer by n and keep the old contents as a prefix; the i-th new element is the i-th visited input simplified; nothing else changes |
| `SimplifyProperties.VisitsWithoutEpsilonChangeNothing` | rgis-geo-ops/src/simplify.rs:76 | with no tolerance, any run of visits leaves the whole state unchanged |
| `SimplifyProperties.StaleEpsilonSurvivesFailedParse` | rgis-geo-ops/src/simplify.rs:69-71 | after a failed parse the previously stored tolerance remains, and the next visit simplifies with it |
| `SimplifyProperties.FinalizeTwiceYieldsEmptyCollection` | rgis-geo-ops/src/simplify.rs:110 | a second finalize right after the first returns Ok with an empty geometry collection |
| `SimplifyProperties.FinalizeFreshOperation` | rgis-geo-ops/src/simplify.rs:109-116 | finalizing a fresh operation gives one feature that wraps an empty geometry collection, not an error |
| `SimplifyProperties.BufferRingsStayOk` | rgis-geo-ops/src/simplify.rs:92-100 | if the library keeps rings long enough and every visited polygon has long-enough rings, then after any run every Polygon entry of the buffer has rings of at least four coordinates (the intended debug checks); MultiPolygon entries are not covered |

## Findings

| source | as written | input that shows it | evidently intended | confidence | as-written member | corrected member |
|---|---|---|---|---|---|---|
| rgis-geo-ops/src/simplify.rs:96-97 | the debug check loops over the interiors of the input polygon, not of the simplified one | an input whose rings all have 4 coordinates, simplified into a polygon with a 2-coordinate interior: the checks pass | check every interior of `simplified`, as line 95 does for its exterior | medium; not executed | `GeoSimplify.PolygonDebugChecksAsWritten` (exhibited by `GeoSimplify.AsWrittenChecksMissShortInterior`) | `SimplifyProperties.BufferRingsStayOk` (every stored Polygon passes the check on the simplified rings) |

## Left out

- The Douglas–Peucker algorithm of the geometry library (an external crate, floating point) is not modelled. The four simplification routines are a parameter (`GeoSimplify.Simplifier`). The only assumption made of them is `KeepsRings`, and it is used only as a lemma hypothesis.
- `SimplifyOperation.Simplify.Ui`: the preview (`perform`, rgis-geo-ops/src/simplify.rs:53) is an input `previewOk`. The model keeps the buffer unchanged across a `ui` call. What `perform` does to the buffer is defined in the crate's `lib.rs`, which is not part of this model. The same holds for `SimplifyOperation.AfterUi`.
- `SimplifyOperation.Simplify.VisitPolygon`: the debug assertions are not executed by the method. A failing check would abort only a debug build. They are modelled as predicates and lemmas in `GeoSimplify` instead.
- Parsing of the tolerance text as a 64-bit float is an input (`parsed`). Scalars are exact reals, so NaN, infinities and rounding are not modelled. The egui widgets are inputs too (`text` is the field after the user's edit; `clicked` is the click on the enabled button). The labels, including the node counts from `coords_count`, are display output only and are left out.
- `SimplifyProperties.BufferRingsStayOk`: polygons inside MultiPolygon entries of the buffer are not covered. The source checks ring lengths only in `visit_polygon`, and `KeepsRings` assumes nothing of the library's multi-polygon routine.
- The geometry library's `Line`, `Rect` and `Triangle` variants are not modelled. The model has only the seven kinds the operation framework distinguishes, and the operation has no visitor for those three.
- Ring closure (first coordinate equals last) is not modelled; ring validity is only the four-coordinate minimum.
- The bit values of the geometry-type flags come from `geo_geom_type`, which is not part of this model. The model gives each kind its own bit. Mask union and intersection are not used by the operation and are left out.
- The dispatcher that calls the visitors is not part of this model. Runs only require that every visited geometry has a declared kind.
- Feature properties are modelled as a string-to-string map. `from_geometry` is modelled as one feature with no properties.
- The boxing of the instance as a `Send + Sync` trait object is left out. The operation's name is the constant `GeomType.Name`.
- The viewer's entry point, UI plugin wiring, network fetch and dataset catalogue are outside the operation and are left out.
