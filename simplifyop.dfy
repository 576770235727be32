/** The Simplify geometry operation: a small state machine that stores a
    tolerance parsed from text, appends one simplified geometry per visited
    input, commits on a click, and hands back everything it accumulated as a
    single feature when finalized.

    `OpState` and the `After*` functions are the specification: the value of
    the operation's four fields before and after each call. The class
    `Simplify` is the operation itself; each of its methods is proved to move
    its fields exactly as the matching function says. */
module SimplifyOperation {
  import opened Geometry
  import opened GeomType
  import opened GeoSimplify

  datatype Option<T> = None | Some(value: T)

  /** What the host should do next with the operation. */
  datatype Action = RenderUi | Perform

  /** What a finished operation hands back to the host. */
  datatype Outcome = FeatureCollectionOutcome(collection: FeatureCollection)

  datatype Error = Error(message: string)

  datatype Result<T> = Ok(value: T) | Err(error: Error)

  /** The four fields of the operation. */
  datatype OpState = OpState(
    simplified: seq<Geometry>,
    epsilonText: string,
    epsilon: Option<Scalar>,
    executePressed: bool)

  /** The state of a freshly built operation. */
  function Default(): (s: OpState)
    ensures s.simplified == [] && s.epsilonText == "" && s.epsilon == None
    ensures !s.executePressed && ActionOf(s) == RenderUi
  {
    OpState([], "", None, false)
  }

  function ActionOf(s: OpState): (a: Action)
    ensures a == Perform <==> s.executePressed
    ensures a == RenderUi <==> !s.executePressed
  {
    if s.executePressed then Perform else RenderUi
  }

  /** A `visit_*` callback on `input`: without a tolerance nothing happens;
      with one, the simplified input is appended at the end of the buffer. */
  function AfterVisit(s: OpState, lib: Simplifier, input: Geometry): (t: OpState)
    requires Supported(input)
    ensures t.epsilonText == s.epsilonText && t.epsilon == s.epsilon
    ensures t.executePressed == s.executePressed
    ensures s.epsilon.None? ==> t == s
    ensures s.epsilon.Some? ==>
      |t.simplified| == |s.simplified| + 1 &&
      t.simplified[..|s.simplified|] == s.simplified &&
      t.simplified[|s.simplified|] == SimplifyGeometry(lib, input, s.epsilon.value)
    ensures s.epsilon.Some? ==> KindOf(t.simplified[|s.simplified|]) == KindOf(input)
  {
    match s.epsilon
    case None => s
    case Some(e) => s.(simplified := s.simplified + [SimplifyGeometry(lib, input, e)])
  }

  /** One call of the parameter step. `text` is the field after the user's
      edit, `parsed` whether it reads as a number, `previewOk` whether the
      preview run returned a feature collection, `clicked` whether the enabled
      Execute button was pressed in this cycle. */
  function AfterUi(s: OpState, text: string, parsed: Option<Scalar>, previewOk: bool, clicked: bool): (t: OpState)
    ensures t.epsilonText == text && t.simplified == s.simplified
    ensures parsed.None? ==> t.epsilon == s.epsilon && t.executePressed == s.executePressed
    ensures parsed.Some? ==> t.epsilon == parsed
    ensures t.executePressed <==> s.executePressed || (parsed.Some? && previewOk && clicked)
  {
    var edited := s.(epsilonText := text);
    match parsed
    case None => edited
    case Some(f) =>
      var stored := edited.(epsilon := Some(f));
      if !previewOk then stored
      else if clicked then stored.(executePressed := true)
      else stored
  }

  /** Drain the buffer and wrap what it held in one feature whose geometry is
      a geometry collection; never an error. */
  function AfterFinalize(s: OpState): (r: (OpState, Result<Outcome>))
    ensures r.0.simplified == []
    ensures r.0.epsilonText == s.epsilonText && r.0.epsilon == s.epsilon
    ensures r.0.executePressed == s.executePressed
    ensures r.1.Ok? && |r.1.value.collection.features| == 1
    ensures r.1.value.collection.features[0].geometry == GeometryCollection(s.simplified)
    ensures r.1.value.collection.features[0].properties == map[]
  {
    (s.(simplified := []), Ok(FeatureCollectionOutcome(FromGeometry(GeometryCollection(s.simplified)))))
  }

  /** The calls a host can make on the operation, for reasoning about runs. */
  datatype Event =
    | Visited(input: Geometry)
    | UiCycle(text: string, parsed: Option<Scalar>, previewOk: bool, clicked: bool)
    | Finalized

  /** A visit is only ever made with a geometry of a declared kind. */
  predicate Admissible(evs: seq<Event>)
  {
    forall i :: 0 <= i < |evs| ==> evs[i].Visited? ==> Supported(evs[i].input)
  }

  function Step(s: OpState, lib: Simplifier, ev: Event): OpState
    requires ev.Visited? ==> Supported(ev.input)
  {
    match ev
    case Visited(g) => AfterVisit(s, lib, g)
    case UiCycle(text, parsed, previewOk, clicked) => AfterUi(s, text, parsed, previewOk, clicked)
    case Finalized => AfterFinalize(s).0
  }

  function Run(s: OpState, lib: Simplifier, evs: seq<Event>): OpState
    requires Admissible(evs)
    decreases |evs|
  {
    if evs == [] then s else Run(Step(s, lib, evs[0]), lib, evs[1..])
  }

  /** The operation object. */
  class Simplify {
    var simplified: seq<Geometry>
    var epsilonText: string
    var epsilon: Option<Scalar>
    var executePressed: bool

    function State(): OpState
      reads this
    {
      OpState(simplified, epsilonText, epsilon, executePressed)
    }

    /** `build`: a boxed default instance. */
    constructor ()
      ensures State() == Default()
    {
      simplified := [];
      epsilonText := "";
      epsilon := None;
      executePressed := false;
    }

    method NextAction() returns (a: Action)
      ensures a == ActionOf(State())
      ensures a == Perform <==> executePressed
    {
      if executePressed {
        a := Perform;
      } else {
        a := RenderUi;
      }
    }

    method Ui(text: string, parsed: Option<Scalar>, previewOk: bool, clicked: bool)
      modifies this
      ensures State() == AfterUi(old(State()), text, parsed, previewOk, clicked)
    {
      epsilonText := text;
      match parsed {
        case Some(f) =>
          epsilon := Some(f);
          if !previewOk {
            return;
          }
          if clicked {
            executePressed := true;
          }
        case None =>
      }
    }

    method VisitLineString(lineString: LineString, lib: Simplifier)
      modifies this
      ensures State() == AfterVisit(old(State()), lib, LineStringGeom(lineString))
    {
      match epsilon {
        case None => return;
        case Some(e) =>
          simplified := simplified + [LineStringGeom(lib.lineString(lineString, e))];
      }
    }

    method VisitMultiLineString(multiLineString: MultiLineString, lib: Simplifier)
      modifies this
      ensures State() == AfterVisit(old(State()), lib, MultiLineStringGeom(multiLineString))
    {
      match epsilon {
        case None => return;
        case Some(e) =>
          simplified := simplified + [MultiLineStringGeom(lib.multiLineString(multiLineString, e))];
      }
    }

    method VisitPolygon(polygon: Polygon, lib: Simplifier)
      modifies this
      ensures State() == AfterVisit(old(State()), lib, PolygonGeom(polygon))
    {
      match epsilon {
        case None => return;
        case Some(e) =>
          var s := lib.polygon(polygon, e);
          simplified := simplified + [PolygonGeom(s)];
      }
    }

    method VisitMultiPolygon(multiPolygon: MultiPolygon, lib: Simplifier)
      modifies this
      ensures State() == AfterVisit(old(State()), lib, MultiPolygonGeom(multiPolygon))
    {
      match epsilon {
        case None => return;
        case Some(e) =>
          simplified := simplified + [MultiPolygonGeom(lib.multiPolygon(multiPolygon, e))];
      }
    }

    method Finalize() returns (r: Result<Outcome>)
      modifies this
      ensures State() == AfterFinalize(old(State())).0
      ensures r == AfterFinalize(old(State())).1
    {
      var drained := simplified;
      simplified := [];
      r := Ok(FeatureCollectionOutcome(FromGeometry(GeometryCollection(drained))));
    }
  }
}
