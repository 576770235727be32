/** Properties of whole runs of the Simplify operation: any sequence of
    visits, parameter steps and finalizations a host may make. */
module SimplifyProperties {
  import opened Geometry
  import opened GeomType
  import opened GeoSimplify
  import opened SimplifyOperation

  /** A parameter step that commits: the text parsed, the preview succeeded
      and the enabled Execute button was clicked. */
  predicate IsCommit(ev: Event)
  {
    ev.UiCycle? && ev.parsed.Some? && ev.previewOk && ev.clicked
  }

  /** Nothing resets the commit flag, so once the next action is Perform it
      stays Perform. */
  lemma {:induction false} PerformIsSticky(s: OpState, lib: Simplifier, evs: seq<Event>)
    requires Admissible(evs)
    ensures s.executePressed ==> Run(s, lib, evs).executePressed
    ensures ActionOf(s) == Perform ==> ActionOf(Run(s, lib, evs)) == Perform
    decreases |evs|
  {
    if evs != [] {
      PerformIsSticky(Step(s, lib, evs[0]), lib, evs[1..]);
    }
  }

  /** Starting uncommitted, a run ends committed exactly when one of its
      steps is a commit. */
  lemma {:induction false} CommitExactlyOnValidClick(s: OpState, lib: Simplifier, evs: seq<Event>)
    requires Admissible(evs) && !s.executePressed
    ensures Run(s, lib, evs).executePressed <==> exists i :: 0 <= i < |evs| && IsCommit(evs[i])
    decreases |evs|
  {
    if evs != [] {
      var t := Step(s, lib, evs[0]);
      var rest := evs[1..];
      if IsCommit(evs[0]) {
        PerformIsSticky(t, lib, rest);
      } else {
        CommitExactlyOnValidClick(t, lib, rest);
        if exists i :: 0 <= i < |rest| && IsCommit(rest[i]) {
          var i :| 0 <= i < |rest| && IsCommit(rest[i]);
          assert IsCommit(evs[i + 1]);
        }
        if exists i :: 0 <= i < |evs| && IsCommit(evs[i]) {
          var i :| 0 <= i < |evs| && IsCommit(evs[i]);
          assert i != 0 && IsCommit(rest[i - 1]);
        }
      }
    }
  }

  /** Text that never parses keeps a fresh operation asking for its
      parameters, whatever is clicked or visited. */
  lemma UnparsableTextNeverCommits(lib: Simplifier, evs: seq<Event>)
    requires Admissible(evs)
    requires forall i :: 0 <= i < |evs| ==> evs[i].UiCycle? ==> evs[i].parsed.None?
    ensures ActionOf(Run(Default(), lib, evs)) == RenderUi
  {
    CommitExactlyOnValidClick(Default(), lib, evs);
  }

  /** With a tolerance stored, a run of visits appends one simplified
      geometry per visit, in visit order, after what the buffer held, and
      changes nothing else. */
  lemma {:induction false} VisitsAppendInOrder(s: OpState, lib: Simplifier, evs: seq<Event>)
    requires Admissible(evs) && s.epsilon.Some?
    requires forall i :: 0 <= i < |evs| ==> evs[i].Visited?
    ensures var t := Run(s, lib, evs);
      t.epsilon == s.epsilon && t.epsilonText == s.epsilonText &&
      t.executePressed == s.executePressed &&
      |t.simplified| == |s.simplified| + |evs| &&
      t.simplified[..|s.simplified|] == s.simplified &&
      forall i :: 0 <= i < |evs| ==>
        t.simplified[|s.simplified| + i] == SimplifyGeometry(lib, evs[i].input, s.epsilon.value)
    decreases |evs|
  {
    if evs != [] {
      var u := Step(s, lib, evs[0]);
      var rest := evs[1..];
      VisitsAppendInOrder(u, lib, rest);
      var t := Run(s, lib, evs);
      assert t == Run(u, lib, rest);
      assert t.simplified[..|s.simplified|] == u.simplified[..|u.simplified|][..|s.simplified|];
      forall i | 0 <= i < |evs|
        ensures t.simplified[|s.simplified| + i] == SimplifyGeometry(lib, evs[i].input, s.epsilon.value)
      {
        if i == 0 {
          assert t.simplified[|s.simplified|] == t.simplified[..|u.simplified|][|s.simplified|];
        } else {
          assert evs[i] == rest[i - 1];
          assert |s.simplified| + i == |u.simplified| + (i - 1);
        }
      }
    }
  }

  /** Without a tolerance, a run of visits leaves the whole state unchanged. */
  lemma {:induction false} VisitsWithoutEpsilonChangeNothing(s: OpState, lib: Simplifier, evs: seq<Event>)
    requires Admissible(evs) && s.epsilon.None?
    requires forall i :: 0 <= i < |evs| ==> evs[i].Visited?
    ensures Run(s, lib, evs) == s
    decreases |evs|
  {
    if evs != [] {
      VisitsWithoutEpsilonChangeNothing(Step(s, lib, evs[0]), lib, evs[1..]);
    }
  }

  /** A failed parse keeps a previously stored tolerance, and the next visit
      still simplifies with it. */
  lemma StaleEpsilonSurvivesFailedParse(s: OpState, lib: Simplifier, text: string, previewOk: bool, clicked: bool, input: Geometry)
    requires s.epsilon.Some? && Supported(input)
    ensures var t := AfterVisit(AfterUi(s, text, None, previewOk, clicked), lib, input);
      t.epsilon == s.epsilon &&
      t.simplified == s.simplified + [SimplifyGeometry(lib, input, s.epsilon.value)]
  {
  }

  /** A second finalization right after the first yields an empty geometry
      collection, not an error. */
  lemma FinalizeTwiceYieldsEmptyCollection(s: OpState)
    ensures var second := AfterFinalize(AfterFinalize(s).0).1;
      second == Ok(FeatureCollectionOutcome(FromGeometry(GeometryCollection([]))))
  {
  }

  /** Finalizing an operation that never stored anything yields one feature
      wrapping an empty geometry collection. */
  lemma FinalizeFreshOperation()
    ensures AfterFinalize(Default()).1 ==
      Ok(FeatureCollectionOutcome(FeatureCollection([Feature(GeometryCollection([]), map[])])))
  {
  }

  /** Every Polygon entry of the buffer passes the intended debug checks: all
      of its rings have at least four coordinates. Polygons inside
      MultiPolygon entries are not constrained. */
  predicate BufferRingsOk(buffer: seq<Geometry>)
  {
    forall i :: 0 <= i < |buffer| ==> buffer[i].PolygonGeom? ==> RingsOk(buffer[i].polygon)
  }

  /** If the library keeps rings long enough and every visited polygon has
      long enough rings, every Polygon entry the buffer ever holds does too. */
  lemma {:induction false} BufferRingsStayOk(s: OpState, lib: Simplifier, evs: seq<Event>)
    requires Admissible(evs) && KeepsRings(lib) && BufferRingsOk(s.simplified)
    requires forall i :: 0 <= i < |evs| ==>
      evs[i].Visited? && evs[i].input.PolygonGeom? ==> RingsOk(evs[i].input.polygon)
    ensures BufferRingsOk(Run(s, lib, evs).simplified)
    decreases |evs|
  {
    if evs != [] {
      var u := Step(s, lib, evs[0]);
      if evs[0].Visited? && evs[0].input.PolygonGeom? && s.epsilon.Some? {
        assert RingsOk(lib.polygon(evs[0].input.polygon, s.epsilon.value));
      }
      assert BufferRingsOk(u.simplified);
      assert forall i :: 0 <= i < |evs[1..]| ==> evs[1..][i] == evs[i + 1];
      BufferRingsStayOk(u, lib, evs[1..]);
    }
  }
}
