/** A session with one accumulator: a sequence of calls made on it, each
    either a mutator (AddPoint, AddEdge, Clear) or a const query. Running the
    sequence threads the state through the calls and collects what each
    query returns. */
module Session {
  import opened Angles
  import opened Geodesic
  import opened Crossing
  import P = Polygon

  datatype Command =
    | AddPoint(lat: real, lon: real)
    | AddEdge(azi: real, s: real)
    | Clear
    | Compute(reverse: bool, sign: bool)
    | TestPoint(lat: real, lon: real, reverse: bool, sign: bool)
    | TestEdge(azi: real, s: real, reverse: bool, sign: bool)
    | TestCompute(lat: real, lon: real, reverse: bool, sign: bool)
    | CurrentPoint
    | MajorRadius
    | Flattening
  {
    /** The member functions declared `const`. */
    predicate IsQuery() {
      !(AddPoint? || AddEdge? || Clear?)
    }
  }

  datatype Reply =
    | Done
    | Results(report: P.Report)
    | Position(lat: P.Coord, lon: P.Coord)
    | Value(x: real)

  /** One call on the accumulator. */
  function Step(p: P.PolygonArea, m: AngleOps, c: P.Closing, cmd: Command): (r: (P.PolygonArea, Reply))
    requires P.Valid(p)
    ensures P.Valid(r.0)
    ensures P.SameConfig(p, r.0)
    ensures cmd.IsQuery() ==> r.0 == p
    ensures !cmd.IsQuery() ==> r.1 == Done
  {
    match cmd
    case AddPoint(lat, lon) => (P.AddPoint(p, m, lat, lon), Done)
    case AddEdge(azi, s) => (P.AddEdge(p, m, azi, s), Done)
    case Clear => (P.Clear(p), Done)
    case Compute(reverse, sign) => (p, Results(P.Compute(p, c, reverse, sign)))
    case TestPoint(lat, lon, reverse, sign) =>
      (p, Results(P.TestPoint(p, m, c, lat, lon, reverse, sign)))
    case TestEdge(azi, s, reverse, sign) =>
      (p, Results(P.TestEdge(p, m, c, azi, s, reverse, sign)))
    case TestCompute(lat, lon, reverse, sign) =>
      (p, Results(P.TestCompute(p, m, c, lat, lon, reverse, sign)))
    case CurrentPoint =>
      var pt := P.CurrentPoint(p);
      (p, Position(pt.0, pt.1))
    case MajorRadius => (p, Value(P.MajorRadius(p)))
    case Flattening => (p, Value(P.Flattening(p)))
  }

  /** A whole sequence of calls: the final state and one reply per call. */
  function Run(p: P.PolygonArea, m: AngleOps, c: P.Closing, cmds: seq<Command>): (r: (P.PolygonArea, seq<Reply>))
    requires P.Valid(p)
    ensures P.Valid(r.0)
    ensures P.SameConfig(p, r.0)
    ensures |r.1| == |cmds|
    decreases |cmds|
  {
    if |cmds| == 0 then (p, [])
    else
      var first := Step(p, m, c, cmds[0]);
      var rest := Run(first.0, m, c, cmds[1..]);
      (rest.0, [first.1] + rest.1)
  }

  /** The mutators of a call sequence, in order. */
  function Mutators(cmds: seq<Command>): (r: seq<Command>)
    ensures |r| <= |cmds|
    ensures forall i :: 0 <= i < |r| ==> !r[i].IsQuery()
  {
    if |cmds| == 0 then []
    else if cmds[0].IsQuery() then Mutators(cmds[1..])
    else [cmds[0]] + Mutators(cmds[1..])
  }

  /** Reference count of points: AddPoint adds one, AddEdge adds one only
      once a point exists, Clear starts again from zero, queries count nothing. */
  function PointCount(n: nat, cmds: seq<Command>): nat
    decreases |cmds|
  {
    if |cmds| == 0 then n
    else
      var n' := match cmds[0]
        case AddPoint(_, _) => n + 1
        case AddEdge(_, _) => if n == 0 then 0 else n + 1
        case Clear => 0
        case _ => n;
      PointCount(n', cmds[1..])
  }

  /** Running two sequences one after the other is running their concatenation. */
  lemma {:induction false} RunAppend(p: P.PolygonArea, m: AngleOps, c: P.Closing, a: seq<Command>, b: seq<Command>)
    requires P.Valid(p)
    ensures var ra := Run(p, m, c, a);
            var rb := Run(ra.0, m, c, b);
            Run(p, m, c, a + b) == (rb.0, ra.1 + rb.1)
    decreases |a|
  {
    if |a| == 0 {
      assert a + b == b;
      assert Run(p, m, c, a) == (p, []);
      assert [] + Run(p, m, c, b).1 == Run(p, m, c, b).1;
    } else {
      var first := Step(p, m, c, a[0]);
      assert (a + b)[0] == a[0];
      assert (a + b)[1..] == a[1..] + b;
      RunAppend(first.0, m, c, a[1..], b);
      var ra := Run(first.0, m, c, a[1..]);
      var rb := Run(ra.0, m, c, b);
      assert Run(p, m, c, a) == (ra.0, [first.1] + ra.1);
      assert Run(p, m, c, a + b) == (rb.0, [first.1] + (ra.1 + rb.1));
      assert [first.1] + (ra.1 + rb.1) == ([first.1] + ra.1) + rb.1;
    }
  }

  /** A query call anywhere in a session changes neither the final state nor
      the reply of any other call. */
  lemma QueryIsInvisible(p: P.PolygonArea, m: AngleOps, c: P.Closing,
                         pre: seq<Command>, q: Command, post: seq<Command>)
    requires P.Valid(p)
    requires q.IsQuery()
    ensures var with := Run(p, m, c, pre + [q] + post);
            var without := Run(p, m, c, pre + post);
            && with.0 == without.0
            && with.1[..|pre|] + with.1[|pre| + 1..] == without.1
  {
    var rpre := Run(p, m, c, pre);
    RunAppend(p, m, c, pre, [q] + post);
    RunAppend(p, m, c, pre, post);
    assert pre + [q] + post == pre + ([q] + post);
    var rest := Run(rpre.0, m, c, [q] + post);
    assert ([q] + post)[1..] == post;
    var with := Run(p, m, c, pre + [q] + post);
    assert with.1 == rpre.1 + rest.1;
    assert with.1[..|pre|] == rpre.1;
    assert with.1[|pre| + 1..] == rest.1[1..];
  }

  /** The final state of a session depends only on its mutators. */
  lemma {:induction false} OnlyMutatorsMatter(p: P.PolygonArea, m: AngleOps, c: P.Closing, cmds: seq<Command>)
    requires P.Valid(p)
    ensures Run(p, m, c, cmds).0 == Run(p, m, c, Mutators(cmds)).0
    decreases |cmds|
  {
    if |cmds| > 0 {
      var q := Step(p, m, c, cmds[0]).0;
      OnlyMutatorsMatter(q, m, c, cmds[1..]);
      if !cmds[0].IsQuery() {
        var rest := Mutators(cmds[1..]);
        assert ([cmds[0]] + rest)[0] == cmds[0];
        assert ([cmds[0]] + rest)[1..] == rest;
      }
    }
  }

  /** The number of points the accumulator holds is the reference count. */
  lemma {:induction false} NumIsPointCount(p: P.PolygonArea, m: AngleOps, c: P.Closing, cmds: seq<Command>)
    requires P.Valid(p)
    ensures Run(p, m, c, cmds).0.num == PointCount(p.num, cmds)
    decreases |cmds|
  {
    if |cmds| > 0 {
      var q := Step(p, m, c, cmds[0]).0;
      NumIsPointCount(q, m, c, cmds[1..]);
    }
  }

  /** Clear at the end of any session from a new accumulator gives back the
      new accumulator. */
  lemma ClearEndsSession(earth: Engine, polyline: bool, m: AngleOps, c: P.Closing, cmds: seq<Command>)
    ensures Run(P.New(earth, polyline), m, c, cmds + [Clear]).0 == P.New(earth, polyline)
  {
    var p := P.New(earth, polyline);
    RunAppend(p, m, c, cmds, [Clear]);
  }

  /** The inspectors report the same ellipsoid throughout a session. This
      follows directly from the configuration `Run` preserves. */
  lemma InspectorsAreStable(p: P.PolygonArea, m: AngleOps, c: P.Closing, cmds: seq<Command>)
    requires P.Valid(p)
    ensures var f := Run(p, m, c, cmds).0;
            && P.MajorRadius(f) == P.MajorRadius(p)
            && P.Flattening(f) == P.Flattening(p)
            && f.area0 == p.earth.ellipsoidArea
  {
  }

  /** Asking Compute twice in a row gives the same answer twice. This holds
      because Compute is a query (Step returns the state unchanged) and a
      function of that state; it is the two-call instance of QueryIsInvisible. */
  lemma ComputeIsRepeatable(p: P.PolygonArea, m: AngleOps, c: P.Closing, reverse: bool, sign: bool)
    requires P.Valid(p)
    ensures var r := Run(p, m, c, [Compute(reverse, sign), Compute(reverse, sign)]).1;
            r[0] == r[1]
  {
  }

  /** TestPoint does not save its point: the current point after it is the
      current point before it. This is the instance of QueryIsInvisible that
      the TestPoint documentation spells out. */
  lemma TestPointIsNotSaved(p: P.PolygonArea, m: AngleOps, c: P.Closing,
                            lat: real, lon: real, reverse: bool, sign: bool)
    requires P.Valid(p)
    ensures var r := Run(p, m, c, [CurrentPoint, TestPoint(lat, lon, reverse, sign), CurrentPoint]).1;
            r[0] == r[2]
  {
    var cmds := [CurrentPoint, TestPoint(lat, lon, reverse, sign), CurrentPoint];
    assert cmds[1..] == [TestPoint(lat, lon, reverse, sign), CurrentPoint];
    assert cmds[1..][1..] == [CurrentPoint];
    var r3 := Run(p, m, c, cmds[1..][1..]);
    assert r3.1 == [Step(p, m, c, CurrentPoint).1] + Run(p, m, c, []).1;
    var r2 := Run(p, m, c, cmds[1..]);
    assert r2.1 == [Step(p, m, c, cmds[1]).1] + r3.1;
    assert Run(p, m, c, cmds).1 == [Step(p, m, c, CurrentPoint).1] + r2.1;
  }

  /** One AddPoint call per vertex, in order. */
  function AddPoints(lats: seq<real>, lons: seq<real>): (cmds: seq<Command>)
    requires |lats| == |lons|
    ensures |cmds| == |lons|
    ensures forall i :: 0 <= i < |cmds| ==> cmds[i] == AddPoint(lats[i], lons[i])
  {
    seq(|lons|, i requires 0 <= i < |lons| => AddPoint(lats[i], lons[i]))
  }

  /** Continuing from a vertex at longitude `lon`, the crossing count grows by
      the net crossings of the path through the added longitudes. */
  lemma {:induction false} CrossingsFollowPath(p: P.PolygonArea, m: AngleOps, c: P.Closing,
                                               lon: real, lats: seq<real>, lons: seq<real>)
    requires P.Valid(p) && p.num > 0 && p.lon1 == P.Val(m.normalize(lon))
    requires |lats| == |lons|
    ensures Run(p, m, c, AddPoints(lats, lons)).0.crossings == p.crossings + PathCrossings(m, [lon] + lons)
    decreases |lons|
  {
    if |lons| == 0 {
      assert AddPoints(lats, lons) == [];
    } else {
      var cmds := AddPoints(lats, lons);
      var q := P.AddPoint(p, m, lats[0], lons[0]);
      assert cmds[1..] == AddPoints(lats[1..], lons[1..]);
      assert Run(p, m, c, cmds).0 == Run(q, m, c, cmds[1..]).0;
      CrossingsFollowPath(q, m, c, lons[0], lats[1..], lons[1..]);
      assert ([lon] + lons)[1..] == [lons[0]] + lons[1..];
      assert [lons[0]] + lons[1..] == lons;
    }
  }

  /** From a new accumulator, the crossing count after adding the vertices
      is the net crossing count of the path through them. */
  lemma CrossingsOfPolygon(earth: Engine, polyline: bool, m: AngleOps, c: P.Closing,
                           lats: seq<real>, lons: seq<real>)
    requires |lats| == |lons|
    ensures Run(P.New(earth, polyline), m, c, AddPoints(lats, lons)).0.crossings == PathCrossings(m, lons)
  {
    var p := P.New(earth, polyline);
    if |lons| > 0 {
      var cmds := AddPoints(lats, lons);
      var q := P.AddPoint(p, m, lats[0], lons[0]);
      assert cmds[1..] == AddPoints(lats[1..], lons[1..]);
      assert Run(p, m, c, cmds).0 == Run(q, m, c, cmds[1..]).0;
      CrossingsFollowPath(q, m, c, lons[0], lats[1..], lons[1..]);
      assert [lons[0]] + lons[1..] == lons;
    }
  }

  /** Adding the same vertices in the opposite order gives the opposite
      crossing count. */
  lemma ReversedPolygonCrossings(earth: Engine, polyline: bool, m: AngleOps, c: P.Closing,
                                 lats: seq<real>, lons: seq<real>)
    requires |lats| == |lons|
    requires ReversibleAlong(m, lons)
    ensures Run(P.New(earth, polyline), m, c, AddPoints(Reverse(lats), Reverse(lons))).0.crossings
         == -Run(P.New(earth, polyline), m, c, AddPoints(lats, lons)).0.crossings
  {
    CrossingsOfPolygon(earth, polyline, m, c, lats, lons);
    CrossingsOfPolygon(earth, polyline, m, c, Reverse(lats), Reverse(lons));
    PathCrossingsReversed(m, lons);
  }
}
