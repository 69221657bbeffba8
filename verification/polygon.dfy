/** The state of a PolygonAreaT accumulator and its operations, as pure
    functions from state to state (the mutators) or from state to results (the
    const queries). Sums are exact reals: the double-word Accumulator is not
    modelled. */
module Polygon {
  import opened Angles
  import opened Geodesic
  import opened Crossing

  /** A stored coordinate: NaN before any vertex exists, otherwise a number. */
  datatype Coord = NaN | Val(v: real)

  datatype Option<T> = None | Some(value: T)

  /** The fields of PolygonAreaT. `areaRequested` is the AREA bit of the
      output mask handed to the engine. */
  datatype PolygonArea = PolygonArea(
    earth: Engine,
    area0: real,
    polyline: bool,
    areaRequested: bool,
    num: nat,
    crossings: int,
    areaSum: real,
    perimeterSum: real,
    lat0: Coord,
    lon0: Coord,
    lat1: Coord,
    lon1: Coord)

  /** What Compute, TestPoint and TestEdge hand back: the number of points,
      the perimeter, and the area, which is set only for a polygon. */
  datatype Report = Report(count: nat, perimeter: real, area: Option<real>)

  /** The closing-edge and area-reduction arithmetic of Compute for two or
      more points, which is not part of this model: any function of the
      committed state and the `reverse` and `sign` flags. `unanchoredPerimeter`
      and `unanchoredArea` are whatever TestEdge reports when there is no
      vertex to start the test edge from; those values are not modelled
      either. */
  datatype Closing = Closing(
    perimeter: (PolygonArea, bool, bool) -> real,
    area: (PolygonArea, bool, bool) -> real,
    unanchoredPerimeter: real,
    unanchoredArea: real)

  /** The fields fixed by the constructor agree with each other. */
  predicate Configured(p: PolygonArea) {
    && p.area0 == p.earth.ellipsoidArea
    && p.areaRequested == !p.polyline
  }

  /** Neither accumulator has seen a point: everything Clear resets is reset. */
  predicate Empty(p: PolygonArea) {
    && p.num == 0
    && p.crossings == 0
    && p.areaSum == 0.0
    && p.perimeterSum == 0.0
    && p.lat0 == NaN && p.lon0 == NaN
    && p.lat1 == NaN && p.lon1 == NaN
  }

  /** Two states share the engine, the cached ellipsoid area, the mode and the mask. */
  ghost predicate SameConfig(p: PolygonArea, q: PolygonArea) {
    && p.earth == q.earth
    && p.area0 == q.area0
    && p.polyline == q.polyline
    && p.areaRequested == q.areaRequested
  }

  /** The class invariant of every state reachable from the constructor. */
  predicate Valid(p: PolygonArea) {
    && Configured(p)
    && (p.num == 0 ==> Empty(p))
    && (p.num > 0 ==>
          && p.lat0.Val? && p.lon0.Val? && p.lat1.Val? && p.lon1.Val?
          && -(p.num - 1) <= p.crossings <= p.num - 1)
    && (p.num == 1 ==>
          && p.lat0 == p.lat1 && p.lon0 == p.lon1
          && p.areaSum == 0.0 && p.perimeterSum == 0.0)
    && (p.polyline ==> p.areaSum == 0.0)
  }

  /** The constructor: caches the ellipsoid area, requests area only for a
      polygon, and then clears. */
  function New(earth: Engine, polyline: bool): (p: PolygonArea)
    ensures p.earth == earth && p.polyline == polyline
    ensures p.area0 == earth.ellipsoidArea
    ensures p.areaRequested <==> !polyline
    ensures Empty(p)
    ensures Valid(p)
  {
    var unset := PolygonArea(earth, earth.ellipsoidArea, polyline, !polyline,
                             0, 0, 0.0, 0.0, NaN, NaN, NaN, NaN);
    Clear(unset)
  }

  /** Start a new polygon: forget every point and sum, keep the engine, the
      cached area, the mode and the mask. */
  function Clear(p: PolygonArea): (r: PolygonArea)
    ensures Empty(r)
    ensures SameConfig(p, r)
    ensures Configured(p) ==> Valid(r)
  {
    p.(num := 0, crossings := 0, areaSum := 0.0, perimeterSum := 0.0,
       lat0 := NaN, lon0 := NaN, lat1 := NaN, lon1 := NaN)
  }

  /** Add a vertex. The first one becomes both the first and the current
      vertex; each later one closes an edge from the current vertex. */
  function AddPoint(p: PolygonArea, m: AngleOps, lat: real, lon: real): (r: PolygonArea)
    requires Valid(p)
    ensures Valid(r)
    ensures SameConfig(p, r)
    ensures r.num == p.num + 1
    ensures r.lat1 == Val(lat) && r.lon1 == Val(m.normalize(lon))
    ensures p.num == 0 ==> r.lat0 == r.lat1 && r.lon0 == r.lon1
    ensures p.num > 0 ==> r.lat0 == p.lat0 && r.lon0 == p.lon0
    ensures p.num > 0 ==>
              r.crossings - p.crossings == Transit(m, p.lon1.v, m.normalize(lon))
    ensures p.num > 0 ==>
              r.perimeterSum - p.perimeterSum
              == p.earth.inverse(p.lat1.v, p.lon1.v, lat, m.normalize(lon), p.areaRequested).s12
    ensures p.num > 0 ==>
              r.areaSum - p.areaSum
              == if p.polyline then 0.0
                 else p.earth.inverse(p.lat1.v, p.lon1.v, lat, m.normalize(lon), p.areaRequested).S12
    ensures p.num == 0 ==>
              r.crossings == p.crossings && r.areaSum == p.areaSum && r.perimeterSum == p.perimeterSum
  {
    var nlon := m.normalize(lon);
    if p.num == 0 then
      p.(num := 1, lat0 := Val(lat), lon0 := Val(nlon), lat1 := Val(lat), lon1 := Val(nlon))
    else
      var edge := p.earth.inverse(p.lat1.v, p.lon1.v, lat, nlon, p.areaRequested);
      p.(num := p.num + 1,
         perimeterSum := p.perimeterSum + edge.s12,
         areaSum := if p.polyline then p.areaSum else p.areaSum + edge.S12,
         crossings := p.crossings + Transit(m, p.lon1.v, nlon),
         lat1 := Val(lat), lon1 := Val(nlon))
  }

  /** Add an edge of azimuth `azi` and length `s` from the current vertex.
      Before the first point there is no current vertex and nothing happens. */
  function AddEdge(p: PolygonArea, m: AngleOps, azi: real, s: real): (r: PolygonArea)
    requires Valid(p)
    ensures Valid(r)
    ensures SameConfig(p, r)
    ensures p.num == 0 ==> r == p
    ensures p.num > 0 ==> r.num == p.num + 1
    ensures p.num > 0 ==> r.lat0 == p.lat0 && r.lon0 == p.lon0
    ensures p.num > 0 ==>
              var dest := p.earth.direct(p.lat1.v, p.lon1.v, azi, s, p.areaRequested);
              r.lat1 == Val(dest.lat2) && r.lon1 == Val(dest.lon2)
    ensures p.num > 0 ==> r.perimeterSum - p.perimeterSum == s
    ensures p.num > 0 ==>
              var dest := p.earth.direct(p.lat1.v, p.lon1.v, azi, s, p.areaRequested);
              && r.crossings - p.crossings == Transit(m, p.lon1.v, dest.lon2)
              && r.areaSum - p.areaSum == if p.polyline then 0.0 else dest.S12
  {
    if p.num == 0 then p
    else
      var dest := p.earth.direct(p.lat1.v, p.lon1.v, azi, s, p.areaRequested);
      p.(num := p.num + 1,
         perimeterSum := p.perimeterSum + s,
         areaSum := if p.polyline then p.areaSum else p.areaSum + dest.S12,
         crossings := p.crossings + Transit(m, p.lon1.v, dest.lon2),
         lat1 := Val(dest.lat2), lon1 := Val(dest.lon2))
  }

  /** The results so far, treating the points as a closed polygon, or as an
      open polyline whose perimeter is its accumulated length. Fewer than two
      points give a zero perimeter and area. */
  function Compute(p: PolygonArea, c: Closing, reverse: bool, sign: bool): (r: Report)
    ensures r.count == p.num
    ensures r.area.Some? <==> !p.polyline
    ensures p.num < 2 ==> r.perimeter == 0.0 && r.area in {None, Some(0.0)}
    ensures p.polyline && p.num >= 2 ==> r.perimeter == p.perimeterSum
  {
    if p.num < 2 then
      Report(p.num, 0.0, if p.polyline then None else Some(0.0))
    else if p.polyline then
      Report(p.num, p.perimeterSum, None)
    else
      Report(p.num, c.perimeter(p, reverse, sign), Some(c.area(p, reverse, sign)))
  }

  /** For a polyline, the length TestEdge reports is the committed length plus
      the test edge's length. */
  lemma TestEdgePolylineLength(p: PolygonArea, m: AngleOps, c: Closing, azi: real, s: real,
                               reverse: bool, sign: bool)
    requires Valid(p) && p.polyline && p.num > 0
    ensures TestEdge(p, m, c, azi, s, reverse, sign).perimeter == p.perimeterSum + s
  {
  }

  /** The results as if a test vertex were added, without saving it. */
  function TestPoint(p: PolygonArea, m: AngleOps, c: Closing, lat: real, lon: real,
                     reverse: bool, sign: bool): (r: Report)
    requires Valid(p)
    ensures r.count == p.num + 1
    ensures r.area.Some? <==> !p.polyline
    ensures r == Compute(AddPoint(p, m, lat, lon), c, reverse, sign)
  {
    Compute(AddPoint(p, m, lat, lon), c, reverse, sign)
  }

  /** The results as if a test edge were added, without saving it. Before
      the first point the edge has no start, so no point is counted and the
      perimeter and area are left to the opaque `Closing`. */
  function TestEdge(p: PolygonArea, m: AngleOps, c: Closing, azi: real, s: real,
                    reverse: bool, sign: bool): (r: Report)
    requires Valid(p)
    ensures r.count == if p.num == 0 then 0 else p.num + 1
    ensures r.area.Some? <==> !p.polyline
    ensures p.num > 0 ==> r == Compute(AddEdge(p, m, azi, s), c, reverse, sign)
  {
    if p.num == 0 then
      Report(0, c.unanchoredPerimeter, if p.polyline then None else Some(c.unanchoredArea))
    else
      Compute(AddEdge(p, m, azi, s), c, reverse, sign)
  }

  /** The deprecated old name of TestPoint. */
  function TestCompute(p: PolygonArea, m: AngleOps, c: Closing, lat: real, lon: real,
                       reverse: bool, sign: bool): (r: Report)
    requires Valid(p)
    ensures r.count == p.num + 1
    ensures r.area.Some? <==> !p.polyline
    ensures r == TestPoint(p, m, c, lat, lon, reverse, sign)
  {
    TestPoint(p, m, c, lat, lon, reverse, sign)
  }

  /** The current (most recently added) vertex, NaNs when there is none. */
  function CurrentPoint(p: PolygonArea): (r: (Coord, Coord))
    ensures r == (p.lat1, p.lon1)
    ensures Valid(p) ==> (r.0 == NaN <==> p.num == 0) && (r.1 == NaN <==> p.num == 0)
  {
    (p.lat1, p.lon1)
  }

  /** The equatorial radius of the engine's ellipsoid; the accumulator keeps
      no radius of its own. */
  function MajorRadius(p: PolygonArea): (a: real)
    ensures a == p.earth.majorRadius
  {
    p.earth.majorRadius
  }

  /** The flattening of the engine's ellipsoid; the accumulator keeps no
      flattening of its own. */
  function Flattening(p: PolygonArea): (f: real)
    ensures f == p.earth.flattening
  {
    p.earth.flattening
  }

  /** A new accumulator reports the radius and flattening of the engine it
      was constructed with. */
  lemma InspectorsOfNew(earth: Engine, polyline: bool)
    ensures MajorRadius(New(earth, polyline)) == earth.majorRadius
    ensures Flattening(New(earth, polyline)) == earth.flattening
  {
  }

  /** A freshly constructed accumulator is exactly a cleared one. */
  lemma NewIsCleared(p: PolygonArea)
    requires Configured(p)
    ensures New(p.earth, p.polyline) == Clear(p)
  {
  }

  /** Clearing twice is clearing once. */
  lemma ClearIdempotent(p: PolygonArea)
    ensures Clear(Clear(p)) == Clear(p)
  {
  }

  /** After Clear, and before any point is added, the current point is a NaN pair. */
  lemma CurrentPointWhenEmpty(p: PolygonArea, earth: Engine, polyline: bool)
    ensures CurrentPoint(Clear(p)) == (NaN, NaN)
    ensures CurrentPoint(New(earth, polyline)) == (NaN, NaN)
  {
  }

  /** The new vertex reported by CurrentPoint after AddPoint is the given one. */
  lemma CurrentPointAfterAddPoint(p: PolygonArea, m: AngleOps, lat: real, lon: real)
    requires Valid(p)
    ensures CurrentPoint(AddPoint(p, m, lat, lon)) == (Val(lat), Val(m.normalize(lon)))
  {
  }

  /** CurrentPoint tells where AddEdge put the new vertex. */
  lemma CurrentPointAfterAddEdge(p: PolygonArea, m: AngleOps, azi: real, s: real)
    requires Valid(p) && p.num > 0
    ensures var dest := p.earth.direct(p.lat1.v, p.lon1.v, azi, s, p.areaRequested);
            CurrentPoint(AddEdge(p, m, azi, s)) == (Val(dest.lat2), Val(dest.lon2))
  {
  }
}
