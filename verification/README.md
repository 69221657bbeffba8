# PolygonArea accumulator model

A Dafny model of the discrete skeleton of GeographicLib's `PolygonAreaT`, the
class that accumulates the perimeter and area of a polygon (or the length of a
polyline) whose edges are geodesics on an ellipsoid, by the method of section 6
of Karney, "Algorithms for geodesics" (J. Geodesy 87, 2013).

The accumulator is an immutable record (`Polygon.PolygonArea`) with the fields
of the C++ class: the geodesic engine, the cached ellipsoid area `area0`, the
`polyline` flag, the AREA bit of the output mask (`areaRequested`), the point
count `num`, the signed meridian-crossing count `crossings`, the two sums as
exact reals, and the first and current vertex as `Coord = NaN | Val(real)`.
The mutators (`Clear`, `AddPoint`, `AddEdge`) are functions from state to
state; the `const` queries (`Compute`, `TestPoint`, `TestEdge`, `TestCompute`,
`CurrentPoint`) return results only.

Files:

- `angles.dfy` (`Angles`): `Math::AngNormalize` and `Math::AngDiff`, carried as
  opaque function values, so every result holds for any AngNormalize and
  AngDiff that meet the hypotheses its lemma states (AngDiff antisymmetric on
  an edge for the reversal results, AngNormalize idempotent for
  TransitOfNormalized); the other results assume nothing about them.
- `geodesic.dfy` (`Geodesic`): the geodesic engine as an opaque value with its
  inverse and direct solvers and its ellipsoid constants.
- `crossing.dfy` (`Crossing`): the `transit` classifier, a reference
  side/heading table, its properties, and the net crossing count along a
  path of vertices.
- `polygon.dfy` (`Polygon`): state, class invariant `Valid`, constructor and
  operations.
- `session.dfy` (`Session`): a sequence of calls on one accumulator, used to
  state that queries are invisible to everything that follows them.

`Valid` is the class invariant: the constructor's fields agree, no points means
all four coordinates NaN and all counters zero, points present means all four
coordinates are numbers and `|crossings| <= num - 1`, one point means the first
and current vertex coincide with zero sums, and a polyline never has area. The
mutators that read the current vertex require it; it holds of every state the
constructor and the mutators produce.

## Model

| member | source | states |
|---|---|---|
| Crossing.Transit | include/GeographicLib/PolygonArea.hpp:73-84 | the result is -1, 0 or +1; it is nonzero only when the normalised longitudes lie on opposite sides of the prime meridian, and then its sign is the sign of the longitude difference |
| Crossing.TransitIsClassify | include/GeographicLib/PolygonArea.hpp:74-82 | the classifier equals a table over (side of start, side of end, heading): +1 only for west-to-east travelling east, -1 only for east-to-west travelling west |
| Crossing.TransitCases | include/GeographicLib/PolygonArea.hpp:80-82 | +1 exactly when normalised lon1 < 0, lon2 >= 0 and lon12 > 0; -1 exactly when lon2 < 0, lon1 >= 0 and lon12 < 0; 0 exactly when neither holds |
| Crossing.TransitSameSide | include/GeographicLib/PolygonArea.hpp:77-82 | an edge whose normalised ends lie on the same side of the prime meridian never counts as a crossing |
| Crossing.TransitSelf | include/GeographicLib/PolygonArea.hpp:77-82 | an edge from a longitude to itself never counts as a crossing |
| Crossing.TransitUsesNormalizedOnly | include/GeographicLib/PolygonArea.hpp:77-79 | inputs with equal normalisations get equal answers |
| Crossing.TransitOfNormalized | include/GeographicLib/PolygonArea.hpp:77-79 | normalising the inputs beforehand changes nothing when normalising is idempotent |
| Crossing.TransitReversed | include/GeographicLib/PolygonArea.hpp:73-82 | traversing an edge backwards negates its crossing, whenever the angle difference is antisymmetric on its ends |
| Crossing.PathCrossings | include/GeographicLib/PolygonArea.hpp:70-84 | the net crossing count along a path of n vertices lies between -(n-1) and n-1, and is zero for fewer than two vertices |
| Crossing.PathCrossingsReversed | include/GeographicLib/PolygonArea.hpp:73-84 | traversing a path backwards negates its net crossing count, whenever the angle difference is antisymmetric on every edge |
| Polygon.New | include/GeographicLib/PolygonArea.hpp:94-100 | a new accumulator keeps the engine and mode, caches the engine's ellipsoid area, requests area iff it is not a polyline, is empty and satisfies the class invariant |
| Polygon.Clear | include/GeographicLib/PolygonArea.hpp:105-111 | count, crossings and both sums become zero and all four coordinates NaN, while engine, cached area, mode and mask are kept; the invariant is restored |
| Polygon.NewIsCleared | include/GeographicLib/PolygonArea.hpp:94-111 | the constructed state is exactly the state Clear produces from any state with that engine and mode whose cached area and mask agree with them |
| Polygon.ClearIdempotent | include/GeographicLib/PolygonArea.hpp:105-111 | clearing twice is clearing once |
| Polygon.AddPoint | include/GeographicLib/PolygonArea.hpp:113-122 | one more point; the given point (longitude normalised) becomes current; the first point also becomes the first vertex, later points keep it; the crossing count moves by the edge's transit, the perimeter by the engine's edge length, and the area sum by the engine's area contribution for a polygon only; the first point leaves counters and sums alone; the invariant is kept |
| Polygon.AddEdge | include/GeographicLib/PolygonArea.hpp:124-134 | before the first point the state is returned unchanged; otherwise one more point, first vertex kept, the engine's end point becomes current, the perimeter grows by the edge length, the crossing count moves by the transit from the old to the new current longitude, and the area sum grows by the engine's area contribution for a polygon only |
| Polygon.Compute | include/GeographicLib/PolygonArea.hpp:136-151 | returns the number of points; an area is reported iff the accumulator is not a polyline; a polyline (not closed) reports its accumulated length as perimeter; with fewer than two points perimeter and area are zero |
| Polygon.TestEdgePolylineLength | include/GeographicLib/PolygonArea.hpp:182-202 | for a polyline with a point, TestEdge reports the committed length plus the test edge's length |
| Polygon.TestPoint | include/GeographicLib/PolygonArea.hpp:153-180 | reports one more point than committed, an area iff not a polyline, and exactly what committing the point and computing would report |
| Polygon.TestEdge | include/GeographicLib/PolygonArea.hpp:182-208 | reports an area iff not a polyline; once a point exists, one more point than committed and exactly what committing the edge and computing would report; before the first point the edge has no start and no point is counted |
| Polygon.TestCompute | include/GeographicLib/PolygonArea.hpp:210-219 | the deprecated name gives the same report as TestPoint, with one more point than committed |
| Polygon.MajorRadius | include/GeographicLib/PolygonArea.hpp:224-229 | the equatorial radius is the engine's; the accumulator holds no radius of its own |
| Polygon.Flattening | include/GeographicLib/PolygonArea.hpp:231-235 | the flattening is the engine's; the accumulator holds no flattening of its own |
| Polygon.InspectorsOfNew | include/GeographicLib/PolygonArea.hpp:224-235 | a new accumulator reports the radius and flattening of the engine given to the constructor |
| Polygon.CurrentPoint | include/GeographicLib/PolygonArea.hpp:237-247 | returns the stored current vertex verbatim; for a valid state both coordinates are NaN iff no point has been added (with every input and engine result a finite real) |
| Polygon.CurrentPointWhenEmpty | include/GeographicLib/PolygonArea.hpp:243-247 | after Clear and after construction the current point is a NaN pair |
| Polygon.CurrentPointAfterAddPoint | include/GeographicLib/PolygonArea.hpp:237-247 | after AddPoint the current point is the added point with its longitude normalised |
| Polygon.CurrentPointAfterAddEdge | include/GeographicLib/PolygonArea.hpp:130-132 | after AddEdge on a non-empty accumulator the current point is where the engine says the edge ends |
| Session.Step | include/GeographicLib/PolygonArea.hpp:150-208 | every call keeps the class invariant and the configuration; a const query leaves the state as it was, a mutator returns nothing |
| Session.Run | include/GeographicLib/PolygonArea.hpp:63-72 | any sequence of calls keeps the class invariant and the configuration, with one reply per call |
| Session.QueryIsInvisible | include/GeographicLib/PolygonArea.hpp:153-156 | inserting a query anywhere changes neither the final state nor the reply of any other call |
| Session.OnlyMutatorsMatter | include/GeographicLib/PolygonArea.hpp:150-208 | the final state of a session is the final state of its mutators alone |
| Session.NumIsPointCount | include/GeographicLib/PolygonArea.hpp:124-148 | the number of points held (which Compute returns) equals a reference count: AddPoint adds one, AddEdge adds one only after a first point, Clear resets, queries add nothing |
| Session.ClearEndsSession | include/GeographicLib/PolygonArea.hpp:102-111 | whatever calls a new accumulator has seen, Clear brings it back to the newly constructed state |
| Session.InspectorsAreStable | include/GeographicLib/PolygonArea.hpp:221-235 | major radius, flattening and cached ellipsoid area are the same after any sequence of calls (a consequence of the configuration Run keeps) |
| Session.ComputeIsRepeatable | include/GeographicLib/PolygonArea.hpp:150-151 | two Compute calls in a row with the same flags give the same result (the two-call instance of QueryIsInvisible) |
| Session.CrossingsFollowPath | include/GeographicLib/PolygonArea.hpp:70-84 | adding vertices after a current vertex grows the crossing count by the net crossings of the path from that vertex through the new ones |
| Session.CrossingsOfPolygon | include/GeographicLib/PolygonArea.hpp:70-84 | after adding vertices to a new accumulator, the crossing count is the net crossing count of the path through them |
| Session.ReversedPolygonCrossings | include/GeographicLib/PolygonArea.hpp:70-84 | adding the same vertices in the opposite order gives the opposite crossing count, whenever the angle difference is antisymmetric on every edge |
| Session.TestPointIsNotSaved | include/GeographicLib/PolygonArea.hpp:153-156 | the current point after TestPoint is the current point before it (an instance of QueryIsInvisible) |

## Left out

- The geodesic engine (`Geodesic`, `GeodesicExact`: inverse and direct solvers, `EllipsoidArea`, `MajorRadius`, `Flattening`): series numerics in files that are not part of this model; it is an opaque value, and no property depends on what it computes.
- `Accumulator<>` double-word summation: the sums are exact reals, so no accuracy property is claimed, and the difference between TestPoint's plain arithmetic and the compensated sums disappears.
- The definitions of `Math::AngNormalize`, `Math::AngDiff` and `Math::NaN`: not part of this model; the angle helpers are opaque functions and NaN is the `Coord.NaN` constructor.
- Polygon.New: the constructor's default argument `polyline = false` is not modelled; the mode is always passed explicitly.
- Polygon.AddPoint: the body lives in PolygonArea.cpp, which is not part of this model, and its documentation gives only the input ranges. The model assumes one engine inverse solve per edge, the area contribution added only for a polygon, the crossing count moved by `transit`, and the longitude stored as AngNormalize of the given one; only that last choice rests on documentation (the range CurrentPoint reports). The crossing count is also updated in polyline mode, which nothing observes.
- Polygon.AddEdge: the body lives in PolygonArea.cpp, which is not part of this model; beyond the documented no-op before the first point, the model assumes one engine direct solve from the current vertex, the given length added to the perimeter, and the engine's end point stored as returned.
- Polygon.Compute: for a polygon of two or more points, the closing edge and the reduction of the area modulo `area0` (with the `reverse` and `sign` handling) are in PolygonArea.cpp, not part of this model; they are an opaque `Closing` parameter, so for a polygon the contract states only the count and that an area is reported. A polyline is not closed and its perimeter is stated exactly. The zero report for fewer than two points is assumed; the header does not state what Compute reports then.
- Polygon.TestPoint: stated weaker than the source only in that its perimeter and area come from the same opaque `Closing` as Compute; with no points it inherits Compute's assumed zero report for one point.
- Polygon.TestEdge: its perimeter and area come from the same opaque `Closing` as Compute; before the first point they are the opaque `unanchoredPerimeter` and `unanchoredArea` of `Closing`, because the header does not state them, and the count 0 is taken from AddEdge doing nothing then.
- Polygon.CurrentPoint: the documented range [-180, 180) of the reported longitude is not stated, for two reasons: AngNormalize is opaque, so AddPoint's stored longitude has no known range, and AddEdge stores the engine's end longitude as returned, whose range the opaque engine does not promise. CurrentPointAfterAddPoint states instead that the longitude is AngNormalize of the given one.
- Polygon.CurrentPoint: every coordinate, azimuth, distance and engine result is a finite real, so NaN and infinite arguments are not modelled; in the library an AddEdge with a NaN distance stores NaN coordinates while points exist, which the model's "NaN only when no point has been added" direction does not cover.
- The unsigned 32-bit wrap-around of the point count after 2^32 additions: `num` is an unbounded natural.
- The LATITUDE, LONGITUDE and DISTANCE bits of the output mask: always set, so only the AREA bit is modelled.
- Template polymorphism over `GeodType` and the `PolygonArea` / `PolygonAreaExact` typedefs: the engine is a single opaque datatype.
- The Planimeter command-line tool and thread safety: outside the accumulator.
