/** The geodesic engine (Geodesic or GeodesicExact) the accumulator is
    parameterised by. Solving the direct and inverse problems is outside this
    model: the engine is an opaque value carrying its solvers and constants. */
module Geodesic {

  /** Distance `s12` and area contribution `S12` of the geodesic between two points. */
  datatype InverseSolution = InverseSolution(s12: real, S12: real)

  /** End point (`lat2`, `lon2`) and area contribution `S12` of the geodesic
      leaving a point with a given azimuth and length. */
  datatype DirectSolution = DirectSolution(lat2: real, lon2: real, S12: real)

  /** `inverse(lat1, lon1, lat2, lon2, wantArea)` and
      `direct(lat1, lon1, azi, s, wantArea)`; the flag is the AREA bit of the
      output mask the accumulator passes on. */
  datatype Engine = Engine(
    majorRadius: real,
    flattening: real,
    ellipsoidArea: real,
    inverse: (real, real, real, real, bool) -> InverseSolution,
    direct: (real, real, real, real, bool) -> DirectSolution)
}
