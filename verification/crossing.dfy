/** The prime-meridian crossing classifier `transit` of PolygonAreaT. Summed
    over the edges of a polygon it gives the net number of times the boundary
    winds across the prime meridian, which decides which of the two regions
    the boundary separates is the polygon. */
module Crossing {
  import opened Angles

  /** The side of the prime meridian a normalised longitude lies on; the
      meridian itself belongs to the east side. */
  datatype Side = West | East

  function SideOf(lon: real): Side {
    if lon < 0.0 then West else East
  }

  /** The sense of travel given by a signed longitude difference. */
  datatype Heading = Eastward | Westward | Stationary

  function HeadingOf(lon12: real): Heading {
    if lon12 > 0.0 then Eastward else if lon12 < 0.0 then Westward else Stationary
  }

  /** Reference classification of one edge: a crossing counts only when the
      edge changes side AND travels in the direction of that change. */
  function Classify(from: Side, to: Side, h: Heading): int {
    match (from, to, h)
    case (West, East, Eastward) => 1
    case (East, West, Westward) => -1
    case _ => 0
  }

  /** +1 for an eastward crossing of the prime meridian from lon1 to lon2,
      -1 for a westward one, 0 otherwise. The difference is taken between the
      normalised longitudes, as the inverse geodesic solver does. */
  function Transit(m: AngleOps, lon1: real, lon2: real): (cross: int)
    ensures -1 <= cross <= 1
    ensures cross != 0 ==> SideOf(m.normalize(lon1)) != SideOf(m.normalize(lon2))
    ensures cross != 0 ==> cross as real * m.diff(m.normalize(lon1), m.normalize(lon2)) > 0.0
  {
    var n1 := m.normalize(lon1);
    var n2 := m.normalize(lon2);
    var lon12 := m.diff(n1, n2);
    if n1 < 0.0 && n2 >= 0.0 && lon12 > 0.0 then 1
    else if n2 < 0.0 && n1 >= 0.0 && lon12 < 0.0 then -1
    else 0
  }

  /** The classifier agrees with the side/heading table. */
  lemma TransitIsClassify(m: AngleOps, lon1: real, lon2: real)
    ensures Transit(m, lon1, lon2)
         == Classify(SideOf(m.normalize(lon1)), SideOf(m.normalize(lon2)),
                     HeadingOf(m.diff(m.normalize(lon1), m.normalize(lon2))))
  {
  }

  /** Exactly when each of the three answers is given. */
  lemma TransitCases(m: AngleOps, lon1: real, lon2: real)
    ensures var n1, n2 := m.normalize(lon1), m.normalize(lon2);
            var lon12 := m.diff(n1, n2);
            && (Transit(m, lon1, lon2) == 1 <==> n1 < 0.0 && n2 >= 0.0 && lon12 > 0.0)
            && (Transit(m, lon1, lon2) == -1 <==> n2 < 0.0 && n1 >= 0.0 && lon12 < 0.0)
            && (Transit(m, lon1, lon2) == 0 <==>
                  !(n1 < 0.0 && n2 >= 0.0 && lon12 > 0.0) && !(n2 < 0.0 && n1 >= 0.0 && lon12 < 0.0))
  {
  }

  /** An edge that stays on one side of the prime meridian never crosses it. */
  lemma TransitSameSide(m: AngleOps, lon1: real, lon2: real)
    requires SideOf(m.normalize(lon1)) == SideOf(m.normalize(lon2))
    ensures Transit(m, lon1, lon2) == 0
  {
  }

  /** A degenerate edge from a longitude to itself never crosses. */
  lemma TransitSelf(m: AngleOps, lon: real)
    ensures Transit(m, lon, lon) == 0
  {
  }

  /** Only the normalised longitudes matter. */
  lemma TransitUsesNormalizedOnly(m: AngleOps, lon1: real, lon2: real, lon1': real, lon2': real)
    requires m.normalize(lon1) == m.normalize(lon1') && m.normalize(lon2) == m.normalize(lon2')
    ensures Transit(m, lon1, lon2) == Transit(m, lon1', lon2')
  {
  }

  /** Normalising the inputs first changes nothing, provided normalising is idempotent. */
  lemma TransitOfNormalized(m: AngleOps, lon1: real, lon2: real)
    requires NormalizeFixes(m, lon1) && NormalizeFixes(m, lon2)
    ensures Transit(m, m.normalize(lon1), m.normalize(lon2)) == Transit(m, lon1, lon2)
  {
  }

  /** Traversing an edge backwards reverses its crossing, whenever AngDiff is
      antisymmetric on the two normalised longitudes. */
  lemma TransitReversed(m: AngleOps, lon1: real, lon2: real)
    requires DiffAntisymmetric(m, m.normalize(lon1), m.normalize(lon2))
    ensures Transit(m, lon2, lon1) == -Transit(m, lon1, lon2)
  {
  }

  /** Net crossings along a path through the given longitudes. Each edge is
      classified between the normalised longitudes of its ends, which is how
      the accumulator stores its vertices. */
  function PathCrossings(m: AngleOps, lons: seq<real>): (w: int)
    ensures |lons| <= 1 ==> w == 0
    ensures |lons| > 1 ==> -(|lons| - 1) <= w <= |lons| - 1
    decreases |lons|
  {
    if |lons| < 2 then 0
    else Transit(m, m.normalize(lons[0]), m.normalize(lons[1])) + PathCrossings(m, lons[1..])
  }

  function Reverse<T>(s: seq<T>): (r: seq<T>)
    ensures |r| == |s|
    ensures forall i :: 0 <= i < |s| ==> r[i] == s[|s| - 1 - i]
    decreases |s|
  {
    if |s| == 0 then [] else Reverse(s[1..]) + [s[0]]
  }

  /** AngDiff is antisymmetric on the ends of every edge of the path, as the
      classifier sees them. */
  ghost predicate ReversibleAlong(m: AngleOps, lons: seq<real>)
    decreases |lons|
  {
    |lons| < 2 ||
    (&& DiffAntisymmetric(m, m.normalize(m.normalize(lons[0])), m.normalize(m.normalize(lons[1])))
     && ReversibleAlong(m, lons[1..]))
  }

  /** Extending a path by one vertex adds the crossing of the new edge. */
  lemma {:induction false} PathCrossingsSnoc(m: AngleOps, lons: seq<real>, lon: real)
    requires |lons| > 0
    ensures PathCrossings(m, lons + [lon])
         == PathCrossings(m, lons) + Transit(m, m.normalize(lons[|lons| - 1]), m.normalize(lon))
    decreases |lons|
  {
    if |lons| > 1 {
      assert (lons + [lon])[1..] == lons[1..] + [lon];
      PathCrossingsSnoc(m, lons[1..], lon);
    }
  }

  /** Traversing a path backwards negates its net crossing count. */
  lemma {:induction false} PathCrossingsReversed(m: AngleOps, lons: seq<real>)
    requires ReversibleAlong(m, lons)
    ensures PathCrossings(m, Reverse(lons)) == -PathCrossings(m, lons)
    decreases |lons|
  {
    if |lons| >= 2 {
      var tail := Reverse(lons[1..]);
      assert Reverse(lons) == tail + [lons[0]];
      assert tail[|tail| - 1] == lons[1];
      PathCrossingsSnoc(m, tail, lons[0]);
      PathCrossingsReversed(m, lons[1..]);
      TransitReversed(m, m.normalize(lons[0]), m.normalize(lons[1]));
    }
  }
}
