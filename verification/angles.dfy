/** The two angle helpers of the library's Math namespace that the polygon
    accumulator relies on. Their definitions are not part of this model, so
    they are carried as opaque functions: every property proved about them
    holds for any AngNormalize and AngDiff that meet the hypotheses the
    property states, such as the two predicates below. */
module Angles {

  /** `normalize` is Math::AngNormalize (reduce a longitude to the canonical
      range); `diff(x, y)` is Math::AngDiff, the signed angle from x to y. */
  datatype AngleOps = AngleOps(normalize: real -> real, diff: (real, real) -> real)

  /** AngNormalize leaves an already normalised angle alone. */
  ghost predicate NormalizeFixes(m: AngleOps, x: real) {
    m.normalize(m.normalize(x)) == m.normalize(x)
  }

  /** AngDiff gives opposite answers when its arguments are swapped. */
  ghost predicate DiffAntisymmetric(m: AngleOps, x: real, y: real) {
    m.diff(y, x) == -m.diff(x, y)
  }
}
