/**
 * Defaults shared by the card and the slideshow: both components derive the
 * rating label and the title from a fetched item with the same expressions.
 */
module Display {
  import opened Js

  const UntitledLabel: string := "Untitled"
  const ZeroRating: string := "0.0"

  /**
   * `typeof v === "number" ? v.toFixed(1) : "0.0"`: anything that is not a
   * number (absent, null, a numeric string) shows as "0.0".
   */
  function SafeRating(voteAverage: Value): (r: string)
    ensures !voteAverage.Num? ==> r == ZeroRating
    ensures voteAverage.Num? ==> r == ToFixed1(voteAverage.n)
  {
    if TypeOf(voteAverage) == "number" then ToFixed1(voteAverage.n) else ZeroRating
  }

  /**
   * The fallback label cannot be told apart from a genuine rating of zero,
   * while a non-zero whole-number rating never shows as "0.0".
   */
  lemma SafeRatingZeroLabel(voteAverage: Value)
    ensures !voteAverage.Num? ==> SafeRating(voteAverage) == SafeRating(Num(Integral(0))) == ZeroRating
    ensures voteAverage.Num? && voteAverage.n.Integral? && voteAverage.n.value != 0 ==>
      SafeRating(voteAverage) != ZeroRating
  {
  }

  /** `title || "Untitled"`: never falsy, and the title itself whenever it is truthy. */
  function SafeTitle(title: Value): (r: Value)
    ensures Truthy(r)
    ensures Truthy(title) ==> r == title
    ensures !Truthy(title) ==> r == Str(UntitledLabel)
  {
    Or(title, Str(UntitledLabel))
  }
}
