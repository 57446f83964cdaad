/** The show card: the rating text, its colour band, the star fill, and the poster source. The
    number `parseFloat` reads from the rating is a parameter. */
module ShowCard {

  const MISSING := "N/A"
  const ZERO_RATING := "0.0"
  const NO_RATING := "-"
  const PLACEHOLDER_POSTER := "https://placehold.co/300x450?text=No+Image"

  /** What `parseFloat` yields: a number, or `NaN`, which every comparison rejects. */
  datatype Parsed = Number(value: real) | NotANumber

  datatype Color = Green | Yellow | Orange | Gray

  /** The CSS class of a colour band. */
  function ColorClass(c: Color): string {
    match c
    case Green => "text-green-400"
    case Yellow => "text-yellow-400"
    case Orange => "text-orange-400"
    case Gray => "text-gray-400"
  }

  /** `formattedRating`: a missing rating counts as zero. */
  function FormattedRating(rating: string): (f: string)
    ensures rating == MISSING ==> f == ZERO_RATING
    ensures rating != MISSING ==> f == rating
  {
    if rating == MISSING then ZERO_RATING else rating
  }

  /** `displayRating`: a dash for a zero rating. */
  function DisplayRating(rating: string): string {
    var formatted := FormattedRating(rating);
    if formatted == ZERO_RATING then NO_RATING else formatted
  }

  /** A missing or zero rating shows as a dash; any other rating shows as given (so the dash
      also shows for a rating that is itself a dash). */
  lemma DisplayRatingCases(rating: string)
    ensures DisplayRating(rating) == NO_RATING <==> rating == MISSING || rating == ZERO_RATING || rating == NO_RATING
    ensures rating != MISSING && rating != ZERO_RATING ==> DisplayRating(rating) == rating
  {
  }

  predicate Above(p: Parsed, bound: real) {
    p.Number? && p.value >= bound
  }

  predicate Positive(p: Parsed) {
    p.Number? && p.value > 0.0
  }

  /** `ratingColor`: eight and up green, six and up yellow, above zero orange, else gray. */
  function RatingColor(p: Parsed): Color {
    if Above(p, 8.0) then Green
    else if Above(p, 6.0) then Yellow
    else if Positive(p) then Orange
    else Gray
  }

  /** The four bands split the values between them: each value is in exactly the band its
      range names. */
  lemma ColorBands(p: Parsed)
    ensures RatingColor(p) == Green <==> p.Number? && p.value >= 8.0
    ensures RatingColor(p) == Yellow <==> p.Number? && 6.0 <= p.value < 8.0
    ensures RatingColor(p) == Orange <==> p.Number? && 0.0 < p.value < 6.0
    ensures RatingColor(p) == Gray <==> p.NotANumber? || p.value <= 0.0
  {
  }

  function Rank(c: Color): nat {
    match c
    case Gray => 0
    case Orange => 1
    case Yellow => 2
    case Green => 3
  }

  /** A higher rating never gets a lower band. */
  lemma ColorMonotone(a: real, b: real)
    requires a <= b
    ensures Rank(RatingColor(Number(a))) <= Rank(RatingColor(Number(b)))
  {
  }

  /** The star is filled for a positive value, which is exactly when the band is not gray. */
  function StarFilled(p: Parsed): (filled: bool)
    ensures filled <==> RatingColor(p) != Gray
  {
    Positive(p)
  }

  datatype RatingView = RatingView(text: string, color: Color, filled: bool)

  /** The rating part of the card, with `parsed` the value `parseFloat` reads from the
      formatted rating; on `"0.0"` it reads zero. */
  function RatingOf(rating: string, parsed: Parsed): (v: RatingView)
    requires FormattedRating(rating) == ZERO_RATING ==> parsed == Number(0.0)
    ensures rating == MISSING || rating == ZERO_RATING ==> v == RatingView(NO_RATING, Gray, false)
    ensures rating != MISSING && rating != ZERO_RATING ==> v.text == rating && v.color == RatingColor(parsed)
    ensures v.filled <==> v.color != Gray
  {
    RatingView(DisplayRating(rating), RatingColor(parsed), StarFilled(parsed))
  }

  /** The poster: the image, or the placeholder when the provider has none. */
  function PosterSrc(image: string): (src: string)
    ensures src != MISSING
    ensures image != MISSING ==> src == image
    ensures image == MISSING ==> src == PLACEHOLDER_POSTER
  {
    if image != MISSING then image else PLACEHOLDER_POSTER
  }
}
