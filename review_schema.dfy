/**
  The stored review record and the constraints its schema declares: required
  fields, the trimmed product name, the minimum text length, the sentiment
  enumeration, the score and rating bounds, and the defaults.
 */
module ReviewSchema {
  import opened Wrappers
  import opened Sentiment

  /** The owner's id, compared as a string by the controller. */
  type UserId = string

  /** One stored review; timestamps and the document id belong to the store. */
  datatype Review = Review(
    userId: UserId,
    productName: string,
    reviewText: string,
    sentiment: Label,
    score: real,
    rating: real)

  const MinTextLength: nat := 10
  const MinRating: real := 1.0
  const MaxRating: real := 5.0
  const DefaultSentiment: Label := Neutral
  const DefaultScore: real := 0.0

  /** The rating bounds, `min: 1` and `max: 5`. */
  predicate RatingInRange(rating: real) {
    MinRating <= rating <= MaxRating
  }

  /** The schema's constraints on a stored review. */
  predicate Valid(r: Review)
    ensures Valid(r) ==> r.productName != "" && r.reviewText != "" && r.rating != 0.0
  {
    && r.userId != ""
    && r.productName != [] && IsTrimmed(r.productName)
    && |r.reviewText| >= MinTextLength
    && InUnitRange(r.score)
    && RatingInRange(r.rating)
  }

  // ---- The `trim` setter on productName ----

  /** The characters JavaScript's `String.prototype.trim` removes: white space and line terminators. */
  predicate IsWhitespace(c: char) {
    || c == '\U{0009}' || c == '\U{000B}' || c == '\U{000C}' || c == '\U{0020}' || c == '\U{00A0}'
    || c == '\U{FEFF}' || c == '\U{1680}' || ('\U{2000}' <= c <= '\U{200A}') || c == '\U{202F}'
    || c == '\U{205F}' || c == '\U{3000}'
    || c == '\U{000A}' || c == '\U{000D}' || c == '\U{2028}' || c == '\U{2029}'
  }

  predicate IsTrimmed(s: string) {
    s == [] || (!IsWhitespace(s[0]) && !IsWhitespace(s[|s| - 1]))
  }

  predicate IsBlank(s: string) {
    forall i :: 0 <= i < |s| ==> IsWhitespace(s[i])
  }

  /** `t` is the slice of `s` starting at `k`, and everything of `s` around it is white space. */
  ghost predicate StripsTo(s: string, t: string, k: int) {
    && 0 <= k <= k + |t| <= |s|
    && t == s[k..k + |t|]
    && (forall i :: 0 <= i < k ==> IsWhitespace(s[i]))
    && (forall i :: k + |t| <= i < |s| ==> IsWhitespace(s[i]))
  }

  /** The index of the first character at or after `i` that is not white space, or `|s|` when there is none. */
  function SkipLeading(s: string, i: nat): (k: nat)
    requires i <= |s|
    ensures i <= k <= |s|
    ensures forall j :: i <= j < k ==> IsWhitespace(s[j])
    ensures k == |s| || !IsWhitespace(s[k])
    decreases |s| - i
  {
    if i < |s| && IsWhitespace(s[i]) then SkipLeading(s, i + 1) else i
  }

  /** The end of `s[lo..hi]` once its trailing white space is dropped. */
  function SkipTrailing(s: string, lo: nat, hi: nat): (e: nat)
    requires lo <= hi <= |s|
    ensures lo <= e <= hi
    ensures forall j :: e <= j < hi ==> IsWhitespace(s[j])
    ensures e == lo || !IsWhitespace(s[e - 1])
    decreases hi - lo
  {
    if lo < hi && IsWhitespace(s[hi - 1]) then SkipTrailing(s, lo, hi - 1) else hi
  }

  /** What the schema stores for a product name: a trimmed slice of it with only white space cut off. */
  function Trim(s: string): (t: string)
    ensures IsTrimmed(t)
    ensures exists k :: StripsTo(s, t, k)
  {
    var k := SkipLeading(s, 0);
    var e := SkipTrailing(s, k, |s|);
    assert StripsTo(s, s[k..e], k);
    s[k..e]
  }

  /** A name that is already trimmed is stored as it is. */
  lemma TrimKeepsTrimmed(s: string)
    requires IsTrimmed(s)
    ensures Trim(s) == s
  {
    var k :| StripsTo(s, Trim(s), k);
  }

  /** Trimming twice is trimming once. */
  lemma TrimIdempotent(s: string)
    ensures Trim(Trim(s)) == Trim(s)
  {
    TrimKeepsTrimmed(Trim(s));
  }

  /** A name trims to the empty string exactly when it is all white space. */
  lemma TrimEmptyIffBlank(s: string)
    ensures Trim(s) == [] <==> IsBlank(s)
  {
    var k :| StripsTo(s, Trim(s), k);
  }

  // ---- The sentiment enumeration ----

  const SentimentEnum: set<string> := {"Positive", "Negative", "Neutral"}

  /** The string stored for a label. */
  function LabelName(l: Label): string {
    match l
    case Positive => "Positive"
    case Negative => "Negative"
    case Neutral => "Neutral"
  }

  /** The enumeration check: only the three listed strings are accepted, each as its own label. */
  function ParseLabel(s: string): (l: Option<Label>)
    ensures l.Some? <==> s in SentimentEnum
    ensures l.Some? ==> LabelName(l.value) == s
  {
    if s == "Positive" then Some(Positive)
    else if s == "Negative" then Some(Negative)
    else if s == "Neutral" then Some(Neutral)
    else None
  }

  /** Every label is stored as a string the enumeration accepts, and reads back as itself. */
  lemma LabelNameRoundTrip(l: Label)
    ensures LabelName(l) in SentimentEnum
    ensures ParseLabel(LabelName(l)) == Some(l)
  {
  }

  // ---- Building a record ----

  /**
    `new Review({...})`: the product name goes through the `trim` setter, and
    an absent sentiment or score takes its default.
   */
  function NewReview(userId: UserId, productName: string, reviewText: string, rating: real,
                     sentiment: Option<Label>, score: Option<real>): (r: Review)
    ensures IsTrimmed(r.productName) && exists k :: StripsTo(productName, r.productName, k)
    ensures r.userId == userId && r.reviewText == reviewText && r.rating == rating
    ensures sentiment.Some? ==> r.sentiment == sentiment.value
    ensures sentiment.None? ==> r.sentiment == DefaultSentiment
    ensures score.Some? ==> r.score == score.value
    ensures score.None? ==> r.score == DefaultScore
    ensures sentiment.None? && score.None? ==> Consistent(r.sentiment, r.score) && InUnitRange(r.score)
  {
    Review(userId, Trim(productName), reviewText,
           if sentiment.Some? then sentiment.value else DefaultSentiment,
           if score.Some? then score.value else DefaultScore,
           rating)
  }

  /** The defaults, Neutral and 0, satisfy the label/score sign invariant and the score bounds. */
  lemma DefaultsConsistent(userId: UserId, productName: string, reviewText: string, rating: real)
    ensures var r := NewReview(userId, productName, reviewText, rating, None, None);
      r.sentiment == Neutral && r.score == 0.0 && Consistent(r.sentiment, r.score) && InUnitRange(r.score)
  {
  }

  /**
    A freshly built record meets the schema exactly when the owner is given,
    the product name is not all white space, the text is long enough and the
    score and rating are within their bounds.
   */
  lemma NewReviewValid(userId: UserId, productName: string, reviewText: string, rating: real,
                       sentiment: Option<Label>, score: Option<real>)
    ensures var r := NewReview(userId, productName, reviewText, rating, sentiment, score);
      Valid(r) <==>
        && userId != ""
        && !IsBlank(productName)
        && |reviewText| >= MinTextLength
        && InUnitRange(if score.Some? then score.value else DefaultScore)
        && RatingInRange(rating)
  {
    TrimEmptyIffBlank(productName);
  }
}
