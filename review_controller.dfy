/**
  The request handling of the review controller: validation and record
  construction on create, the owner check shared by read, update and delete,
  and the check order and in-place field merge on update.
 */
module ReviewController {
  import opened Wrappers
  import opened Sentiment
  import opened ReviewSchema

  /** The client errors the handlers report, each with its own status and message. */
  datatype Error =
    | MissingFields     // 400: product name, review text and rating are required
    | TextTooShort      // 400: review text must be at least 10 characters
    | RatingOutOfRange  // 400: rating must be between 1 and 5
    | NotFound          // 404: review not found
    | Unauthorized      // 403: unauthorized access

  /** The fields of a request body; `None` is a field that is absent or null. */
  datatype Body = Body(productName: Option<string>, reviewText: Option<string>, rating: Option<real>)

  /** The sentiment analyser's raw integer score for a text; a third-party library. */
  type Scorer = string -> int

  /** A string field is supplied when it is truthy: present and not empty. */
  predicate Supplied(field: Option<string>) {
    field.Some? && field.value != ""
  }

  /** A numeric field is supplied when it is truthy: present and not 0. */
  predicate RatingSupplied(field: Option<real>) {
    field.Some? && field.value != 0.0
  }

  // ---- createReview ----

  /**
    `createReview`: missing fields first, then the text length, then the
    rating bounds; a request that passes all three becomes a record of the
    caller's with the sentiment of its text. Persisting it is not modelled.
   */
  function CreateReview(userId: UserId, body: Body, scorer: Scorer): (r: Result<Review, Error>)
    ensures r == Failure(MissingFields) <==>
      !(Supplied(body.productName) && Supplied(body.reviewText) && RatingSupplied(body.rating))
    ensures r == Failure(TextTooShort) <==>
      && Supplied(body.productName) && Supplied(body.reviewText) && RatingSupplied(body.rating)
      && |body.reviewText.value| < MinTextLength
    ensures r == Failure(RatingOutOfRange) <==>
      && Supplied(body.productName) && Supplied(body.reviewText) && RatingSupplied(body.rating)
      && |body.reviewText.value| >= MinTextLength
      && !RatingInRange(body.rating.value)
    ensures r.Success? <==>
      && Supplied(body.productName) && Supplied(body.reviewText) && RatingSupplied(body.rating)
      && |body.reviewText.value| >= MinTextLength
      && RatingInRange(body.rating.value)
    ensures r.Success? ==>
      && r.value.userId == userId
      && r.value.productName == Trim(body.productName.value)
      && r.value.reviewText == body.reviewText.value
      && r.value.rating == body.rating.value
      && Analysis(r.value.sentiment, r.value.score) == Analyze(scorer(body.reviewText.value))
      && |r.value.reviewText| >= MinTextLength
      && RatingInRange(r.value.rating)
      && InUnitRange(r.value.score)
      && Consistent(r.value.sentiment, r.value.score)
  {
    if !Supplied(body.productName) || !Supplied(body.reviewText) || !RatingSupplied(body.rating) then
      Failure(MissingFields)
    else if |body.reviewText.value| < MinTextLength then
      Failure(TextTooShort)
    else if body.rating.value < MinRating || body.rating.value > MaxRating then
      Failure(RatingOutOfRange)
    else
      var a := Analyze(scorer(body.reviewText.value));
      Success(NewReview(userId, body.productName.value, body.reviewText.value, body.rating.value,
                        Some(a.sentiment), Some(a.score)))
  }

  /** A rating of 0 is falsy, so it is reported as a missing field and never as out of range. */
  lemma ZeroRatingReportedMissing(userId: UserId, body: Body, scorer: Scorer)
    requires body.rating == Some(0.0)
    ensures CreateReview(userId, body, scorer) == Failure(MissingFields)
  {
  }

  /**
    A created record meets every schema constraint except possibly two the
    controller does not check: the owner id must be given and the product
    name must not be all white space (the `trim` setter would leave it empty).
   */
  lemma CreatedValid(userId: UserId, body: Body, scorer: Scorer)
    requires CreateReview(userId, body, scorer).Success?
    ensures Valid(CreateReview(userId, body, scorer).value) <==>
      userId != "" && !IsBlank(body.productName.value)
  {
    TrimEmptyIffBlank(body.productName.value);
  }

  // ---- The owner check of getReviewById, updateReview and deleteReview ----

  /** Not found is reported before unauthorized; only the owner gets the record. */
  function Authorize(found: Option<Review>, caller: UserId): (r: Result<Review, Error>)
    ensures r == Failure(NotFound) <==> found.None?
    ensures r == Failure(Unauthorized) <==> found.Some? && found.value.userId != caller
    ensures r.Success? <==> found.Some? && found.value.userId == caller
    ensures r.Success? ==> r.value == found.value
  {
    match found
    case None => Failure(NotFound)
    case Some(review) => if review.userId != caller then Failure(Unauthorized) else Success(review)
  }

  // ---- updateReview ----

  /**
    The checks of `updateReview`, in order: not found, then ownership, then
    the text length and the rating bounds of the fields that are supplied.
   */
  function UpdateCheck(found: Option<Review>, caller: UserId, body: Body): (e: Option<Error>)
    ensures e == Some(NotFound) <==> found.None?
    ensures e == Some(Unauthorized) <==> found.Some? && found.value.userId != caller
    ensures e == Some(TextTooShort) <==>
      && found.Some? && found.value.userId == caller
      && Supplied(body.reviewText) && |body.reviewText.value| < MinTextLength
    ensures e == Some(RatingOutOfRange) <==>
      && found.Some? && found.value.userId == caller
      && !(Supplied(body.reviewText) && |body.reviewText.value| < MinTextLength)
      && RatingSupplied(body.rating) && !RatingInRange(body.rating.value)
    ensures e.None? <==>
      && found.Some? && found.value.userId == caller
      && (Supplied(body.reviewText) ==> |body.reviewText.value| >= MinTextLength)
      && (RatingSupplied(body.rating) ==> RatingInRange(body.rating.value))
  {
    match Authorize(found, caller)
    case Failure(err) => Some(err)
    case Success(_) =>
      if Supplied(body.reviewText) && |body.reviewText.value| < MinTextLength then
        Some(TextTooShort)
      else if RatingSupplied(body.rating) && (body.rating.value < MinRating || body.rating.value > MaxRating) then
        Some(RatingOutOfRange)
      else
        None
  }

  /**
    The field merge of `updateReview`: each supplied field replaces the
    stored one, and a new text brings its own sentiment and score.
   */
  function Merge(r: Review, body: Body, scorer: Scorer): (m: Review)
    ensures m.userId == r.userId
    ensures InUnitRange(r.score) ==> InUnitRange(m.score)
    ensures Consistent(r.sentiment, r.score) ==> Consistent(m.sentiment, m.score)
    ensures IsTrimmed(r.productName) ==> IsTrimmed(m.productName)
  {
    var named := if Supplied(body.productName) then r.(productName := Trim(body.productName.value)) else r;
    var texted :=
      if Supplied(body.reviewText) then
        var a := Analyze(scorer(body.reviewText.value));
        named.(reviewText := body.reviewText.value, sentiment := a.sentiment, score := a.score)
      else named;
    if RatingSupplied(body.rating) then texted.(rating := body.rating.value) else texted
  }

  /** Only supplied fields change; the owner never does. */
  lemma MergeChangesOnlySupplied(r: Review, body: Body, scorer: Scorer)
    ensures Merge(r, body, scorer).userId == r.userId
    ensures !Supplied(body.productName) ==> Merge(r, body, scorer).productName == r.productName
    ensures !Supplied(body.reviewText) ==> Merge(r, body, scorer).reviewText == r.reviewText
    ensures !RatingSupplied(body.rating) ==> Merge(r, body, scorer).rating == r.rating
    ensures Supplied(body.productName) ==> Merge(r, body, scorer).productName == Trim(body.productName.value)
    ensures Supplied(body.reviewText) ==> Merge(r, body, scorer).reviewText == body.reviewText.value
    ensures RatingSupplied(body.rating) ==> Merge(r, body, scorer).rating == body.rating.value
  {
  }

  /**
    Sentiment and score are recomputed exactly when a new text is supplied:
    an edit of the name or rating alone leaves them as they were.
   */
  lemma SentimentFollowsText(r: Review, body: Body, scorer: Scorer)
    ensures var m := Merge(r, body, scorer);
      Analysis(m.sentiment, m.score) ==
        if Supplied(body.reviewText) then Analyze(scorer(body.reviewText.value))
        else Analysis(r.sentiment, r.score)
  {
  }

  /** A rating of 0 is falsy: it passes the checks and leaves the stored rating alone. */
  lemma ZeroRatingIgnored(r: Review, caller: UserId, body: Body, scorer: Scorer)
    requires body.rating == Some(0.0)
    ensures UpdateCheck(Some(r), caller, body) != Some(RatingOutOfRange)
    ensures Merge(r, body, scorer).rating == r.rating
  {
  }

  /**
    An update that passes its checks keeps a valid, sign-consistent record
    valid and sign-consistent, unless the new product name is all white space.
   */
  lemma MergePreservesInvariants(r: Review, body: Body, scorer: Scorer)
    requires Valid(r) && Consistent(r.sentiment, r.score)
    requires UpdateCheck(Some(r), r.userId, body).None?
    requires Supplied(body.productName) ==> !IsBlank(body.productName.value)
    ensures Valid(Merge(r, body, scorer))
    ensures Consistent(Merge(r, body, scorer).sentiment, Merge(r, body, scorer).score)
  {
    if Supplied(body.productName) {
      TrimEmptyIffBlank(body.productName.value);
    }
  }

  /** A loaded review document whose fields `updateReview` assigns in place. */
  class ReviewDocument {
    var userId: UserId
    var productName: string
    var reviewText: string
    var sentiment: Label
    var score: real
    var rating: real

    /** The record the document currently holds. */
    function Value(): Review
      reads this
    {
      Review(userId, productName, reviewText, sentiment, score, rating)
    }

    /** A document loaded from the store. */
    constructor (r: Review)
      ensures Value() == r
    {
      userId, productName, reviewText := r.userId, r.productName, r.reviewText;
      sentiment, score, rating := r.sentiment, r.score, r.rating;
    }

    /**
      The part of `updateReview` after the document is found: the owner and
      field checks, then the field assignments. On an error nothing changes.
     */
    method Update(caller: UserId, body: Body, scorer: Scorer) returns (err: Option<Error>)
      modifies this
      ensures err == UpdateCheck(Some(old(Value())), caller, body)
      ensures err.None? ==> Value() == Merge(old(Value()), body, scorer)
      ensures err.Some? ==> Value() == old(Value())
    {
      if userId != caller {
        return Some(Unauthorized);
      }
      if Supplied(body.reviewText) && |body.reviewText.value| < MinTextLength {
        return Some(TextTooShort);
      }
      if RatingSupplied(body.rating) && (body.rating.value < MinRating || body.rating.value > MaxRating) {
        return Some(RatingOutOfRange);
      }
      if Supplied(body.productName) {
        productName := Trim(body.productName.value);
      }
      if Supplied(body.reviewText) {
        reviewText := body.reviewText.value;
        var a := Analyze(scorer(body.reviewText.value));
        sentiment := a.sentiment;
        score := a.score;
      }
      if RatingSupplied(body.rating) {
        rating := body.rating.value;
      }
      return None;
    }
  }

  /** `updateReview` on the result of the lookup, `null` when no document has the id. */
  method UpdateReview(found: ReviewDocument?, caller: UserId, body: Body, scorer: Scorer)
    returns (err: Option<Error>)
    modifies found
    ensures found == null ==> err == Some(NotFound)
    ensures found != null ==> err == UpdateCheck(Some(old(found.Value())), caller, body)
    ensures found != null && err.None? ==> found.Value() == Merge(old(found.Value()), body, scorer)
    ensures found != null && err.Some? ==> found.Value() == old(found.Value())
  {
    if found == null {
      return Some(NotFound);
    }
    err := found.Update(caller, body, scorer);
  }
}
