# Review sentiment: a Dafny model

This project models the core of a product-review backend. Authenticated users submit reviews: a product name, a text and a star rating. The controller labels each text Positive, Negative or Neutral and gives it a normalised score in [-1, 1]. Reviews are created and updated under the rules of the review schema, and each user can ask for statistics grouped by sentiment.

The modules are:

- `Wrappers` (`wrappers.dfy`) defines `Option`, for a field that is absent or null, and `Result`, for a handler's value or its error.
- `Sentiment` (`sentiment.dfy`) covers `analyzeSentiment`.
  - `Analyze` takes the analyser's raw integer score to a label and a score clamped to [-1, 1]. The divisor is 5.
  - `RawScore` is an abstract model of that raw score: the sum of the lexicon weights of the text's tokens.
- `ReviewSchema` (`review_schema.dfy`) covers the stored record.
  - `Review` is the record and `Valid` holds its field constraints.
  - `Trim` is the `trim` setter, as JavaScript's `String.prototype.trim`.
  - `ParseLabel` is the sentiment enumeration check.
  - `NewReview` builds a record and fills in the defaults.
- `ReviewController` (`review_controller.dfy`) covers the handlers.
  - `CreateReview` is `createReview`: the checks in order, then the record.
  - `Authorize` is the owner check shared by `getReviewById`, `updateReview` and `deleteReview`.
  - `UpdateCheck` and `Merge` state what `updateReview` should do.
  - The class `ReviewDocument` and its method `Update` assign the loaded document's fields in place. `Update` is proved against `UpdateCheck` and `Merge`.
- `SentimentStats` (`sentiment_stats.dfy`) covers `getSentimentStats`.
  - `OwnedBy` is the `$match` stage and the document count.
  - `Group` is the `$group` stage. It is a single pass that folds each review into the group of its label (`Add`, `Accumulate`).
  - The pass is proved against separate per-label definitions: `CountOf`, `ScoreSum` and `RatingSum`.

The sentiment library is a parameter `scorer: string -> int` of the handlers. It stands for `sentiment.analyze(text).score`. Every property of the handlers holds for any scorer.

## Model

| member | source | states |
|---|---|---|
| `Sentiment.Analyze` | src/controllers/reviewController.js:7-24 | The label is Positive iff raw > 0, Negative iff raw < 0, Neutral iff raw = 0. The score always lies in [-1, 1]. Its sign names the label. |
| `Sentiment.SaturatesAbove` | src/controllers/reviewController.js:12-14 | A raw score of 5 or more gives exactly (Positive, 1). |
| `Sentiment.SaturatesBelow` | src/controllers/reviewController.js:15-17 | A raw score of -5 or less gives exactly (Negative, -1). |
| `Sentiment.LinearInside` | src/controllers/reviewController.js:12-17 | For -5 < raw < 5 the score is raw / 5, strictly inside (-1, 1). |
| `Sentiment.NeutralIffZeroScore` | src/controllers/reviewController.js:9-10 | Neutral holds iff the score is 0. A Neutral result is exactly (Neutral, 0), because the initial score is the raw score, which is 0 on that branch. |
| `Sentiment.ScoreMonotone` | src/controllers/reviewController.js:12-18 | The normalised score never decreases as the raw score grows. |
| `Sentiment.RawScoreAppend` | src/controllers/reviewController.js:8 | The raw score of a concatenation of tokens is the sum of the parts' raw scores. |
| `Sentiment.ExtraPositiveToken` | src/controllers/reviewController.js:8-18 | Inserting a positive-weight token anywhere raises the raw score and never lowers the normalised score. |
| `Sentiment.NoLexiconHitsIsNeutral` | src/controllers/reviewController.js:8-10 | Tokens with no lexicon entry give raw score 0, so the result is (Neutral, 0). |
| `Sentiment.ThreeTexts` | src/controllers/reviewController.js:7-24 | Take a lexicon weighing great 3, amazing 4, terrible -3 and awful -3. Then "this product is great and amazing" is (Positive, 1), "... terrible and awful" is (Negative, -1), and "this is a product" is (Neutral, 0). |
| `Sentiment.RawScore` | src/controllers/reviewController.js:8 | The analyser's raw score as the sum of the tokens' lexicon weights. A text whose tokens all weigh at least 0 scores at least 0, and one whose tokens all weigh at most 0 scores at most 0. |
| `ReviewSchema.SkipLeading` | src/schema/reviewSchema.js:13 | Returns the first index at or after `i` whose character is not white space, or the length when there is none. Every character skipped is white space. |
| `ReviewSchema.SkipTrailing` | src/schema/reviewSchema.js:13 | Returns the end of `s[lo..hi]` after its trailing white space is dropped. Every character dropped is white space. The last character kept, if any, is not white space. |
| `ReviewSchema.Trim` | src/schema/reviewSchema.js:13 | The stored product name is trimmed at both ends. It is a slice of the given name with only white space around it. |
| `ReviewSchema.TrimKeepsTrimmed` | src/schema/reviewSchema.js:13 | A name that is already trimmed is stored unchanged. |
| `ReviewSchema.TrimIdempotent` | src/schema/reviewSchema.js:13 | Trimming twice equals trimming once. |
| `ReviewSchema.TrimEmptyIffBlank` | src/schema/reviewSchema.js:10-14 | A name trims to "" iff it is all white space. Such a name fails the required constraint once trimmed. |
| `ReviewSchema.ParseLabel` | src/schema/reviewSchema.js:20-22 | The enumeration accepts exactly "Positive", "Negative" and "Neutral", each as its own label. |
| `ReviewSchema.LabelNameRoundTrip` | src/schema/reviewSchema.js:20-22 | Every label is stored as a string the enumeration accepts, and that string reads back as the same label. |
| `ReviewSchema.Valid` | src/schema/reviewSchema.js:5-36 | The schema's constraints: owner given, name non-empty and trimmed, text of at least 10 characters, score in [-1, 1], rating in [1, 5]. A valid record has a non-empty name and text, and its rating is non-zero. `required` on a Number would accept 0; the `min: 1` bound is what excludes it. |
| `ReviewSchema.DefaultsConsistent` | src/schema/reviewSchema.js:20-30 | The defaults, sentiment Neutral and score 0, satisfy the label/score sign invariant and the score bounds. |
| `ReviewSchema.NewReview` | src/controllers/reviewController.js:49-56 | Builds the record as `new Review({...})` does. The name is stored trimmed: a slice of the given name with only white space cut off. Owner, text and rating are copied. A given sentiment or score is stored as given, as the controller always passes both. An absent one takes its default from reviewSchema.js line 23 or 29, and the two defaults agree in sign and lie within bounds. |
| `ReviewSchema.NewReviewValid` | src/schema/reviewSchema.js:5-36 | A built record is valid iff all of these hold: the owner is given, the product name is not all white space, the text has at least 10 characters, the score is in [-1, 1] and the rating is in [1, 5]. |
| `ReviewController.CreateReview` | src/controllers/reviewController.js:31-56 | The checks run in order: missing field (JS-falsy), then text shorter than 10, then rating outside [1, 5]. Each error is stated as an iff. The result is a record iff every check passes. That record has the caller as owner, the trimmed name, the text and the rating, plus the sentiment and score of `Analyze` on the text. |
| `ReviewController.ZeroRatingReportedMissing` | src/controllers/reviewController.js:31-35 | A rating of 0 is reported as a missing field, never as out of range. |
| `ReviewController.CreatedValid` | src/controllers/reviewController.js:47-56 | A created record meets the schema iff the owner id is non-empty and the product name is not all white space. The controller checks neither. |
| `ReviewController.Authorize` | src/controllers/reviewController.js:99-107 | Not found iff there is no record. Unauthorized iff a record exists whose owner is not the caller. Otherwise the owner gets that very record. The same check appears in `deleteReview`, lines 190-196. |
| `ReviewController.UpdateCheck` | src/controllers/reviewController.js:144-160 | The checks run in order: not found, then unauthorized, then a supplied text shorter than 10, then a supplied rating outside [1, 5]. Each is stated as an iff. An unsupplied or falsy field is never checked. |
| `ReviewController.Merge` | src/controllers/reviewController.js:162-169 | The field merge of an update. The owner is kept. Merging keeps the score within [-1, 1], keeps the label and score agreeing in sign, and keeps the name trimmed. Its field-by-field effect is stated by `MergeChangesOnlySupplied` and `SentimentFollowsText`. |
| `ReviewController.MergeChangesOnlySupplied` | src/controllers/reviewController.js:162-169 | The owner never changes. Each supplied field takes the new value (the name trimmed). Each unsupplied field keeps its old value. |
| `ReviewController.SentimentFollowsText` | src/controllers/reviewController.js:163-168 | Sentiment and score are recomputed from the new text iff a text is supplied. An edit of the name or rating alone leaves them unchanged. |
| `ReviewController.ZeroRatingIgnored` | src/controllers/reviewController.js:158-169 | On update, a rating of 0 is never rejected and leaves the stored rating as it was. |
| `ReviewController.MergePreservesInvariants` | src/controllers/reviewController.js:152-169 | Take an update that passes its checks and does not give an all-white-space name. Applied to a valid record whose label and score agree in sign, it yields another such record. |
| `ReviewController.ReviewDocument.Update` | src/controllers/reviewController.js:148-169 | Checks the owner, then the fields, then assigns the fields in place. The error it returns is `UpdateCheck`'s. On success the new document is `Merge` of the old one. On error nothing changes. |
| `ReviewController.UpdateReview` | src/controllers/reviewController.js:142-169 | A missing document gives NotFound. Otherwise the result is that of `ReviewDocument.Update` on the loaded document. |
| `SentimentStats.OwnedBy` | src/controllers/reviewController.js:214 | Keeps exactly the user's reviews, each as often as it occurs in the input. |
| `SentimentStats.OwnedByAll` | src/controllers/reviewController.js:214 | If every review belongs to the user, all of them are kept. |
| `SentimentStats.AddShape` | src/controllers/reviewController.js:216-221 | Folding in one review grows the one group of its label: count + 1, score sum + score, rating sum + rating. If that label has no group yet, a new group is appended. All other groups are unchanged. |
| `SentimentStats.AccumulateTallies` | src/controllers/reviewController.js:216-221 | After one pass, the labels are distinct and every label present has a group. Each group holds its label's true count and sums. |
| `SentimentStats.AccumulateCount` | src/controllers/reviewController.js:218 | After one pass the group counts add up to the number of reviews. |
| `SentimentStats.Group` | src/controllers/reviewController.js:216-221 | The `$group` output. Every bucket holds the number of reviews with its label and the arithmetic means of their scores and ratings. The bucket counts add up to the number of reviews. One bucket per present label is stated by `GroupCorrect`. |
| `SentimentStats.GroupCorrect` | src/controllers/reviewController.js:216-221 | Every label present has exactly one bucket, and absent labels have none. Each bucket's count is the number of reviews with its label. Its averages are the arithmetic means of score and rating over those reviews. The counts add up to the number of reviews. |
| `SentimentStats.SentimentStats` | src/controllers/reviewController.js:213-225 | `totalReviews` is the number of the user's reviews and equals the sum of the bucket counts. The buckets group the user's reviews as `GroupCorrect` states. |
| `SentimentStats.NoReviewsNoBuckets` | src/controllers/reviewController.js:213-225 | A user with no reviews gets a total of 0 and no buckets. |
| `SentimentStats.TwoPositivesOneNegative` | src/controllers/reviewController.js:216-221 | Reviews (Positive, 0.6, 5), (Positive, 0.4, 4) and (Negative, -0.2, 2) group into Positive {2, 0.5, 4.5} and Negative {1, -0.2, 2}. |
| `SentimentStats.TwoPositivesOneNegativeStats` | src/controllers/reviewController.js:213-225 | The same three reviews through the endpoint give a total of 3 and those two buckets. |

## Left out

- The sentiment library's tokeniser and lexicon are third-party code. The handlers take its raw score as the parameter `scorer`.
- `RawScore` is the plain sum of lexicon weights. It does not model the library's negation rule, which flips a weight after words like "not".
- Persistence is not modelled: `save`, `find`, `findById`, `findByIdAndDelete`, `populate`, `sort` and `countDocuments` are out. So are `getUserReviews` and `getAllReviews`, which only fetch and return.
- `deleteReview` is modelled only through its owner check (`Authorize`). The deletion is a store call.
- Mongoose runs schema validators only at `save`. The model states the constraints as `Valid` and proves when a built or merged record meets them. It does not model the rejection at `save`. That rejection is what happens to an all-white-space product name, which passes the controller's truthiness check and then trims to "".
- HTTP status codes and JSON bodies become the `Error` datatype. Logging, async/await and decoding the authentication token (the caller's id is an input) are left out too.
- Scores and ratings are exact reals. Floating-point rounding of `score / 5` and of the averages is not modelled.
- Body fields are modelled as absent, null, a string (name and text) or a number (rating). Other JSON types, `NaN` and JavaScript's coercions in comparisons are not modelled.
- A string is a `seq<char>` of Unicode scalar values, and its length counts those. JavaScript's `.length` counts UTF-16 code units, so a character outside the Basic Multilingual Plane (an emoji, say) counts 2 there and 1 here. On texts holding such characters the length checks (controller lines 37 and 152, schema `minlength`) can therefore differ: five emoji pass in JavaScript (length 10) and give `TextTooShort` here. On texts of Basic Multilingual Plane characters the two lengths agree.
- The owner id is a string compared as a string. Casting it to a MongoDB ObjectId, and failing on a malformed id, is not modelled.
- Timestamps (`createdAt`, `updatedAt`) are not modelled.
- `getSentimentStats` is modelled by the grouping its pipeline evidently intends, not by how it behaves at runtime. Line 214 calls `require` inside an ES module, and line 210 holds a stray expression statement. Neither is modelled.
- `Group` orders its buckets by each label's first occurrence. MongoDB leaves the order of `$group` output unspecified. No general lemma depends on it, but the two example lemmas `TwoPositivesOneNegative` and `TwoPositivesOneNegativeStats` state the buckets in this first-occurrence order.
- The application setup, the route table and the database connection are framework wiring with no logic to model.
