/**
  The per-user sentiment statistics: the user's reviews are grouped by
  sentiment label, each group reporting its size, mean score and mean
  rating, next to the user's total number of reviews.
 */
module SentimentStats {
  import opened Sentiment
  import opened ReviewSchema

  type Pos = n: nat | n > 0 witness 1

  /** One group of the statistics: a label present among the reviews and its figures. */
  datatype Bucket = Bucket(sentiment: Label, count: Pos, avgScore: real, avgRating: real)

  /** The response: the user's total and one bucket per label present. */
  datatype Stats = Stats(totalReviews: nat, buckets: seq<Bucket>)

  // ---- Reference definitions ----

  /** The number of reviews carrying label `l`. */
  function CountOf(rs: seq<Review>, l: Label): nat {
    if rs == [] then 0
    else CountOf(rs[..|rs| - 1], l) + (if rs[|rs| - 1].sentiment == l then 1 else 0)
  }

  /** The sum of the scores of the reviews carrying label `l`. */
  function ScoreSum(rs: seq<Review>, l: Label): real {
    if rs == [] then 0.0
    else ScoreSum(rs[..|rs| - 1], l) + (if rs[|rs| - 1].sentiment == l then rs[|rs| - 1].score else 0.0)
  }

  /** The sum of the ratings of the reviews carrying label `l`. */
  function RatingSum(rs: seq<Review>, l: Label): real {
    if rs == [] then 0.0
    else RatingSum(rs[..|rs| - 1], l) + (if rs[|rs| - 1].sentiment == l then rs[|rs| - 1].rating else 0.0)
  }

  /** `b` holds the size and the arithmetic means of the group of its label in `rs`. */
  predicate Describes(b: Bucket, rs: seq<Review>) {
    && b.count == CountOf(rs, b.sentiment)
    && b.avgScore == ScoreSum(rs, b.sentiment) / b.count as real
    && b.avgRating == RatingSum(rs, b.sentiment) / b.count as real
  }

  predicate HasBucket(bs: seq<Bucket>, l: Label) {
    exists i :: 0 <= i < |bs| && bs[i].sentiment == l
  }

  predicate DistinctLabels(bs: seq<Bucket>) {
    forall i, j :: 0 <= i < j < |bs| ==> bs[i].sentiment != bs[j].sentiment
  }

  function SumCounts(bs: seq<Bucket>): nat {
    if bs == [] then 0 else bs[0].count + SumCounts(bs[1..])
  }

  // ---- The match stage and the document count ----

  /** The reviews owned by `user`, each as often as it occurs in `reviews`. */
  function OwnedBy(reviews: seq<Review>, user: UserId): (mine: seq<Review>)
    ensures forall r :: multiset(mine)[r] == if r.userId == user then multiset(reviews)[r] else 0
  {
    if reviews == [] then []
    else
      assert reviews == [reviews[0]] + reviews[1..];
      (if reviews[0].userId == user then [reviews[0]] else []) + OwnedBy(reviews[1..], user)
  }

  // ---- The group stage ----

  /** The running figures of one group: its label, size and the sums of scores and ratings. */
  datatype Acc = Acc(sentiment: Label, count: Pos, scoreSum: real, ratingSum: real)

  /** Folds one review into the group table: into its label's group, or into a new one at the end. */
  function Add(accs: seq<Acc>, r: Review): seq<Acc> {
    if accs == [] then
      [Acc(r.sentiment, 1, r.score, r.rating)]
    else if accs[0].sentiment == r.sentiment then
      [accs[0].(count := accs[0].count + 1,
                scoreSum := accs[0].scoreSum + r.score,
                ratingSum := accs[0].ratingSum + r.rating)] + accs[1..]
    else
      [accs[0]] + Add(accs[1..], r)
  }

  /** The group table after a pass over `rs`; groups appear in the order their labels first occur. */
  function Accumulate(rs: seq<Review>): seq<Acc> {
    if rs == [] then [] else Add(Accumulate(rs[..|rs| - 1]), rs[|rs| - 1])
  }

  /** The averages of a group. */
  function Finish(a: Acc): Bucket {
    Bucket(a.sentiment, a.count, a.scoreSum / a.count as real, a.ratingSum / a.count as real)
  }

  function FinishAll(accs: seq<Acc>): (bs: seq<Bucket>)
    ensures |bs| == |accs|
    ensures forall i :: 0 <= i < |accs| ==> bs[i] == Finish(accs[i])
  {
    if accs == [] then [] else [Finish(accs[0])] + FinishAll(accs[1..])
  }

  /** The output of the group stage: every bucket holds its group's size and means, and the sizes add up to |rs|. */
  function Group(rs: seq<Review>): (bs: seq<Bucket>)
    ensures forall b :: b in bs ==> Describes(b, rs)
    ensures SumCounts(bs) == |rs|
  {
    AccumulateTallies(rs);
    AccumulateCount(rs);
    FinishAllCount(Accumulate(rs));
    FinishAllDescribes(Accumulate(rs), rs);
    FinishAll(Accumulate(rs))
  }

  // ---- Correctness of the group stage ----

  predicate HasAcc(accs: seq<Acc>, l: Label) {
    exists i :: 0 <= i < |accs| && accs[i].sentiment == l
  }

  predicate AccLabelsDistinct(accs: seq<Acc>) {
    forall i, j :: 0 <= i < j < |accs| ==> accs[i].sentiment != accs[j].sentiment
  }

  /** Every group in the table has the true size and sums of its label in `rs`. */
  ghost predicate Figures(accs: seq<Acc>, rs: seq<Review>) {
    forall i :: 0 <= i < |accs| ==>
      && accs[i].count == CountOf(rs, accs[i].sentiment)
      && accs[i].scoreSum == ScoreSum(rs, accs[i].sentiment)
      && accs[i].ratingSum == RatingSum(rs, accs[i].sentiment)
  }

  /** Every label present in `rs` has a group in the table. */
  ghost predicate Covers(accs: seq<Acc>, rs: seq<Review>) {
    forall l :: CountOf(rs, l) > 0 ==> HasAcc(accs, l)
  }

  function AccCount(accs: seq<Acc>): nat {
    if accs == [] then 0 else accs[0].count + AccCount(accs[1..])
  }

  /** Appending a review changes the figures of its own label only. */
  lemma CountsSnoc(rs: seq<Review>, r: Review, l: Label)
    ensures CountOf(rs + [r], l) == CountOf(rs, l) + (if r.sentiment == l then 1 else 0)
    ensures ScoreSum(rs + [r], l) == ScoreSum(rs, l) + (if r.sentiment == l then r.score else 0.0)
    ensures RatingSum(rs + [r], l) == RatingSum(rs, l) + (if r.sentiment == l then r.rating else 0.0)
  {
    assert (rs + [r])[..|rs|] == rs;
  }

  /** A label no review carries has nothing to sum. */
  lemma {:induction false} AbsentLabelSums(rs: seq<Review>, l: Label)
    requires CountOf(rs, l) == 0
    ensures ScoreSum(rs, l) == 0.0 && RatingSum(rs, l) == 0.0
  {
    if rs != [] {
      AbsentLabelSums(rs[..|rs| - 1], l);
    }
  }

  /** Adding a review updates the one group of its label, or appends a new group when there is none. */
  lemma {:induction false} AddShape(accs: seq<Acc>, r: Review)
    requires AccLabelsDistinct(accs)
    ensures |Add(accs, r)| == if HasAcc(accs, r.sentiment) then |accs| else |accs| + 1
    ensures forall i :: 0 <= i < |accs| ==>
      Add(accs, r)[i] ==
        if accs[i].sentiment == r.sentiment then
          accs[i].(count := accs[i].count + 1,
                   scoreSum := accs[i].scoreSum + r.score,
                   ratingSum := accs[i].ratingSum + r.rating)
        else accs[i]
    ensures !HasAcc(accs, r.sentiment) ==> Add(accs, r)[|accs|] == Acc(r.sentiment, 1, r.score, r.rating)
  {
    if accs != [] && accs[0].sentiment != r.sentiment {
      AddShape(accs[1..], r);
      assert HasAcc(accs, r.sentiment) <==> HasAcc(accs[1..], r.sentiment) by {
        if HasAcc(accs, r.sentiment) {
          var i :| 0 <= i < |accs| && accs[i].sentiment == r.sentiment;
          assert accs[1..][i - 1].sentiment == r.sentiment;
        }
        if HasAcc(accs[1..], r.sentiment) {
          var i :| 0 <= i < |accs[1..]| && accs[1..][i].sentiment == r.sentiment;
          assert accs[i + 1].sentiment == r.sentiment;
        }
      }
    } else if accs != [] {
      assert HasAcc(accs, r.sentiment) by {
        assert accs[0].sentiment == r.sentiment;
      }
    }
  }

  /** Adding a review adds one to the sum of the group sizes. */
  lemma {:induction false} AddCount(accs: seq<Acc>, r: Review)
    ensures AccCount(Add(accs, r)) == AccCount(accs) + 1
  {
    if accs != [] && accs[0].sentiment != r.sentiment {
      AddCount(accs[1..], r);
      assert Add(accs, r)[1..] == Add(accs[1..], r);
    } else if accs != [] {
      assert Add(accs, r)[1..] == accs[1..];
    }
  }

  lemma AddKeepsDistinct(accs: seq<Acc>, r: Review)
    requires AccLabelsDistinct(accs)
    ensures AccLabelsDistinct(Add(accs, r))
  {
    AddShape(accs, r);
    var next := Add(accs, r);
    forall i, j | 0 <= i < j < |next|
      ensures next[i].sentiment != next[j].sentiment
    {
      if j == |accs| {
        assert accs[i].sentiment != r.sentiment;
      }
    }
  }

  lemma AddKeepsFigures(accs: seq<Acc>, rs: seq<Review>, r: Review)
    requires AccLabelsDistinct(accs) && Figures(accs, rs) && Covers(accs, rs)
    ensures Figures(Add(accs, r), rs + [r])
  {
    AddShape(accs, r);
    var next := Add(accs, r);
    forall i | 0 <= i < |next|
      ensures next[i].count == CountOf(rs + [r], next[i].sentiment)
      ensures next[i].scoreSum == ScoreSum(rs + [r], next[i].sentiment)
      ensures next[i].ratingSum == RatingSum(rs + [r], next[i].sentiment)
    {
      CountsSnoc(rs, r, next[i].sentiment);
      if i == |accs| {
        assert CountOf(rs, r.sentiment) == 0;
        AbsentLabelSums(rs, r.sentiment);
      } else {
        assert next[i].sentiment == accs[i].sentiment;
      }
    }
  }

  lemma AddKeepsCovers(accs: seq<Acc>, rs: seq<Review>, r: Review)
    requires AccLabelsDistinct(accs) && Covers(accs, rs)
    ensures Covers(Add(accs, r), rs + [r])
  {
    AddShape(accs, r);
    var next := Add(accs, r);
    forall l | CountOf(rs + [r], l) > 0
      ensures HasAcc(next, l)
    {
      CountsSnoc(rs, r, l);
      if HasAcc(accs, l) {
        var i :| 0 <= i < |accs| && accs[i].sentiment == l;
        assert next[i].sentiment == l;
      } else {
        assert next[|accs|].sentiment == l;
      }
    }
  }

  /** One pass over the reviews produces the true group table. */
  lemma {:induction false} AccumulateTallies(rs: seq<Review>)
    ensures AccLabelsDistinct(Accumulate(rs))
    ensures Figures(Accumulate(rs), rs)
    ensures Covers(Accumulate(rs), rs)
  {
    if rs != [] {
      var init, r := rs[..|rs| - 1], rs[|rs| - 1];
      assert rs == init + [r];
      AccumulateTallies(init);
      AddKeepsDistinct(Accumulate(init), r);
      AddKeepsFigures(Accumulate(init), init, r);
      AddKeepsCovers(Accumulate(init), init, r);
    }
  }

  /** One pass over the reviews counts each review once. */
  lemma {:induction false} AccumulateCount(rs: seq<Review>)
    ensures AccCount(Accumulate(rs)) == |rs|
  {
    if rs != [] {
      AccumulateCount(rs[..|rs| - 1]);
      AddCount(Accumulate(rs[..|rs| - 1]), rs[|rs| - 1]);
    }
  }

  lemma {:induction false} FinishAllCount(accs: seq<Acc>)
    ensures SumCounts(FinishAll(accs)) == AccCount(accs)
  {
    if accs != [] {
      FinishAllCount(accs[1..]);
      assert FinishAll(accs)[1..] == FinishAll(accs[1..]);
    }
  }

  lemma GroupDistinct(rs: seq<Review>)
    ensures DistinctLabels(Group(rs))
  {
    AccumulateTallies(rs);
    var accs, bs := Accumulate(rs), Group(rs);
    forall i, j | 0 <= i < j < |bs|
      ensures bs[i].sentiment != bs[j].sentiment
    {
      assert bs[i].sentiment == accs[i].sentiment && bs[j].sentiment == accs[j].sentiment;
    }
  }

  lemma GroupCovers(rs: seq<Review>)
    ensures forall l :: HasBucket(Group(rs), l) <==> CountOf(rs, l) > 0
  {
    AccumulateTallies(rs);
    var accs, bs := Accumulate(rs), Group(rs);
    forall l ensures HasBucket(bs, l) <==> CountOf(rs, l) > 0 {
      if HasBucket(bs, l) {
        var i :| 0 <= i < |bs| && bs[i].sentiment == l;
        assert accs[i].sentiment == l;
      }
      if CountOf(rs, l) > 0 {
        var i :| 0 <= i < |accs| && accs[i].sentiment == l;
        assert bs[i].sentiment == l;
      }
    }
  }

  /** Averaging a table of true sizes and sums gives buckets that hold the sizes and means. */
  lemma FinishAllDescribes(accs: seq<Acc>, rs: seq<Review>)
    requires Figures(accs, rs)
    ensures forall b :: b in FinishAll(accs) ==> Describes(b, rs)
  {
    var bs := FinishAll(accs);
    forall b | b in bs
      ensures Describes(b, rs)
    {
      var i :| 0 <= i < |bs| && bs[i] == b;
      assert b == Finish(accs[i]);
    }
  }

  /**
    Grouping: every label present gets exactly one bucket, absent labels get
    none, every bucket holds its group's size and means, and the sizes add
    up to the number of reviews.
   */
  lemma GroupCorrect(rs: seq<Review>)
    ensures DistinctLabels(Group(rs))
    ensures forall l :: HasBucket(Group(rs), l) <==> CountOf(rs, l) > 0
    ensures forall b :: b in Group(rs) ==> Describes(b, rs)
    ensures SumCounts(Group(rs)) == |rs|
  {
    GroupDistinct(rs);
    GroupCovers(rs);
  }

  // ---- The endpoint ----

  /** `getSentimentStats`: the user's total and the grouping of the user's reviews. */
  function SentimentStats(reviews: seq<Review>, user: UserId): (s: Stats)
    ensures s.totalReviews == |OwnedBy(reviews, user)| == SumCounts(s.buckets)
    ensures DistinctLabels(s.buckets)
    ensures forall l :: HasBucket(s.buckets, l) <==> CountOf(OwnedBy(reviews, user), l) > 0
    ensures forall b :: b in s.buckets ==> Describes(b, OwnedBy(reviews, user))
  {
    var mine := OwnedBy(reviews, user);
    GroupCorrect(mine);
    Stats(|mine|, Group(mine))
  }

  /** Reviews that all belong to the user are all kept, in their order. */
  lemma {:induction false} OwnedByAll(reviews: seq<Review>, user: UserId)
    requires forall i :: 0 <= i < |reviews| ==> reviews[i].userId == user
    ensures OwnedBy(reviews, user) == reviews
  {
    if reviews != [] {
      OwnedByAll(reviews[1..], user);
    }
  }

  /** A user with no reviews gets a total of 0 and no buckets. */
  lemma NoReviewsNoBuckets(reviews: seq<Review>, user: UserId)
    requires forall i :: 0 <= i < |reviews| ==> reviews[i].userId != user
    ensures SentimentStats(reviews, user) == Stats(0, [])
  {
  }

  /** Two positive reviews and one negative one give two buckets with the expected means. */
  lemma TwoPositivesOneNegative()
    ensures var good := Review("u1", "Phone", "great and amazing", Positive, 0.6, 5.0);
            var fine := Review("u1", "Phone", "good enough phone", Positive, 0.4, 4.0);
            var poor := Review("u1", "Cable", "terrible, broke", Negative, -0.2, 2.0);
      Group([good, fine, poor]) == [Bucket(Positive, 2, 0.5, 4.5), Bucket(Negative, 1, -0.2, 2.0)]
  {
    var good := Review("u1", "Phone", "great and amazing", Positive, 0.6, 5.0);
    var fine := Review("u1", "Phone", "good enough phone", Positive, 0.4, 4.0);
    var poor := Review("u1", "Cable", "terrible, broke", Negative, -0.2, 2.0);
    var rs := [good, fine, poor];
    var a1, a2 := Acc(Positive, 1, 0.6, 5.0), Acc(Positive, 2, 1.0, 9.0);
    var a3 := Acc(Negative, 1, -0.2, 2.0);
    assert Accumulate([good]) == [a1] by {
      assert Add([], good) == [a1];
    }
    assert Accumulate([good, fine]) == [a2] by {
      assert [good, fine][..1] == [good];
      assert Add([a1], fine) == [a2];
    }
    assert Accumulate(rs) == [a2, a3] by {
      assert rs[..2] == [good, fine];
      assert Add([a2], poor) == [a2, a3] by {
        assert Add([], poor) == [a3];
      }
    }
    assert Group(rs) == [Finish(a2), Finish(a3)];
  }

  /** The same three reviews of one user, through the endpoint: a total of 3 and the two buckets. */
  lemma TwoPositivesOneNegativeStats()
    ensures var good := Review("u1", "Phone", "great and amazing", Positive, 0.6, 5.0);
            var fine := Review("u1", "Phone", "good enough phone", Positive, 0.4, 4.0);
            var poor := Review("u1", "Cable", "terrible, broke", Negative, -0.2, 2.0);
      SentimentStats([good, fine, poor], "u1")
        == Stats(3, [Bucket(Positive, 2, 0.5, 4.5), Bucket(Negative, 1, -0.2, 2.0)])
  {
    var good := Review("u1", "Phone", "great and amazing", Positive, 0.6, 5.0);
    var fine := Review("u1", "Phone", "good enough phone", Positive, 0.4, 4.0);
    var poor := Review("u1", "Cable", "terrible, broke", Negative, -0.2, 2.0);
    OwnedByAll([good, fine, poor], "u1");
    TwoPositivesOneNegative();
  }
}
