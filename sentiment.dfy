/**
  The labelling and normalisation that `analyzeSentiment` applies to the raw
  score of the lexical sentiment analyser, and an abstract model of that raw
  score as a sum of lexicon weights.
 */
module Sentiment {

  /** The three values the `sentiment` field of a review may take. */
  datatype Label = Positive | Negative | Neutral

  /** What `analyzeSentiment` returns: a label and a normalised score. */
  datatype Analysis = Analysis(sentiment: Label, score: real)

  /** The calibration constant: a raw score of 5 or more saturates the normalised score. */
  const Divisor: real := 5.0

  /** The closed interval [-1, 1] every normalised score lies in. */
  predicate InUnitRange(score: real) {
    -1.0 <= score <= 1.0
  }

  /** The sign of a score names its label. */
  predicate Consistent(sentiment: Label, score: real) {
    && (score > 0.0 <==> sentiment == Positive)
    && (score < 0.0 <==> sentiment == Negative)
    && (score == 0.0 <==> sentiment == Neutral)
  }

  function Min(x: real, y: real): real {
    if x <= y then x else y
  }

  function Max(x: real, y: real): real {
    if x >= y then x else y
  }

  /**
    `analyzeSentiment` applied to the analyser's raw integer score: the label
    follows the sign of `raw`, and the score is `raw / 5` clamped to [-1, 1].
    The neutral branch keeps the raw score itself, which is 0 there.
   */
  function Analyze(raw: int): (a: Analysis)
    ensures a.sentiment == Positive <==> raw > 0
    ensures a.sentiment == Negative <==> raw < 0
    ensures a.sentiment == Neutral <==> raw == 0
    ensures InUnitRange(a.score)
    ensures Consistent(a.sentiment, a.score)
  {
    if raw > 0 then
      Analysis(Positive, Min(raw as real / Divisor, 1.0))
    else if raw < 0 then
      Analysis(Negative, Max(raw as real / Divisor, -1.0))
    else
      Analysis(Neutral, raw as real)
  }

  /** A raw score of 5 or more gives exactly 1. */
  lemma SaturatesAbove(raw: int)
    requires raw >= 5
    ensures Analyze(raw) == Analysis(Positive, 1.0)
  {
  }

  /** A raw score of -5 or less gives exactly -1. */
  lemma SaturatesBelow(raw: int)
    requires raw <= -5
    ensures Analyze(raw) == Analysis(Negative, -1.0)
  {
  }

  /** Strictly between the saturation points the score is the raw score over 5. */
  lemma LinearInside(raw: int)
    requires -5 < raw < 5
    ensures Analyze(raw).score == raw as real / 5.0
    ensures -1.0 < Analyze(raw).score < 1.0
  {
  }

  /** A neutral label always carries the score 0, and only it does. */
  lemma NeutralIffZeroScore(raw: int)
    ensures Analyze(raw).sentiment == Neutral <==> Analyze(raw).score == 0.0
    ensures Analyze(raw).sentiment == Neutral ==> Analyze(raw) == Analysis(Neutral, 0.0)
  {
  }

  /** The normalised score never decreases when the raw score grows. */
  lemma ScoreMonotone(raw1: int, raw2: int)
    requires raw1 <= raw2
    ensures Analyze(raw1).score <= Analyze(raw2).score
  {
  }

  // The analyser's raw score, modelled as the sum of the lexicon weights of
  // the text's tokens. Tokenisation and the lexicon's contents belong to the
  // third-party library and are parameters here.

  /** The weight of one token: its lexicon entry, or 0 when it has none. */
  function Weight(lexicon: map<string, int>, token: string): int {
    if token in lexicon then lexicon[token] else 0
  }

  /** The raw score of a sequence of tokens. */
  function RawScore(lexicon: map<string, int>, tokens: seq<string>): (r: int)
    ensures (forall i :: 0 <= i < |tokens| ==> Weight(lexicon, tokens[i]) >= 0) ==> r >= 0
    ensures (forall i :: 0 <= i < |tokens| ==> Weight(lexicon, tokens[i]) <= 0) ==> r <= 0
  {
    if tokens == [] then 0 else Weight(lexicon, tokens[0]) + RawScore(lexicon, tokens[1..])
  }

  /** The raw score of a concatenation is the sum of the raw scores of its parts. */
  lemma {:induction false} RawScoreAppend(lexicon: map<string, int>, a: seq<string>, b: seq<string>)
    ensures RawScore(lexicon, a + b) == RawScore(lexicon, a) + RawScore(lexicon, b)
  {
    if a == [] {
      assert a + b == b;
    } else {
      assert (a + b)[1..] == a[1..] + b;
      RawScoreAppend(lexicon, a[1..], b);
    }
  }

  /**
    Inserting one positive-weight token anywhere in a text raises its raw
    score and never lowers its normalised score.
   */
  lemma ExtraPositiveToken(lexicon: map<string, int>, before: seq<string>, token: string, after: seq<string>)
    requires Weight(lexicon, token) > 0
    ensures RawScore(lexicon, before + [token] + after) > RawScore(lexicon, before + after)
    ensures Analyze(RawScore(lexicon, before + [token] + after)).score
         >= Analyze(RawScore(lexicon, before + after)).score
  {
    RawScoreAppend(lexicon, before + [token], after);
    RawScoreAppend(lexicon, before, [token]);
    RawScoreAppend(lexicon, before, after);
    assert RawScore(lexicon, [token]) == Weight(lexicon, token) by {
      assert [token][1..] == [];
    }
    ScoreMonotone(RawScore(lexicon, before + after), RawScore(lexicon, before + [token] + after));
  }

  /** A text none of whose tokens is in the lexicon is Neutral with score 0. */
  lemma {:induction false} NoLexiconHitsIsNeutral(lexicon: map<string, int>, tokens: seq<string>)
    requires forall i :: 0 <= i < |tokens| ==> tokens[i] !in lexicon
    ensures RawScore(lexicon, tokens) == 0
    ensures Analyze(RawScore(lexicon, tokens)) == Analysis(Neutral, 0.0)
  {
    if tokens != [] {
      NoLexiconHitsIsNeutral(lexicon, tokens[1..]);
    }
  }

  /**
    Three texts over any lexicon that weighs "great" 3, "amazing" 4,
    "terrible" -3 and "awful" -3 and has no entry for the other words.
   */
  lemma ThreeTexts(lexicon: map<string, int>)
    requires lexicon.Keys !! {"this", "product", "is", "and", "a"}
    requires "great" in lexicon && lexicon["great"] == 3
    requires "amazing" in lexicon && lexicon["amazing"] == 4
    requires "terrible" in lexicon && lexicon["terrible"] == -3
    requires "awful" in lexicon && lexicon["awful"] == -3
    ensures Analyze(RawScore(lexicon, ["this", "product", "is", "great", "and", "amazing"]))
         == Analysis(Positive, 1.0)
    ensures Analyze(RawScore(lexicon, ["this", "product", "is", "terrible", "and", "awful"]))
         == Analysis(Negative, -1.0)
    ensures Analyze(RawScore(lexicon, ["this", "is", "a", "product"])) == Analysis(Neutral, 0.0)
  {
    var pos := ["this", "product", "is", "great", "and", "amazing"];
    var neg := ["this", "product", "is", "terrible", "and", "awful"];
    RawScoreAppend(lexicon, pos[..3], pos[3..]);
    RawScoreAppend(lexicon, neg[..3], neg[3..]);
    NoLexiconHitsIsNeutral(lexicon, pos[..3]);
    assert neg[..3] == pos[..3];
    NoLexiconHitsIsNeutral(lexicon, ["this", "is", "a", "product"]);
    assert pos[..3] + pos[3..] == pos;
    assert neg[..3] + neg[3..] == neg;
    assert "and" !in lexicon;
    assert RawScore(lexicon, ["amazing"]) == 4 by { assert ["amazing"][1..] == []; }
    assert RawScore(lexicon, ["and", "amazing"]) == 4 by { assert ["and", "amazing"][1..] == ["amazing"]; }
    assert RawScore(lexicon, pos[3..]) == 7 by { assert pos[3..] == ["great", "and", "amazing"]; }
    assert RawScore(lexicon, ["awful"]) == -3 by { assert ["awful"][1..] == []; }
    assert RawScore(lexicon, ["and", "awful"]) == -3 by { assert ["and", "awful"][1..] == ["awful"]; }
    assert RawScore(lexicon, neg[3..]) == -6 by { assert neg[3..] == ["terrible", "and", "awful"]; }
  }
}
