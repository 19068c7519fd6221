/** Interpretation and aggregation of vision/mission statement sentiment
    (finbert_vision_mission_model.py). The FinBERT call itself is supplied
    by the caller as a function from text to a score dictionary. */
module VisionMission {
  import opened Outcomes
  import opened Sentiment

  /** The classification rule with a confidence floor: the arg-max label is
      kept only when its score is strictly above one half, otherwise the
      statement counts as neutral. */
  function InterpretSentiment(scores: Dist): (r: Label)
    ensures MaxScore(scores) > 0.5 ==> IsFirstMax(scores, r)
    ensures MaxScore(scores) <= 0.5 ==> r == Neutral
    ensures r != Neutral ==> IsFirstMax(scores, r) && Score(scores, r) > 0.5
  {
    var maxLabel := ArgMax(scores);
    var maxScore := Score(scores, maxLabel);
    if maxScore > 0.5 then maxLabel else Neutral
  }

  /** With a confident maximum, the floor rule and the plain arg-max agree. */
  lemma ConfidentAgreesWithArgMax(scores: Dist)
    requires MaxScore(scores) > 0.5
    ensures InterpretSentiment(scores) == ArgMax(scores)
  {
    FirstMaxUnique(scores, InterpretSentiment(scores), ArgMax(scores));
  }

  /** `overall_sentiment`: sums each label's scores over the statements (the
      values of the input dictionary, in insertion order), divides by their
      number, and interprets the averaged scores with the floor rule.
      An empty input divides zero by zero. */
  method OverallSentiment(sentences: seq<Dist>) returns (r: Result<(Label, Dist)>)
    ensures r.Err? <==> |sentences| == 0
    ensures r.Err? ==> r.error == ZeroDivision
    ensures r.Ok? ==> r.value.1 == Average(sentences)
    ensures r.Ok? ==> r.value.0 == InterpretSentiment(r.value.1)
  {
    var totalScores := Zero;
    var i := 0;
    while i < |sentences|
      invariant 0 <= i <= |sentences|
      invariant totalScores == Sum(sentences[..i])
    {
      assert sentences[..i + 1][..i] == sentences[..i];
      totalScores := AddScores(totalScores, sentences[i]);
      i := i + 1;
    }
    assert sentences[..i] == sentences;
    var numSentences := |sentences|;
    if numSentences == 0 {
      return Err(ZeroDivision);
    }
    var n := numSentences as real;
    var avgScores := Dist(totalScores.negative / n, totalScores.neutral / n, totalScores.positive / n);
    r := Ok((InterpretSentiment(avgScores), avgScores));
  }
}
