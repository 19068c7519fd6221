/** News headlines and their aggregated sentiment (finbert_news_model.py).
    The article list fetched from the market-data provider and the FinBERT
    call are supplied by the caller. */
module NewsSentiment {
  import opened Outcomes
  import opened Sentiment
  import VisionMission

  /** One entry of the provider's news list: `article['content']`. */
  datatype Article = Article(title: string, summary: string)

  /** At most this many articles are considered. */
  const MaxArticles := 10

  /** The articles `fetch_top_news` keeps: the first ten. */
  function TopArticles(news: seq<Article>): (top: seq<Article>)
    ensures |top| == if |news| < MaxArticles then |news| else MaxArticles
    ensures top == news[..|top|]
  {
    if |news| < MaxArticles then news else news[..MaxArticles]
  }

  function Titles(articles: seq<Article>): (ts: seq<string>)
    ensures |ts| == |articles|
    ensures forall i :: 0 <= i < |articles| ==> ts[i] == articles[i].title
  {
    seq(|articles|, i requires 0 <= i < |articles| => articles[i].title)
  }

  function Summaries(articles: seq<Article>): (ss: seq<string>)
    ensures |ss| == |articles|
    ensures forall i :: 0 <= i < |articles| ==> ss[i] == articles[i].summary
  {
    seq(|articles|, i requires 0 <= i < |articles| => articles[i].summary)
  }

  /** `fetch_top_news` after the network call: the titles and summaries of
      the first ten articles, in article order. */
  method FetchTopNews(news: seq<Article>) returns (headlines: seq<string>, summary: seq<string>)
    ensures |headlines| == |summary| == if |news| < MaxArticles then |news| else MaxArticles
    ensures forall i :: 0 <= i < |headlines| ==> headlines[i] == news[i].title && summary[i] == news[i].summary
  {
    var top := TopArticles(news);
    headlines, summary := [], [];
    for i := 0 to |top|
      invariant |headlines| == |summary| == i
      invariant forall j :: 0 <= j < i ==> headlines[j] == top[j].title && summary[j] == top[j].summary
    {
      headlines := headlines + [top[i].title];
      summary := summary + [top[i].summary];
    }
  }

  /** Plain arg-max, with no confidence floor. */
  function InterpretSentiment(scores: Dist): (r: Label)
    ensures IsFirstMax(scores, r)
  {
    ArgMax(scores)
  }

  /** The news rule and the vision/mission rule disagree only when no score
      clears the confidence floor, and then the latter says neutral. */
  lemma RulesDifferOnlyBelowFloor(scores: Dist)
    ensures InterpretSentiment(scores) != VisionMission.InterpretSentiment(scores) ==>
      MaxScore(scores) <= 0.5 && VisionMission.InterpretSentiment(scores) == Neutral
  {
    if MaxScore(scores) > 0.5 {
      VisionMission.ConfidentAgreesWithArgMax(scores);
    }
  }

  /** Three headlines scored {0.1, 0.2, 0.7}, {0.3, 0.3, 0.4} and
      {0.2, 0.5, 0.3} average to {0.2, 1/3, 7/15}: positive by plain arg-max,
      but neutral under the confidence floor, since no score exceeds 0.5. */
  lemma RulesDiverge(ds: seq<Dist>)
    requires ds == [Dist(0.1, 0.2, 0.7), Dist(0.3, 0.3, 0.4), Dist(0.2, 0.5, 0.3)]
    ensures Average(ds) == Dist(0.2, 1.0 / 3.0, 7.0 / 15.0)
    ensures InterpretSentiment(Average(ds)) == Positive
    ensures VisionMission.InterpretSentiment(Average(ds)) == Neutral
  {
    assert ds[..2][..1] == ds[..1];
    assert Sum(ds[..1]) == Plus(Sum([]), ds[0]);
    assert Sum(ds[..2]) == Plus(Sum(ds[..1]), ds[1]);
    assert Sum(ds) == Plus(Sum(ds[..2]), ds[2]);
  }

  /** `analyze_news_sentiment`: classifies every text, sums each label's
      scores, divides by the number of texts and interprets the averaged
      scores by plain arg-max. An empty list divides zero by zero. */
  method AnalyzeNewsSentiment(newsList: seq<string>, analyzeSentiment: string -> Dist)
    returns (r: Result<(Label, Dist)>)
    ensures r.Err? <==> |newsList| == 0
    ensures r.Err? ==> r.error == ZeroDivision
    ensures r.Ok? ==> r.value.1 == Average(Classified(newsList, analyzeSentiment))
    ensures r.Ok? ==> IsFirstMax(r.value.1, r.value.0)
  {
    var totalScores := Zero;
    var i := 0;
    while i < |newsList|
      invariant 0 <= i <= |newsList|
      invariant totalScores == Sum(Classified(newsList[..i], analyzeSentiment))
    {
      var scores := analyzeSentiment(newsList[i]);
      assert Classified(newsList[..i + 1], analyzeSentiment)
          == Classified(newsList[..i], analyzeSentiment) + [scores];
      totalScores := AddScores(totalScores, scores);
      i := i + 1;
    }
    assert newsList[..i] == newsList;
    var numHeadlines := |newsList|;
    if numHeadlines == 0 {
      return Err(ZeroDivision);
    }
    var n := numHeadlines as real;
    var avgScores := Dist(totalScores.negative / n, totalScores.neutral / n, totalScores.positive / n);
    r := Ok((InterpretSentiment(avgScores), avgScores));
  }

  /** The classifier's score dictionary for every text, in order. */
  function Classified(texts: seq<string>, analyzeSentiment: string -> Dist): (ds: seq<Dist>)
    ensures |ds| == |texts|
    ensures forall i :: 0 <= i < |texts| ==> ds[i] == analyzeSentiment(texts[i])
  {
    seq(|texts|, i requires 0 <= i < |texts| => analyzeSentiment(texts[i]))
  }
}
