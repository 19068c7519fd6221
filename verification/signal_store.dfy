/** The service layer of app.py: the process-wide store of the latest value
    of every signal, the endpoints that overwrite it, and the gate that lets
    the investment analysis run only once the four required signals are in. */
module SignalStore {
  import opened Outcomes
  import opened Sentiment
  import VisionMission
  import NewsSentiment
  import StockTrend
  import FinancialData
  import CreditRating

  /** The keys `stored_data` is ever written under. */
  datatype Key =
    | StockTrendKey | NewsSentimentKey | VisionSentimentKey
    | MissionSentimentKey | OverallVmSentimentKey | CreditRatingKey
  {
    /** The dictionary key itself. */
    function Name(): string
    {
      match this
      case StockTrendKey => "stock_trend"
      case NewsSentimentKey => "news_sentiment"
      case VisionSentimentKey => "vision_sentiment"
      case MissionSentimentKey => "mission_sentiment"
      case OverallVmSentimentKey => "overall_vm_sentiment"
      case CreditRatingKey => "credit_rating"
    }
  }

  /** The keys the investment analysis needs; the separate vision and
      mission labels are not among them. */
  const RequiredKeys: set<Key> := {CreditRatingKey, NewsSentimentKey, StockTrendKey, OverallVmSentimentKey}

  const MissingDataDetail := "Missing required data for investment analysis"

  /** A stored value. */
  datatype Signal =
    | Trend(currentTrend: string)                                          // {"current_trend": ...}
    | News(overallSentiment: Label, avgScore: Dist, headlines: seq<string>) // {"overall_sentiment", "avg_score", "headlines"}
    | Verdict(sentiment: Label)                                                // a bare sentiment label
    | Credit(rating: CreditRating.Rating)                                  // {"ratings", "grade", "risk"}

  /** The six keys are different strings, so modelling them as distinct
      constructors loses nothing. */
  lemma KeyNamesDistinct(j: Key, k: Key)
    ensures j.Name() == k.Name() <==> j == k
  {
    if j != k {
      assert |j.Name()| != |k.Name()|;
    }
  }

  /** The shape each endpoint writes under its key. */
  predicate WellShaped(key: Key, s: Signal)
  {
    match key
    case StockTrendKey => s.Trend?
    case NewsSentimentKey => s.News?
    case CreditRatingKey => s.Credit?
    case VisionSentimentKey | MissionSentimentKey | OverallVmSentimentKey => s.Verdict?
  }

  /** Every stored value has the shape its key's endpoint writes. */
  ghost predicate WellFormed(data: map<Key, Signal>)
  {
    forall k :: k in data ==> WellShaped(k, data[k])
  }

  /** Writing a well-shaped value keeps the store well formed. */
  lemma WriteKeepsWellFormed(data: map<Key, Signal>, key: Key, s: Signal)
    requires WellFormed(data) && WellShaped(key, s)
    ensures WellFormed(data[key := s])
  {
  }

  /** The four values handed to the advisory composer. */
  datatype AdvisoryRequest = AdvisoryRequest(
    creditRating: CreditRating.Rating,
    newsSentiment: Label,
    stockTrend: string,
    visionMissionSentiment: Label)

  /** `stored_data`. */
  class Store {
    var data: map<Key, Signal>

    /** Only the endpoints write, each under its own keys. */
    ghost predicate Valid()
      reads this
    {
      WellFormed(data)
    }

    /** The store is empty when the process starts. */
    constructor ()
      ensures Valid() && data == map[]
    {
      data := map[];
    }

    /** `/stock-trend/{ticker}` given the forecast's `yhat` column: stores and
        returns the trend message; an empty forecast fails with a 500 and
        leaves the store as it was. */
    method GetStockTrend(yhat: seq<real>) returns (r: Result<Signal>)
      requires Valid()
      modifies this
      ensures Valid()
      ensures r.Ok? <==> |yhat| > 0
      ensures r.Ok? ==> r.value == Trend(StockTrend.AnalyzeTrend(yhat).value)
      ensures r.Ok? ==> data == old(data)[StockTrendKey := r.value]
      ensures r.Err? ==> r.error == CatchAll(IndexOutOfRange) && data == old(data)
    {
      var trend := StockTrend.AnalyzeTrend(yhat);
      if trend.Err? {
        return Err(CatchAll(trend.error));
      }
      WriteKeepsWellFormed(data, StockTrendKey, Trend(trend.value));
      data := data[StockTrendKey := Trend(trend.value)];
      r := Ok(data[StockTrendKey]);
    }

    /** `/sentiment-news/{ticker}` given the provider's article list and the
        classifier: stores the overall label, the averaged scores of the
        summaries and the headlines. No article means a zero division, a 500,
        and an unchanged store. */
    method GetNewsSentiment(news: seq<NewsSentiment.Article>, analyzeSentiment: string -> Dist)
      returns (r: Result<Signal>)
      requires Valid()
      modifies this
      ensures Valid()
      ensures r.Ok? <==> |news| > 0
      ensures r.Ok? ==>
        var top := NewsSentiment.TopArticles(news);
        var avg := Average(NewsSentiment.Classified(NewsSentiment.Summaries(top), analyzeSentiment));
        && r.value.News?
        && r.value.headlines == NewsSentiment.Titles(top)
        && r.value.avgScore == avg
        && IsFirstMax(avg, r.value.overallSentiment)
      ensures r.Ok? ==> data == old(data)[NewsSentimentKey := r.value]
      ensures r.Err? ==> r.error == CatchAll(ZeroDivision) && data == old(data)
    {
      var headlines, summaries := NewsSentiment.FetchTopNews(news);
      ghost var top := NewsSentiment.TopArticles(news);
      assert headlines == NewsSentiment.Titles(top);
      assert summaries == NewsSentiment.Summaries(top);
      var aggregate := NewsSentiment.AnalyzeNewsSentiment(summaries, analyzeSentiment);
      if aggregate.Err? {
        return Err(CatchAll(aggregate.error));
      }
      var (overallSent, avgScore) := aggregate.value;
      WriteKeepsWellFormed(data, NewsSentimentKey, News(overallSent, avgScore, headlines));
      data := data[NewsSentimentKey := News(overallSent, avgScore, headlines)];
      r := Ok(data[NewsSentimentKey]);
    }

    /** `/vision-mission-sentiments`: classifies both texts, stores each one's
        floor-rule label and the label of their average, and returns the
        latter. Exactly these three keys change. */
    method SubmitVisionMission(vision: string, mission: string, analyzeSentiment: string -> Dist)
      returns (overall: Label)
      requires Valid()
      modifies this
      ensures Valid()
      ensures overall == VisionMission.InterpretSentiment(Average([analyzeSentiment(vision), analyzeSentiment(mission)]))
      ensures data == old(data)
        [VisionSentimentKey := Verdict(VisionMission.InterpretSentiment(analyzeSentiment(vision)))]
        [MissionSentimentKey := Verdict(VisionMission.InterpretSentiment(analyzeSentiment(mission)))]
        [OverallVmSentimentKey := Verdict(overall)]
    {
      var visionScores := analyzeSentiment(vision);
      var missionScores := analyzeSentiment(mission);
      WriteKeepsWellFormed(data, VisionSentimentKey, Verdict(VisionMission.InterpretSentiment(visionScores)));
      data := data[VisionSentimentKey := Verdict(VisionMission.InterpretSentiment(visionScores))];
      WriteKeepsWellFormed(data, MissionSentimentKey, Verdict(VisionMission.InterpretSentiment(missionScores)));
      data := data[MissionSentimentKey := Verdict(VisionMission.InterpretSentiment(missionScores))];
      var aggregate := VisionMission.OverallSentiment([visionScores, missionScores]);
      overall := aggregate.value.0;
      WriteKeepsWellFormed(data, OverallVmSentimentKey, Verdict(overall));
      data := data[OverallVmSentimentKey := Verdict(overall)];
    }

    /** `/credit-rating/{ticker}` given the provider's three statements, its
        `info` record and the trained classifier: derives the features,
        predicts a class and stores the three table entries for it. A
        statement with a single column fails with a 500 and leaves the store
        as it was. */
    method GetCreditRating(
      financials: Option<FinancialData.Frame>, balanceSheet: Option<FinancialData.Frame>,
      cashflow: Option<FinancialData.Frame>, info: map<string, Option<real>>,
      predict: FinancialData.Features -> int)
      returns (r: Result<CreditRating.Rating>)
      requires Valid()
      modifies this
      ensures Valid()
      ensures r.Ok? <==> FinancialData.StatementFeatures(financials, balanceSheet, cashflow, info).Ok?
      ensures r.Ok? ==>
        r.value == CreditRating.MapRating(predict(FinancialData.StatementFeatures(financials, balanceSheet, cashflow, info).value))
      ensures r.Ok? ==> data == old(data)[CreditRatingKey := Credit(r.value)]
      ensures r.Err? ==> r.error == CatchAll(IndexOutOfRange) && data == old(data)
    {
      var features := FinancialData.StatementFeatures(financials, balanceSheet, cashflow, info);
      if features.Err? {
        return Err(CatchAll(features.error));
      }
      var rating := CreditRating.MapRating(predict(features.value));
      WriteKeepsWellFormed(data, CreditRatingKey, Credit(rating));
      data := data[CreditRatingKey := Credit(rating)];
      r := Ok(rating);
    }

    /** The gate of `/investment-analysis`: a 400 unless the four required
        keys are present; otherwise the whole credit record, the news label,
        the trend message and the overall vision/mission label, unmodified.
        It only reads the store. */
    method TrySynthesize() returns (r: Result<AdvisoryRequest>)
      requires Valid()
      ensures r.Err? <==> !(RequiredKeys <= data.Keys)
      ensures r.Err? ==> r.error == HttpException(400, MissingDataDetail)
      ensures r.Ok? ==>
        && data[CreditRatingKey] == Credit(r.value.creditRating)
        && data[NewsSentimentKey].News? && data[NewsSentimentKey].overallSentiment == r.value.newsSentiment
        && data[StockTrendKey] == Trend(r.value.stockTrend)
        && data[OverallVmSentimentKey] == Verdict(r.value.visionMissionSentiment)
    {
      if !(CreditRatingKey in data && NewsSentimentKey in data && StockTrendKey in data && OverallVmSentimentKey in data) {
        return Err(HttpException(400, MissingDataDetail));
      }
      assert WellShaped(CreditRatingKey, data[CreditRatingKey]);
      assert WellShaped(NewsSentimentKey, data[NewsSentimentKey]);
      assert WellShaped(StockTrendKey, data[StockTrendKey]);
      assert WellShaped(OverallVmSentimentKey, data[OverallVmSentimentKey]);
      r := Ok(AdvisoryRequest(
        data[CreditRatingKey].rating,
        data[NewsSentimentKey].overallSentiment,
        data[StockTrendKey].currentTrend,
        data[OverallVmSentimentKey].sentiment));
    }

    /** `/investment-analysis` with the composer supplied: the gate's 400 is
        caught by the endpoint's own catch-all and reaches the caller as a
        500 whose detail starts with "400: "; a composer failure is a 500 too.
        No recommendation is produced from a partial store. */
    method GetExpertAdvice(getInvestmentAdvice: AdvisoryRequest -> Result<string>)
      returns (r: Result<string>)
      requires Valid()
      ensures !(RequiredKeys <= data.Keys) ==> r == Err(HttpException(500, "400: " + MissingDataDetail))
      ensures RequiredKeys <= data.Keys ==>
        assert WellShaped(CreditRatingKey, data[CreditRatingKey]) && WellShaped(NewsSentimentKey, data[NewsSentimentKey]);
        assert WellShaped(StockTrendKey, data[StockTrendKey]) && WellShaped(OverallVmSentimentKey, data[OverallVmSentimentKey]);
        var request := AdvisoryRequest(
          data[CreditRatingKey].rating, data[NewsSentimentKey].overallSentiment,
          data[StockTrendKey].currentTrend, data[OverallVmSentimentKey].sentiment);
        r == match getInvestmentAdvice(request)
             case Ok(decision) => Ok(decision)
             case Err(e) => Err(CatchAll(e))
    {
      var request := TrySynthesize();
      if request.Err? {
        CatchAllMasksClientError(MissingDataDetail);
        return Err(CatchAll(request.error));
      }
      var decision := getInvestmentAdvice(request.value);
      if decision.Err? {
        return Err(CatchAll(decision.error));
      }
      r := decision;
    }

    /** `/investment-analysis` as it is evidently meant to behave: an
        HTTPException raised inside the handler (the gate's 400) reaches the
        caller unchanged, and only other failures become a 500. */
    method GetExpertAdviceKeepingClientErrors(getInvestmentAdvice: AdvisoryRequest -> Result<string>)
      returns (r: Result<string>)
      requires Valid()
      ensures !(RequiredKeys <= data.Keys) ==> r == Err(HttpException(400, MissingDataDetail))
      ensures RequiredKeys <= data.Keys ==>
        assert WellShaped(CreditRatingKey, data[CreditRatingKey]) && WellShaped(NewsSentimentKey, data[NewsSentimentKey]);
        assert WellShaped(StockTrendKey, data[StockTrendKey]) && WellShaped(OverallVmSentimentKey, data[OverallVmSentimentKey]);
        var request := AdvisoryRequest(
          data[CreditRatingKey].rating, data[NewsSentimentKey].overallSentiment,
          data[StockTrendKey].currentTrend, data[OverallVmSentimentKey].sentiment);
        r == match getInvestmentAdvice(request)
             case Ok(decision) => Ok(decision)
             case Err(e) => Err(if e.HttpException? then e else CatchAll(e))
    {
      var request := TrySynthesize();
      if request.Err? {
        return Err(request.error);
      }
      var decision := getInvestmentAdvice(request.value);
      if decision.Err? {
        return Err(if decision.error.HttpException? then decision.error else CatchAll(decision.error));
      }
      r := decision;
    }
  }

  /** Example: one article whose summary scores {0.1, 0.2, 0.7} averages to
      itself and reads as positive. */
  lemma OneArticleExample(upbeat: Dist, classify: string -> Dist)
    requires upbeat == Dist(0.1, 0.2, 0.7) && classify("summary") == upbeat
    ensures
      var top := NewsSentiment.TopArticles([NewsSentiment.Article("title", "summary")]);
      var avg := Average(NewsSentiment.Classified(NewsSentiment.Summaries(top), classify));
      avg == upbeat && (forall l :: IsFirstMax(avg, l) ==> l == Positive)
  {
    var top := NewsSentiment.TopArticles([NewsSentiment.Article("title", "summary")]);
    assert top == [NewsSentiment.Article("title", "summary")];
    var ds := NewsSentiment.Classified(NewsSentiment.Summaries(top), classify);
    assert ds == [upbeat];
    assert Sum(ds) == Plus(Sum([]), upbeat);
    forall l | IsFirstMax(upbeat, l) ensures l == Positive {
      FirstMaxUnique(upbeat, l, ArgMax(upbeat));
    }
  }

  /** Example: two statements that both score {0.2, 0.35, 0.45} average to
      the same scores, whose first maximum is positive but does not clear the
      floor, so the overall label is neutral. */
  lemma UndecidedStatementsExample(undecided: Dist)
    requires undecided == Dist(0.2, 0.35, 0.45)
    ensures Average([undecided, undecided]) == undecided
    ensures ArgMax(undecided) == Positive && MaxScore(undecided) <= 0.5
    ensures VisionMission.InterpretSentiment(Average([undecided, undecided])) == Neutral
  {
    assert [undecided, undecided][..1] == [undecided];
    assert Sum([undecided]) == Plus(Sum([]), undecided);
    assert Sum([undecided, undecided]) == Plus(Sum([undecided]), undecided);
  }

  /** A fresh store given the news sentiment, the trend and the
      vision/mission statements, but no credit rating: the analysis is
      refused. As written the caller sees the gate's 400 as a 500; with
      client errors passed through it sees the 400 itself. */
  method MissingCreditExample(
    news: seq<NewsSentiment.Article>, yhat: seq<real>, vision: string, mission: string,
    classify: string -> Dist, compose: AdvisoryRequest -> Result<string>)
    returns (advice: Result<string>, intended: Result<string>)
    requires |news| > 0 && |yhat| > 0
    ensures advice == Err(HttpException(500, "400: " + MissingDataDetail))
    ensures intended == Err(HttpException(400, MissingDataDetail))
  {
    var store := new Store();
    var headlines := store.GetNewsSentiment(news, classify);
    var trend := store.GetStockTrend(yhat);
    var vm := store.SubmitVisionMission(vision, mission, classify);
    assert CreditRatingKey !in store.data;
    advice := store.GetExpertAdvice(compose);
    intended := store.GetExpertAdviceKeepingClientErrors(compose);
  }
}
