# Investment-advisory signal pipeline: a Dafny model

The service is a small FastAPI back end. It collects four signals about a listed
company, each produced by a separate endpoint:

- a credit rating: financial statements become a 27-column feature row, which an
  XGBoost classifier maps to one of four classes, and three parallel tables turn
  the class into a rating bucket, a grade and a risk level;
- a news sentiment: FinBERT scores for the summaries of the ten latest articles,
  averaged per label and read by arg-max;
- a stock trend: the sign of the slope over the last ten points of a Prophet
  forecast;
- a vision/mission sentiment: FinBERT scores for two statements, averaged and
  read by arg-max with a 0.5 confidence floor.

Each endpoint overwrites its own entries in one process-wide dictionary. The
`/investment-analysis` endpoint hands four stored values to an LLM composer,
but only once all four signals are present.

The model has eight modules, one file each:

| file | module | models |
|---|---|---|
| `outcomes.dfy` | `Outcomes` | the exceptions raised along the pipeline; the `except Exception` wrapper of every endpoint |
| `sentiment.dfy` | `Sentiment` | FinBERT's three labels; score dictionaries; Python's first-wins arg-max; the per-label average (shared by both sentiment modules) |
| `vision_mission.dfy` | `VisionMission` | `finbert_vision_mission_model.py` |
| `news.dfy` | `NewsSentiment` | `finbert_news_model.py` |
| `stock_trend.dfy` | `StockTrend` | `analyze_trend` of `stock_trend_model.py` |
| `financial_data.dfy` | `FinancialData` | `get_financial_statements` and `get_financial_data` of `get_Data.py` |
| `credit_rating.dfy` | `CreditRating` | the three lookup tables of `app.py` |
| `signal_store.dfy` | `SignalStore` | `stored_data` as the class `Store`, the endpoints that write it, and the gate of `/investment-analysis` |

Three behaviours of the code are easy to miss:

- **Unknown class index.** The `ratings` entry for an unknown class index is the
  string `"Unknown"`. `investment_mapping.get(k, "Unknown")` has no empty-list
  default.
- **Short forecasts.** A forecast of fewer than ten points is not rejected. The
  slope is still the tail's end minus its start, divided by ten. A single point
  reads as stable, and only an empty forecast fails.
- **Missing-data status.** The gate's "missing data" error raises a 400, but the
  endpoint's own catch-all turns it into a 500 whose detail is
  `"400: Missing required data for investment analysis"`. The caller never sees
  the 400 (see Findings).

The loops that update variables are methods with loop invariants:

| source loop | method |
|---|---|
| the two aggregation loops | `VisionMission.OverallSentiment` and `NewsSentiment.AnalyzeNewsSentiment`, which share `Sentiment.AddScores` |
| the headline loop | `NewsSentiment.FetchTopNews` |

Each method is proved against a specification function: `Sentiment.Sum`,
`Sentiment.Average` or `NewsSentiment.TopArticles`.

`stored_data` is the `map` field of `SignalStore.Store`. Its endpoints are
methods that state the whole new map. Its keys are the six fixed dictionary
keys, written as constructors of `SignalStore.Key` whose `Name()` is the key
string.

## Model

| member | source | states |
|---|---|---|
| Outcomes.CatchAll | app.py:163-164 | every failure leaves an endpoint as a 500 whose detail is the printed exception, and an HTTPException prints as its status followed by its detail |
| Outcomes.Str | app.py:164 | an HTTPException prints as its three-digit status, ": " and its detail unchanged, so both can be read back |
| Outcomes.CatchAllMasksClientError | app.py:152-164 | a 400 raised inside a handler reaches the caller as a 500 whose detail starts with "400: " |
| Sentiment.ArgMax | finbert_vision_mission_model.py:26 | `max(scores, key=scores.get)` returns a label of maximal score and, on ties, the first one in insertion order (negative, neutral, positive) |
| Sentiment.LabelNamesDistinct | finbert_vision_mission_model.py:19 | the three label strings are pairwise different, so a stored label string names one label, and each label's rank is its position in the classifier's label list |
| Sentiment.FirstMaxUnique | finbert_news_model.py:41 | the first maximal label is unique, so any label with that property is the arg-max |
| Sentiment.Sum | finbert_vision_mission_model.py:35-39 | the accumulated scores equal, for every label, an independent recursive sum of that label's scores over the inputs (the same loop is finbert_news_model.py:47-52) |
| Sentiment.Average | finbert_vision_mission_model.py:41-42 | each label's average is its total over all inputs divided by their number (also finbert_news_model.py:54-55) |
| Sentiment.TotalPermutation | finbert_vision_mission_model.py:37-39 | the per-label totals do not depend on the order of the inputs |
| Sentiment.AverageIsOrderIndependent | finbert_vision_mission_model.py:37-42 | two permutations of the same inputs have the same averaged scores |
| Sentiment.AverageIsDistribution | finbert_vision_mission_model.py:37-42 | when every input lies in [0, 1] and sums to 1, so does the average |
| Sentiment.AddScores | finbert_vision_mission_model.py:38-39 | the key-by-key update adds every label's score to its running total |
| VisionMission.InterpretSentiment | finbert_vision_mission_model.py:24-31 | the result is the first maximal label when its score is strictly above 0.5, and neutral otherwise; a non-neutral result always clears the floor |
| VisionMission.ConfidentAgreesWithArgMax | finbert_vision_mission_model.py:26-30 | when the maximum score exceeds 0.5, the floor rule returns the plain arg-max |
| VisionMission.OverallSentiment | finbert_vision_mission_model.py:33-44 | fails with a zero division exactly on an empty input; otherwise returns the per-label average of the inputs and the floor-rule label of that average |
| NewsSentiment.TopArticles | finbert_news_model.py:15 | keeps the first min(n, 10) articles, in order |
| NewsSentiment.FetchTopNews | finbert_news_model.py:13-24 | headlines and summaries have equal length min(n, 10), and entry i is the title or summary of article i |
| NewsSentiment.InterpretSentiment | finbert_news_model.py:39-42 | plain arg-max with the first-wins tie-break and no threshold |
| NewsSentiment.RulesDifferOnlyBelowFloor | finbert_news_model.py:39-42 | the news rule and the vision/mission rule disagree only when the maximum score is at most 0.5, and then the vision/mission rule says neutral |
| NewsSentiment.RulesDiverge | finbert_news_model.py:45-56 | three headlines scored {0.1, 0.2, 0.7}, {0.3, 0.3, 0.4} and {0.2, 0.5, 0.3} average to {0.2, 1/3, 7/15}, which the news rule reads as positive and the vision/mission rule, with its 0.5 floor, as neutral |
| NewsSentiment.AnalyzeNewsSentiment | finbert_news_model.py:45-56 | fails with a zero division exactly on an empty list; otherwise returns the per-label average of the classifier's scores for the texts, in order, and its first maximal label |
| NewsSentiment.Classified | finbert_news_model.py:49-50 | the classifier is applied to every text, in order |
| StockTrend.Tail | stock_trend_model.py:55 | `tail(10)` is the last min(n, 10) values, in order |
| StockTrend.AnalyzeTrend | stock_trend_model.py:53-63 | fails exactly on an empty forecast; otherwise returns UPWARD, DOWNWARD or STABLE exactly when the last value is above, below or equal to the tail's first value, and the result depends on those two values alone |
| StockTrend.MessagesDistinct | stock_trend_model.py:59-63 | the three messages are different strings |
| StockTrend.TrendIgnoresInterior | stock_trend_model.py:56-63 | two forecasts of equal length whose tails start and end at the same values get the same trend |
| StockTrend.HistoryIsIgnored | stock_trend_model.py:55 | values before the last ten points never change the trend |
| StockTrend.SinglePointIsStable | stock_trend_model.py:55-56 | a one-point forecast is not rejected and reads as STABLE |
| StockTrend.TenPointExamples | stock_trend_model.py:56-63 | ten points from 100 to 120, 80 or 100 give UPWARD, DOWNWARD or STABLE, whatever lies in between |
| FinancialData.GetLatestTwoYears | get_Data.py:16-21 | a missing or empty table gives an empty dictionary; a table with one column fails; otherwise each row label maps to its value in column 1, or 0 where the value is missing |
| FinancialData.GetValue | get_Data.py:37-44 | a non-dictionary or a missing key reads as 0; a number reads as itself; a nested dictionary reads as its first value, and an empty one raises |
| FinancialData.IsEmpty | get_Data.py:17 | a table is empty exactly when it holds no cell, having no rows or no columns |
| FinancialData.AsContainer | get_Data.py:21 | on a column produced by `to_dict()`, `get_value` never fails and is a lookup with default 0 |
| FinancialData.GetFinancialStatements | get_Data.py:13-28 | succeeds exactly when all three statements do, and holds their columns and the unchanged `info` |
| FinancialData.InfoGet | get_Data.py:64-67 | `info.get(key, 0)` followed by `or 0` gives the stored number when the key holds one, and 0 when the key is missing or holds None |
| FinancialData.OrZero | get_Data.py:84-110 | `x or 0` keeps a number as it is (0 stays 0) and turns only None into 0 |
| FinancialData.Ratio | get_Data.py:75-80 | a guarded quotient is 0 for a zero denominator; otherwise it times the denominator gives the numerator |
| FinancialData.Columns | get_Data.py:83-111 | the feature row has one column per dictionary key, at the key's insertion position, named as the key is spelt and holding the dictionary's value under that key |
| FinancialData.FeatureNamesDistinct | get_Data.py:83-111 | the dictionary has 27 keys whose spellings are pairwise different |
| FinancialData.ColumnNamesDistinct | get_Data.py:83-111 | two keys are spelt alike exactly when they are the same key |
| FinancialData.DerivedColumns | get_Data.py:70-111 | read by key, "Sales/Turnover (Net)" equals "Revenue - Total"; "Net Cash Flow" is the sum of the operating and financing flows; "Debt in Current Liabilities - Total" is "Liabilities - Total" less "Long-Term Debt - Total"; "Total debt/total asset" and "EBTI/Revenue" are the guarded quotients of the columns they come from |
| FinancialData.GetFinancialData | get_Data.py:30-111 | succeeds exactly when every looked-up key is readable; gives each raw field from its statement and key and each `info` field with None and 0 read as 0; net cash flow is operating plus financing flow; current debt is liabilities minus long-term debt; sales equal revenue; the five ratios and EPS are guarded quotients |
| FinancialData.FinancialDataFromStatements | get_Data.py:30-61 | `get_financial_data` never raises on statements produced by `get_financial_statements` |
| FinancialData.StatementFeatures | get_Data.py:30-35 | the feature row exists exactly when the statements do |
| CreditRating.MapRating | app.py:140-144 | a class in 0..3 gives a non-empty bucket and a known grade and risk; any other class gives "Unknown" for all three entries, with `ratings` the string itself |
| CreditRating.TablesShareKeys | app.py:17-36 | the three tables have the same keys, namely 0..3 |
| CreditRating.GradeDeterminesClass | app.py:140-144 | the stored grade decodes back to the class it was looked up with |
| CreditRating.RiskDeterminesClass | app.py:140-144 | the stored risk level decodes back to the class it was looked up with |
| CreditRating.FieldsFromOneClass | app.py:140-144 | for a known class, bucket, grade and risk all come from that one class: grade and risk decode back to it and every code of the stored bucket lies in its band |
| CreditRating.FieldsAgree | app.py:140-144 | two records of known classes agree in grade, in risk or in bucket exactly when the classes are equal |
| CreditRating.RiskDistinct | app.py:31-36 | the four risk levels are different |
| CreditRating.BucketShapes | app.py:17-22 | the buckets have 4, 6, 6 and 5 codes, and bucket 0 is AAA, AA+, AA, AA- |
| CreditRating.BucketsDisjoint | app.py:17-22 | no rating code is in two buckets |
| CreditRating.BucketOfCode | app.py:17-22 | the bucket of a code is determined by its letters |
| SignalStore.KeyNamesDistinct | app.py:92-140 | the six dictionary keys are different strings |
| SignalStore.WriteKeepsWellFormed | app.py:38 | writing a value of the right shape keeps every stored value of the shape its key's endpoint writes |
| SignalStore.Store.constructor | app.py:38 | the store starts empty |
| SignalStore.Store.GetStockTrend | app.py:87-95 | on a non-empty forecast, only `stock_trend` changes, to the trend message; on an empty one the store is unchanged and the error is a 500 |
| SignalStore.Store.GetNewsSentiment | app.py:97-109 | with at least one article, only `news_sentiment` changes, to the arg-max label, the average over the first ten summaries and their headlines; with none the store is unchanged and the error is a 500 |
| SignalStore.Store.SubmitVisionMission | app.py:111-127 | exactly the vision, mission and overall entries change; the first two get each text's floor-rule label, the third the floor-rule label of the two-way average, which is returned |
| SignalStore.Store.GetCreditRating | app.py:129-147 | when the statements are usable, only `credit_rating` changes, to the table entries for the predicted class; otherwise the store is unchanged and the error is a 500 |
| SignalStore.Store.TrySynthesize | app.py:153-161 | fails with 400 exactly when one of the four required keys is missing (the separate vision and mission labels are not required); otherwise passes the whole credit record, the news label, the trend message and the overall label, unchanged |
| SignalStore.Store.GetExpertAdvice | app.py:150-164 | a partial store yields a 500 with detail "400: Missing required data for investment analysis"; a complete one yields the composer's answer for exactly the stored values, and a composer failure is a 500 |
| SignalStore.Store.GetExpertAdviceKeepingClientErrors | app.py:152-154 | with HTTP errors passed through, a partial store yields the gate's 400 itself |
| SignalStore.OneArticleExample | app.py:100-106 | one article scored {0.1, 0.2, 0.7} averages to itself and reads as positive |
| SignalStore.UndecidedStatementsExample | app.py:120-123 | two statements both scored {0.2, 0.35, 0.45} average to the same scores, whose first maximum is positive but not above 0.5, so they read as neutral |
| SignalStore.MissingCreditExample | app.py:150-164 | after the news, trend and vision/mission endpoints, but before any credit rating, the analysis is refused with the masked 500; with client errors passed through it is refused with the 400 |

## Left out

- Model loading, the network and the libraries are parameters or absent:
  - FinBERT (tokenizer, model, softmax) is a caller-supplied function from text to a score dictionary;
  - the XGBoost classifier is a caller-supplied function from the feature row to a class index;
  - the Prophet forecast is its `yhat` column;
  - the yfinance article list, statements and `info` record are inputs;
  - the Ollama composer (`AI_agent.py`) is a function from the four values to a decision or an error.
- `stock.news` entries are modelled as already holding a title and a summary. The KeyError of an entry without `content` is not modelled.
- Floating point: scores, prices and statement values are exact reals, so NaN, infinities and rounding are absent. `total_debt / total_assets` is exactly liabilities over assets in the model.
- The `info` record holds only numbers or None; other value types are not modelled.
- The library exceptions (ZeroDivisionError, IndexError) are named by kind, and their exact message texts are fixed placeholders.
- The `loaded_model is None` check of the credit endpoint cannot fail in the model, because the classifier is a parameter.
- `pd.DataFrame.from_dict(...).T` is not modelled: the classifier receives the feature record whose column order `FinancialData.Columns` gives.
- Not modelled, because none of them touches the signals:
  - the lifespan hook, CORS and routing;
  - `/companies`, `/company-summary` and `/financial-statements` (plain pass-through of provider data);
  - the `__main__` blocks, plotting and `get_stock_data` / `forecast_stock_prices`;
  - the training scripts and the front end.
- Concurrent requests to the store are not modelled: every endpoint runs to completion before the next.
- `overall_sentiment` receives the dictionary's values in insertion order, as a sequence; the dictionary keys play no part in the result.
- SignalStore.Store.GetCreditRating: states that the stored record is the table entry for the predicted class, but not which class the classifier predicts.

## Findings

| source | as written | input that shows it | evidently intended | confidence | as-written member | corrected member |
|---|---|---|---|---|---|---|
| app.py:152-164 | the 400 raised when signals are missing is caught by the handler's own `except Exception` and re-raised as a 500 with detail "400: Missing required data for investment analysis" | a store holding the news, trend and vision/mission signals but no credit rating | the caller receives the 400 for the missing-data precondition, as the raise states | medium, not executed | SignalStore.Store.GetExpertAdvice | SignalStore.Store.GetExpertAdviceKeepingClientErrors |
