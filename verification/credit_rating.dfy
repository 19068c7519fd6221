/** The three parallel lookup tables of app.py that turn the credit-rating
    classifier's class index into a rating bucket, a grade and a risk level. */
module CreditRating {
  import opened Outcomes

  /** What `dict.get(k, "Unknown")` yields for a missing class index. */
  const UnknownText := "Unknown"

  const InvestmentMapping: map<int, seq<string>> := map[
    0 := ["AAA", "AA+", "AA", "AA-"],
    1 := ["A+", "A", "A-", "BBB+", "BBB", "BBB-"],
    2 := ["BB+", "BB", "BB-", "B+", "B", "B-"],
    3 := ["CCC+", "CCC", "CCC-", "CC", "SD"]]

  const GradeMapping: map<int, string> := map[
    0 := "Prime Investment Grade",
    1 := "Investment Grade",
    2 := "Speculative Grade",
    3 := "Default"]

  const RiskMapping: map<int, string> := map[
    0 := "Very Low Risk",
    1 := "Low to Moderate Risk",
    2 := "Moderate to High Risk",
    3 := "Very High Risk"]

  /** The `ratings` entry: the bucket's list of codes, or, for an unknown
      class, the plain string "Unknown" (not an empty list). */
  datatype Ratings = Bucket(codes: seq<string>) | Text(text: string)

  /** The `credit_rating` record. */
  datatype Rating = Rating(ratings: Ratings, grade: string, risk: string)

  /** The class indices the tables know. */
  predicate IsKnownClass(k: int)
  {
    0 <= k <= 3
  }

  /** The record the credit-rating endpoint stores for a predicted class. */
  function MapRating(ratingClass: int): (r: Rating)
    ensures IsKnownClass(ratingClass) ==> r.ratings.Bucket? && |r.ratings.codes| > 0
    ensures IsKnownClass(ratingClass) ==> r.grade != UnknownText && r.risk != UnknownText
    ensures !IsKnownClass(ratingClass) ==> r == Rating(Text(UnknownText), UnknownText, UnknownText)
  {
    Rating(
      if ratingClass in InvestmentMapping then Bucket(InvestmentMapping[ratingClass]) else Text(UnknownText),
      if ratingClass in GradeMapping then GradeMapping[ratingClass] else UnknownText,
      if ratingClass in RiskMapping then RiskMapping[ratingClass] else UnknownText)
  }

  /** The three tables have the same keys, so a class index is either known
      to all three or unknown to all three. */
  lemma TablesShareKeys()
    ensures InvestmentMapping.Keys == GradeMapping.Keys == RiskMapping.Keys
    ensures forall k :: k in GradeMapping <==> IsKnownClass(k)
  {
  }

  /** The class a grade label stands for: the inverse of the grade table. */
  function ClassOfGrade(grade: string): (k: Option<int>)
    ensures k.Some? ==> IsKnownClass(k.value)
  {
    if grade == "Prime Investment Grade" then Some(0)
    else if grade == "Investment Grade" then Some(1)
    else if grade == "Speculative Grade" then Some(2)
    else if grade == "Default" then Some(3)
    else None
  }

  /** The class a risk level stands for: the inverse of the risk table. */
  function ClassOfRisk(risk: string): (k: Option<int>)
    ensures k.Some? ==> IsKnownClass(k.value)
  {
    if risk == "Very Low Risk" then Some(0)
    else if risk == "Low to Moderate Risk" then Some(1)
    else if risk == "Moderate to High Risk" then Some(2)
    else if risk == "Very High Risk" then Some(3)
    else None
  }

  /** The grade identifies the class it was looked up with. */
  lemma {:induction false} GradeDeterminesClass(k: int)
    requires IsKnownClass(k)
    ensures ClassOfGrade(MapRating(k).grade) == Some(k)
  {
    assert "Prime Investment Grade" != "Investment Grade";
    assert "Prime Investment Grade" != "Speculative Grade";
    assert "Prime Investment Grade" != "Default";
    assert "Investment Grade" != "Speculative Grade";
    assert "Investment Grade" != "Default";
    assert "Speculative Grade" != "Default";
  }

  /** The risk level identifies the class it was looked up with. */
  lemma {:induction false} RiskDeterminesClass(k: int)
    requires IsKnownClass(k)
    ensures ClassOfRisk(MapRating(k).risk) == Some(k)
  {
    assert |"Very Low Risk"| == 13 && |"Low to Moderate Risk"| == 20;
    assert |"Moderate to High Risk"| == 21 && |"Very High Risk"| == 14;
  }

  /** A stored record for a known class takes its bucket, its grade and its
      risk from that one class: the grade and the risk decode back to it, and
      every code of the bucket lies in its band. */
  lemma {:induction false} FieldsFromOneClass(k: int)
    requires IsKnownClass(k)
    ensures var r := MapRating(k);
      && ClassOfGrade(r.grade) == Some(k)
      && ClassOfRisk(r.risk) == Some(k)
      && r.ratings.Bucket?
      && forall c :: c in r.ratings.codes ==> BandOf(c) == k
  {
    GradeDeterminesClass(k);
    RiskDeterminesClass(k);
    forall c | c in MapRating(k).ratings.codes ensures BandOf(c) == k {
      BucketOfCode(k, c);
    }
  }

  /** Records of two known classes agree in one field only if they are the
      same record. */
  lemma FieldsAgree(j: int, k: int)
    requires IsKnownClass(j) && IsKnownClass(k)
    ensures MapRating(j).grade == MapRating(k).grade <==> j == k
    ensures MapRating(j).risk == MapRating(k).risk <==> j == k
    ensures MapRating(j).ratings == MapRating(k).ratings <==> j == k
  {
    GradeDeterminesClass(j);
    GradeDeterminesClass(k);
    if j != k {
      RiskDistinct(j, k);
      BucketsDisjoint(j, k);
      assert InvestmentMapping[j][0] !in InvestmentMapping[k];
    }
  }

  lemma RiskDistinct(j: int, k: int)
    requires IsKnownClass(j) && IsKnownClass(k) && j != k
    ensures RiskMapping[j] != RiskMapping[k]
  {
    assert RiskMapping[0][5] == 'L' && RiskMapping[1][5] == 'o' && RiskMapping[2][5] == 'a' && RiskMapping[3][5] == 'H';
  }

  /** The buckets have 4, 6, 6 and 5 codes, and bucket 0 is the AA band. */
  lemma BucketShapes()
    ensures |InvestmentMapping[0]| == 4 && |InvestmentMapping[1]| == 6
    ensures |InvestmentMapping[2]| == 6 && |InvestmentMapping[3]| == 5
    ensures InvestmentMapping[0] == ["AAA", "AA+", "AA", "AA-"]
  {
  }

  /** No rating code belongs to two buckets. */
  lemma BucketsDisjoint(j: int, k: int)
    requires IsKnownClass(j) && IsKnownClass(k) && j != k
    ensures forall c :: c in InvestmentMapping[j] ==> c !in InvestmentMapping[k]
  {
    forall c | c in InvestmentMapping[j] ensures c !in InvestmentMapping[k] {
      BucketOfCode(j, c);
      if c in InvestmentMapping[k] {
        BucketOfCode(k, c);
      }
    }
  }

  /** The bucket a rating code belongs to is determined by its letters. */
  function BandOf(code: string): int
  {
    var a := |code| >= 1 && code[0] == 'A';
    var aa := a && |code| >= 2 && code[1] == 'A';
    var b := |code| >= 1 && code[0] == 'B';
    var bbb := b && |code| >= 3 && code[1] == 'B' && code[2] == 'B';
    if aa then 0 else if a || bbb then 1 else if b then 2 else 3
  }

  lemma BucketOfCode(k: int, c: string)
    requires IsKnownClass(k) && c in InvestmentMapping[k]
    ensures BandOf(c) == k
  {
  }
}
