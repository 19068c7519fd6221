/** Sentiment distributions over FinBERT's three labels, the arg-max that
    Python's `max(scores, key=scores.get)` computes over them, and the
    per-label average that both aggregation loops compute. */
module Sentiment {

  /** The three labels, declared in the order in which the classifier builds
      its score dictionaries (negative, neutral, positive). */
  datatype Label = Negative | Neutral | Positive {
    function Name(): string
    {
      match this
      case Negative => "negative"
      case Neutral => "neutral"
      case Positive => "positive"
    }

    /** Position of the label in the dictionaries' insertion order. */
    function Rank(): nat
    {
      match this
      case Negative => 0
      case Neutral => 1
      case Positive => 2
    }
  }

  /** Every score dictionary and every running total iterates in this order. */
  const Labels: seq<Label> := [Negative, Neutral, Positive]

  /** The label strings are pairwise different, so a stored label string
      names exactly one label; and each label's rank is its position in the
      classifier's list of labels. */
  lemma LabelNamesDistinct(l: Label, m: Label)
    ensures l.Name() == m.Name() <==> l == m
    ensures Labels[l.Rank()] == l
  {
    if l != m {
      assert l.Name()[2] != m.Name()[2];
    }
  }

  /** A score dictionary {"negative": _, "neutral": _, "positive": _}. */
  datatype Dist = Dist(negative: real, neutral: real, positive: real)

  const Zero := Dist(0.0, 0.0, 0.0)

  function Score(d: Dist, l: Label): real
  {
    match l
    case Negative => d.negative
    case Neutral => d.neutral
    case Positive => d.positive
  }

  /** `d[l] = v`: the dictionary with one entry replaced. */
  function With(d: Dist, l: Label, v: real): (r: Dist)
    ensures Score(r, l) == v
    ensures forall m :: m != l ==> Score(r, m) == Score(d, m)
  {
    match l
    case Negative => d.(negative := v)
    case Neutral => d.(neutral := v)
    case Positive => d.(positive := v)
  }

  /** Entry-wise sum of two dictionaries. */
  function Plus(a: Dist, b: Dist): (r: Dist)
    ensures forall l :: Score(r, l) == Score(a, l) + Score(b, l)
  {
    Dist(a.negative + b.negative, a.neutral + b.neutral, a.positive + b.positive)
  }

  function Mass(d: Dist): real
  {
    d.negative + d.neutral + d.positive
  }

  /** A probability distribution: three scores in [0, 1] that sum to 1. */
  predicate IsDistribution(d: Dist)
  {
    Within(d, 1.0) && Mass(d) == 1.0
  }

  function MaxScore(d: Dist): real
  {
    var m := if d.negative >= d.neutral then d.negative else d.neutral;
    if m >= d.positive then m else d.positive
  }

  /** `l` is what `max(scores, key=scores.get)` returns: a label of maximal
      score, and the first such label in insertion order. */
  ghost predicate IsFirstMax(d: Dist, l: Label)
  {
    && (forall m :: Score(d, m) <= Score(d, l))
    && (forall m: Label :: m.Rank() < l.Rank() ==> Score(d, m) < Score(d, l))
  }

  /** Plain arg-max with Python's first-wins tie-break. */
  function ArgMax(d: Dist): (l: Label)
    ensures IsFirstMax(d, l)
    ensures Score(d, l) == MaxScore(d)
  {
    if d.negative >= d.neutral && d.negative >= d.positive then Negative
    else if d.neutral >= d.positive then Neutral
    else Positive
  }

  /** The first maximal label is unique, so `ArgMax` is the only function
      meeting its contract. */
  lemma FirstMaxUnique(d: Dist, l: Label, l': Label)
    requires IsFirstMax(d, l) && IsFirstMax(d, l')
    ensures l == l'
  {
    assert Score(d, l') <= Score(d, l) && Score(d, l) <= Score(d, l');
    assert !(l.Rank() < l'.Rank()) && !(l'.Rank() < l.Rank());
  }

  /** The per-label sum of one label's scores over a sequence, as a reference
      definition independent of the running totals. */
  function Total(ds: seq<Dist>, l: Label): real
  {
    if |ds| == 0 then 0.0 else Score(ds[0], l) + Total(ds[1..], l)
  }

  /** The running totals after adding the dictionaries one by one, in order:
      for every label, that label's scores summed. */
  function Sum(ds: seq<Dist>): (r: Dist)
    ensures forall l :: Score(r, l) == Total(ds, l)
  {
    if |ds| == 0 then Zero
    else
      var init, last := ds[..|ds| - 1], ds[|ds| - 1];
      assert ds == init + [last];
      TotalAppend(init, last, Negative);
      TotalAppend(init, last, Neutral);
      TotalAppend(init, last, Positive);
      Plus(Sum(init), last)
  }

  /** `{key: total / n for key, total in total_scores.items()}`: every label's
      average is its score summed over all inputs and divided by their number. */
  function Average(ds: seq<Dist>): (r: Dist)
    requires |ds| > 0
    ensures forall l :: Score(r, l) == Total(ds, l) / (|ds| as real)
  {
    var n := |ds| as real;
    var s := Sum(ds);
    Dist(s.negative / n, s.neutral / n, s.positive / n)
  }

  lemma {:induction false} TotalAppend(ds: seq<Dist>, d: Dist, l: Label)
    ensures Total(ds + [d], l) == Total(ds, l) + Score(d, l)
  {
    if |ds| > 0 {
      assert (ds + [d])[1..] == ds[1..] + [d];
      TotalAppend(ds[1..], d, l);
    }
  }

  lemma {:induction false} TotalConcat(a: seq<Dist>, b: seq<Dist>, l: Label)
    ensures Total(a + b, l) == Total(a, l) + Total(b, l)
  {
    if |a| > 0 {
      assert (a + b)[0] == a[0];
      assert (a + b)[1..] == a[1..] + b;
      TotalConcat(a[1..], b, l);
    } else {
      assert a + b == b;
    }
  }

  lemma TotalRemove(b: seq<Dist>, j: nat, l: Label)
    requires j < |b|
    ensures Total(b, l) == Score(b[j], l) + Total(b[..j] + b[j + 1..], l)
  {
    assert b == b[..j] + ([b[j]] + b[j + 1..]);
    TotalConcat(b[..j], [b[j]] + b[j + 1..], l);
    TotalConcat(b[..j], b[j + 1..], l);
  }

  lemma RemoveFromMultiset(s: seq<Dist>, j: nat)
    requires j < |s|
    ensures multiset(s[..j] + s[j + 1..]) == multiset(s) - multiset{s[j]}
  {
    assert s == s[..j] + [s[j]] + s[j + 1..];
  }

  /** Removing the same element from two permutations of each other leaves
      permutations of each other. */
  lemma RemoveMatching(a: seq<Dist>, b: seq<Dist>, j: nat)
    requires |a| > 0 && j < |b| && b[j] == a[0]
    requires multiset(a) == multiset(b)
    ensures multiset(a[1..]) == multiset(b[..j] + b[j + 1..])
  {
    assert a == [a[0]] + a[1..];
    RemoveFromMultiset(b, j);
  }

  /** Per-label sums are invariant under reordering of the inputs. */
  lemma {:induction false} TotalPermutation(a: seq<Dist>, b: seq<Dist>, l: Label)
    requires multiset(a) == multiset(b)
    ensures Total(a, l) == Total(b, l)
    decreases |a|
  {
    if |a| == 0 {
      assert |b| == |multiset(b)| == 0;
    } else {
      assert a[0] in multiset(b);
      var j :| 0 <= j < |b| && b[j] == a[0];
      RemoveMatching(a, b, j);
      TotalPermutation(a[1..], b[..j] + b[j + 1..], l);
      TotalRemove(b, j, l);
    }
  }

  /** The average does not depend on the order in which the inputs are visited. */
  lemma AverageIsOrderIndependent(a: seq<Dist>, b: seq<Dist>)
    requires |a| > 0 && multiset(a) == multiset(b)
    ensures |b| > 0 && Average(a) == Average(b)
  {
    assert |a| == |multiset(a)| == |multiset(b)| == |b|;
    TotalPermutation(a, b, Negative);
    TotalPermutation(a, b, Neutral);
    TotalPermutation(a, b, Positive);
    assert Score(Average(a), Negative) == Score(Average(b), Negative);
    assert Score(Average(a), Neutral) == Score(Average(b), Neutral);
    assert Score(Average(a), Positive) == Score(Average(b), Positive);
  }

  /** All three scores lie in [0, hi]. */
  predicate Within(d: Dist, hi: real)
  {
    && 0.0 <= d.negative <= hi
    && 0.0 <= d.neutral <= hi
    && 0.0 <= d.positive <= hi
  }

  lemma {:induction false} SumWithin(ds: seq<Dist>)
    requires forall i :: 0 <= i < |ds| ==> Within(ds[i], 1.0)
    ensures Within(Sum(ds), |ds| as real)
  {
    if |ds| > 0 {
      var init, last := ds[..|ds| - 1], ds[|ds| - 1];
      SumWithin(init);
      assert Within(last, 1.0);
      assert Sum(ds) == Plus(Sum(init), last);
    }
  }

  lemma {:induction false} SumMass(ds: seq<Dist>)
    requires forall i :: 0 <= i < |ds| ==> Mass(ds[i]) == 1.0
    ensures Mass(Sum(ds)) == |ds| as real
  {
    if |ds| > 0 {
      var init, last := ds[..|ds| - 1], ds[|ds| - 1];
      SumMass(init);
      assert Mass(last) == 1.0;
      assert Sum(ds) == Plus(Sum(init), last);
    }
  }

  /** Averaging probability distributions yields a probability distribution. */
  lemma AverageIsDistribution(ds: seq<Dist>)
    requires |ds| > 0
    requires forall i :: 0 <= i < |ds| ==> IsDistribution(ds[i])
    ensures IsDistribution(Average(ds))
  {
    SumWithin(ds);
    SumMass(ds);
    var n := |ds| as real;
    var s := Sum(ds);
    assert Mass(Average(ds)) == Mass(s) / n;
  }

  /** The body of `for key in total_scores: total_scores[key] += scores[key]`. */
  method AddScores(total: Dist, scores: Dist) returns (t: Dist)
    ensures t == Plus(total, scores)
  {
    t := total;
    var k := 0;
    while k < |Labels|
      invariant 0 <= k <= |Labels|
      invariant forall j :: 0 <= j < k ==> Score(t, Labels[j]) == Score(total, Labels[j]) + Score(scores, Labels[j])
      invariant forall j :: k <= j < |Labels| ==> Score(t, Labels[j]) == Score(total, Labels[j])
    {
      var key := Labels[k];
      t := With(t, key, Score(t, key) + Score(scores, key));
      k := k + 1;
    }
    assert Score(t, Labels[0]) == t.negative && Score(t, Labels[1]) == t.neutral && Score(t, Labels[2]) == t.positive;
  }
}
