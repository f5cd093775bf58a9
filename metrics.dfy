/** calculate_metrics: set-based precision, recall and F1 of predicted against
    expected filenames. eval.py:83-113, eval_hybrid.py:60-80 and
    eval_smart.py:62-82 are the same function written out three times; this
    one definition models all three. */
module Scoring {
  import opened Text

  datatype Metrics = Metrics(precision: real, recall: real, f1: real, tp: nat, fp: nat, fn: nat)

  function CalculateMetrics(predicted: seq<string>, expected: seq<string>): (m: Metrics)
  {
    var predictedSet := Elements(predicted);
    var expectedSet := Elements(expected);
    var tp := |predictedSet * expectedSet|;
    var fp := |predictedSet - expectedSet|;
    var fn := |expectedSet - predictedSet|;
    var precision := if tp + fp > 0 then tp as real / (tp + fp) as real else 0.0;
    var recall := if tp + fn > 0 then tp as real / (tp + fn) as real else 0.0;
    var f1 := if precision + recall > 0.0 then 2.0 * (precision * recall) / (precision + recall) else 0.0;
    Metrics(precision, recall, f1, tp, fp, fn)
  }

  /** |A| = |A * B| + |A - B|. */
  lemma SplitCardinality(a: set<string>, b: set<string>)
    ensures |a| == |a * b| + |a - b|
  {
    assert a == (a * b) + (a - b);
    assert (a * b) !! (a - b);
  }

  /** tp and fp split the distinct predictions, tp and fn the distinct expected
      items, and the three together count the union of both sets. */
  lemma {:induction false} CountsPartition(predicted: seq<string>, expected: seq<string>)
    ensures var m := CalculateMetrics(predicted, expected);
            && m.tp + m.fp == |Elements(predicted)|
            && m.tp + m.fn == |Elements(expected)|
            && m.tp + m.fp + m.fn == |Elements(predicted) + Elements(expected)|
  {
    var p, e := Elements(predicted), Elements(expected);
    SplitCardinality(p, e);
    SplitCardinality(e, p);
    assert e * p == p * e;
    assert p + e == (p * e) + (p - e) + (e - p);
    assert (p * e) !! (p - e) && (p * e) !! (e - p) && (p - e) !! (e - p);
    assert |(p * e) + (p - e)| == |p * e| + |p - e|;
  }

  /** Precision is |P * E| / |P| and recall |P * E| / |E|, each 0 when its
      denominator set is empty. */
  lemma PrecisionRecallOfSets(predicted: seq<string>, expected: seq<string>)
    ensures var m := CalculateMetrics(predicted, expected);
            var p, e := Elements(predicted), Elements(expected);
            && m.tp == |p * e|
            && m.precision == (if |p| > 0 then |p * e| as real / |p| as real else 0.0)
            && m.recall == (if |e| > 0 then |p * e| as real / |e| as real else 0.0)
  {
    CountsPartition(predicted, expected);
  }

  /** The harmonic mean of a/b and a/c is 2a/(b+c). */
  lemma HarmonicMean(a: real, b: real, c: real)
    requires a > 0.0 && b > 0.0 && c > 0.0
    ensures 2.0 * ((a / b) * (a / c)) / ((a / b) + (a / c)) == 2.0 * a / (b + c)
  {
    var p, r := a / b, a / c;
    assert p * b == a && r * c == a;
    assert p > 0.0 && r > 0.0;
    var f := 2.0 * (p * r) / (p + r);
    assert f * (p + r) == 2.0 * (p * r);
    assert (p + r) * (b * c) == a * (b + c) by {
      assert (p + r) * (b * c) == (p * b) * c + (r * c) * b;
    }
    assert (p * r) * (b * c) == a * a by {
      assert (p * r) * (b * c) == (p * b) * (r * c);
    }
    assert f * (a * (b + c)) == 2.0 * (a * a) by {
      assert f * ((p + r) * (b * c)) == (f * (p + r)) * (b * c);
    }
    assert f * (b + c) == 2.0 * a;
  }

  /** F1 in counts: 2tp / (2tp + fp + fn), and 0 when there is no true positive. */
  lemma F1FromCounts(predicted: seq<string>, expected: seq<string>)
    ensures var m := CalculateMetrics(predicted, expected);
            m.f1 == (if m.tp > 0 then (2 * m.tp) as real / (2 * m.tp + m.fp + m.fn) as real else 0.0)
  {
    var m := CalculateMetrics(predicted, expected);
    if m.tp > 0 {
      HarmonicMean(m.tp as real, (m.tp + m.fp) as real, (m.tp + m.fn) as real);
      assert m.precision + m.recall > 0.0;
    } else {
      assert m.precision == 0.0 && m.recall == 0.0;
    }
  }

  /** a / (a + b) lies in [0, 1]. */
  lemma FractionBound(a: nat, b: nat)
    requires a + b > 0
    ensures 0.0 <= a as real / (a + b) as real <= 1.0
  {
    var q := a as real / (a + b) as real;
    assert q * (a + b) as real == a as real;
  }

  /** Precision, recall and F1 lie in [0, 1]. */
  lemma RatiosInUnitInterval(predicted: seq<string>, expected: seq<string>)
    ensures var m := CalculateMetrics(predicted, expected);
            && 0.0 <= m.precision <= 1.0
            && 0.0 <= m.recall <= 1.0
            && 0.0 <= m.f1 <= 1.0
  {
    var m := CalculateMetrics(predicted, expected);
    F1FromCounts(predicted, expected);
    if m.tp + m.fp > 0 {
      FractionBound(m.tp, m.fp);
    }
    if m.tp + m.fn > 0 {
      FractionBound(m.tp, m.fn);
    }
    if m.tp > 0 {
      FractionBound(2 * m.tp, m.fp + m.fn);
    }
  }

  /** F1 is 0 exactly when no prediction is expected; so are precision and recall. */
  lemma ZeroIffNoTruePositive(predicted: seq<string>, expected: seq<string>)
    ensures var m := CalculateMetrics(predicted, expected);
            && (m.f1 == 0.0 <==> m.tp == 0)
            && (m.precision == 0.0 <==> m.tp == 0)
            && (m.recall == 0.0 <==> m.tp == 0)
  {
    F1FromCounts(predicted, expected);
  }

  /** The metrics see only the two sets: reordering or repeating the entries of
      either list changes nothing. */
  lemma SetSemantics(p1: seq<string>, e1: seq<string>, p2: seq<string>, e2: seq<string>)
    requires multiset(p1) == multiset(p2) || Elements(p1) == Elements(p2)
    requires multiset(e1) == multiset(e2) || Elements(e1) == Elements(e2)
    ensures CalculateMetrics(p1, e1) == CalculateMetrics(p2, e2)
  {
    assert Elements(p1) == Elements(p2) by {
      if multiset(p1) == multiset(p2) {
        forall x ensures x in p1 <==> x in p2 {
          assert x in p1 <==> x in multiset(p1);
          assert x in p2 <==> x in multiset(p2);
        }
      }
    }
    assert Elements(e1) == Elements(e2) by {
      if multiset(e1) == multiset(e2) {
        forall x ensures x in e1 <==> x in e2 {
          assert x in e1 <==> x in multiset(e1);
          assert x in e2 <==> x in multiset(e2);
        }
      }
    }
  }

  /** Repeating an entry that is already predicted changes nothing. */
  lemma DuplicatePredictionIgnored(predicted: seq<string>, expected: seq<string>, x: string)
    requires x in predicted
    ensures CalculateMetrics(predicted + [x], expected) == CalculateMetrics(predicted, expected)
  {
    assert Elements(predicted + [x]) == Elements(predicted);
  }
}
