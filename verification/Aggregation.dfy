/** Two-level aggregation: range, accuracy and monotonicity of the total and its light bucket, and exactly
    when aggregation can fail on scores in range. */
module Aggregation {
  import opened Common
  import opened Rounding
  import opened ScoringModel
  import opened RobustScore

  // ---------------------------------------------------------------- weighted sums

  function Sum(w: seq<real>): real {
    if w == [] then 0.0 else Sum(w[..|w| - 1]) + w[|w| - 1]
  }

  ghost predicate NonNegative(w: seq<real>) {
    forall i :: 0 <= i < |w| ==> w[i] >= 0.0
  }

  ghost predicate Pairwise(x: seq<real>, y: seq<real>) {
    |x| == |y| && forall i :: 0 <= i < |x| ==> x[i] <= y[i]
  }

  lemma TermOrder(x: real, y: real, w: real)
    requires x <= y && w >= 0.0
    ensures Term(x, w) <= Term(y, w)
  {
    assert (y - x) * w >= 0.0;
  }

  lemma {:induction false} WeightedOrder(x: seq<real>, y: seq<real>, w: seq<real>)
    requires Pairwise(x, y) && |w| == |x| && NonNegative(w)
    ensures Weighted(x, w) <= Weighted(y, w)
  {
    if x != [] {
      var n := |x| - 1;
      WeightedOrder(x[..n], y[..n], w[..n]);
      TermOrder(x[n], y[n], w[n]);
    }
  }

  function Shifted(x: seq<real>, e: real): seq<real> {
    seq(|x|, i requires 0 <= i < |x| => x[i] + e)
  }

  lemma {:induction false} WeightedShift(x: seq<real>, e: real, w: seq<real>)
    requires |w| == |x|
    ensures Weighted(Shifted(x, e), w) == Weighted(x, w) + Term(e, Sum(w))
  {
    TermSum(e, 0.0, 0.0);
    hide Term;
    if x != [] {
      var n := |x| - 1;
      WeightedShift(x[..n], e, w[..n]);
      assert Shifted(x, e)[..n] == Shifted(x[..n], e);
      TermShift(x[n], e, w[n]);
      TermSum(e, Sum(w[..n]), w[n]);
    }
  }

  lemma TermShift(x: real, e: real, w: real)
    ensures Term(x + e, w) == Term(x, w) + Term(e, w)
  {
  }

  lemma TermSum(e: real, a: real, b: real)
    ensures Term(e, a + b) == Term(e, a) + Term(e, b)
  {
    assert e * (a + b) == e * a + e * b;
  }

  lemma {:induction false} WeightedZero(x: seq<real>, w: seq<real>)
    requires |w| == |x| && forall i :: 0 <= i < |x| ==> x[i] == 0.0
    ensures Weighted(x, w) == 0.0
  {
    if x != [] {
      WeightedZero(x[..|x| - 1], w[..|w| - 1]);
    }
  }

  /** The weighted sum of a constant list. */
  lemma WeightedConstant(c: real, w: seq<real>)
    ensures Weighted(seq(|w|, i => c), w) == c * Sum(w) / 100.0
  {
    var zeros := seq(|w|, i => 0.0);
    WeightedZero(zeros, w);
    WeightedShift(zeros, c, w);
    assert Shifted(zeros, c) == seq(|w|, i => c);
  }

  /** Entries higher by at most `e` give a sum higher by at most `e` when the weights are percentages. */
  lemma WeightedNear(x: seq<real>, y: seq<real>, w: seq<real>, e: real)
    requires |x| == |y| == |w| && NonNegative(w) && Sum(w) == 100.0
    requires Pairwise(x, Shifted(y, e))
    ensures Weighted(x, w) <= Weighted(y, w) + e
  {
    WeightedOrder(x, Shifted(y, e), w);
    PercentShift(y, e, w);
  }

  lemma PercentShift(y: seq<real>, e: real, w: seq<real>)
    requires |y| == |w| && Sum(w) == 100.0
    ensures Weighted(Shifted(y, e), w) == Weighted(y, w) + e
  {
    WeightedShift(y, e, w);
    Percent(e, Sum(w));
  }

  lemma Percent(e: real, t: real)
    requires t == 100.0
    ensures e * t / 100.0 == e
  {
  }

  lemma LayerWeightsSum()
    ensures |LAYER_WEIGHTS| == 6 && NonNegative(LAYER_WEIGHTS) && Sum(LAYER_WEIGHTS) == 100.0
  {
    var w := LAYER_WEIGHTS;
    assert Sum(w[..1]) == 20.0 && w[..2][..1] == w[..1];
    assert Sum(w[..2]) == 40.0 && w[..3][..2] == w[..2];
    assert Sum(w[..3]) == 57.0 && w[..4][..3] == w[..3];
    assert Sum(w[..4]) == 82.0 && w[..5][..4] == w[..4];
    assert Sum(w[..5]) == 95.0 && w[..6][..5] == w[..5];
    assert w[..6] == w;
  }

  // ---------------------------------------------------------------- one layer

  ghost predicate FeatureInRange(f: Feature, scores: Scores) {
    f.id in scores && -100.0 <= scores[f.id] <= 100.0
  }

  ghost predicate LayerInRange(layer: Layer, scores: Scores) {
    forall i :: 0 <= i < |layer| ==> FeatureInRange(layer[i], scores)
  }

  ghost predicate PositiveWeights(layer: Layer) {
    forall i :: 0 <= i < |layer| ==> layer[i].weight > 0.0
  }

  function WeightsOf(layer: Layer): seq<real> {
    seq(|layer|, i requires 0 <= i < |layer| => layer[i].weight)
  }

  function ScoreOf(scores: Scores, id: string): real {
    if id in scores then scores[id] else 0.0
  }

  function ScoresOf(layer: Layer, scores: Scores): seq<real> {
    seq(|layer|, i requires 0 <= i < |layer| => ScoreOf(scores, layer[i].id))
  }

  function ExactSum(layer: Layer, scores: Scores): real {
    Weighted(ScoresOf(layer, scores), WeightsOf(layer))
  }

  lemma ExactSumSnoc(layer: Layer, scores: Scores)
    requires layer != []
    ensures var n := |layer| - 1;
            ExactSum(layer, scores) == ExactSum(layer[..n], scores) + Term(ScoreOf(scores, layer[n].id), layer[n].weight)
  {
    var n := |layer| - 1;
    assert ScoresOf(layer, scores)[..n] == ScoresOf(layer[..n], scores) && WeightsOf(layer)[..n] == WeightsOf(layer[..n]);
  }

  /** A layer of scores in range sums to their weighted sum. */
  lemma {:induction false} LayerSumIs(layer: Layer, scores: Scores)
    requires LayerInRange(layer, scores)
    ensures LayerSum(layer, scores) == Ok(ExactSum(layer, scores))
  {
    if layer != [] {
      var n := |layer| - 1;
      LayerSumIs(layer[..n], scores);
      assert FeatureInRange(layer[n], scores);
      ExactSumSnoc(layer, scores);
    }
  }

  /** Conversely, only scores in range have a sum. */
  lemma {:induction false} LayerSumNeeds(layer: Layer, scores: Scores)
    requires LayerSum(layer, scores).Ok?
    ensures LayerInRange(layer, scores)
  {
    if layer != [] {
      LayerSumNeeds(layer[..|layer| - 1], scores);
    }
  }

  lemma {:induction false} WeightSumIs(layer: Layer)
    ensures WeightSum(layer) == Sum(WeightsOf(layer))
  {
    if layer != [] {
      WeightSumIs(layer[..|layer| - 1]);
      assert WeightsOf(layer)[..|layer| - 1] == WeightsOf(layer[..|layer| - 1]);
    }
  }

  /** The sum of a layer is at most its weight sum, in absolute value. */
  lemma LayerSumBound(layer: Layer, scores: Scores)
    requires LayerInRange(layer, scores) && PositiveWeights(layer)
    ensures -WeightSum(layer) <= ExactSum(layer, scores) <= WeightSum(layer)
  {
    var w, x := WeightsOf(layer), ScoresOf(layer, scores);
    WeightSumIs(layer);
    WeightedConstant(100.0, w);
    WeightedConstant(-100.0, w);
    forall i | 0 <= i < |x| ensures -100.0 <= x[i] <= 100.0 {
      assert FeatureInRange(layer[i], scores);
    }
    WeightedOrder(x, seq(|w|, i => 100.0), w);
    WeightedOrder(seq(|w|, i => -100.0), x, w);
  }

  ghost predicate Raised(layer: Layer, lo: Scores, hi: Scores) {
    forall i :: 0 <= i < |layer| ==> ScoreOf(lo, layer[i].id) <= ScoreOf(hi, layer[i].id)
  }

  lemma LayerSumMonotone(layer: Layer, lo: Scores, hi: Scores)
    requires PositiveWeights(layer) && Raised(layer, lo, hi)
    ensures ExactSum(layer, lo) <= ExactSum(layer, hi)
  {
    WeightedOrder(ScoresOf(layer, lo), ScoresOf(layer, hi), WeightsOf(layer));
  }

  // ---------------------------------------------------------------- six layers

  ghost predicate AllInRange(layers: seq<Layer>, scores: Scores) {
    forall i :: 0 <= i < |layers| ==> LayerInRange(layers[i], scores)
  }

  ghost predicate Positive(layers: seq<Layer>) {
    forall i :: 0 <= i < |layers| ==> PositiveWeights(layers[i])
  }

  ghost predicate ExactWeights(layers: seq<Layer>) {
    forall i :: 0 <= i < |layers| ==> WeightSum(layers[i]) == 100.0
  }

  /** The unrounded layer sums. */
  function ExactSums(layers: seq<Layer>, scores: Scores): seq<real> {
    seq(|layers|, i requires 0 <= i < |layers| => ExactSum(layers[i], scores))
  }

  /** The exact doubly weighted sum. */
  function ExactTotal(layers: seq<Layer>, scores: Scores): real
    requires |layers| == 6
  {
    Weighted(ExactSums(layers, scores), LAYER_WEIGHTS)
  }

  function AllRounded(x: seq<real>): seq<real> {
    seq(|x|, i requires 0 <= i < |x| => Round10(x[i]))
  }

  lemma {:induction false} LayerScoresAre(layers: seq<Layer>, scores: Scores)
    requires AllInRange(layers, scores)
    ensures LayerScores(layers, scores) == Ok(AllRounded(ExactSums(layers, scores)))
  {
    if layers != [] {
      var n := |layers| - 1;
      LayerScoresAre(layers[..n], scores);
      LayerSumIs(layers[n], scores);
      assert ExactSums(layers, scores)[..n] == ExactSums(layers[..n], scores);
      assert AllRounded(ExactSums(layers, scores)) == AllRounded(ExactSums(layers[..n], scores)) + [Round10(ExactSums(layers, scores)[n])];
    }
  }

  lemma ExactSumsInRange(layers: seq<Layer>, scores: Scores)
    requires AllInRange(layers, scores) && Positive(layers) && ExactWeights(layers)
    ensures forall i :: 0 <= i < |layers| ==> -100.0 <= ExactSums(layers, scores)[i] <= 100.0
  {
    forall i | 0 <= i < |layers| ensures -100.0 <= ExactSums(layers, scores)[i] <= 100.0 {
      LayerSumBound(layers[i], scores);
    }
  }

  lemma RoundedSumsInRange(x: seq<real>)
    requires forall i :: 0 <= i < |x| ==> -100.0 <= x[i] <= 100.0
    ensures forall i :: 0 <= i < |x| ==> -100.0 <= AllRounded(x)[i] <= 100.0
  {
    forall i | 0 <= i < |x| ensures -100.0 <= AllRounded(x)[i] <= 100.0 {
      Round10InRange(x[i]);
    }
  }

  lemma TotalInRange(x: seq<real>)
    requires |x| == 6 && forall i :: 0 <= i < |x| ==> -100.0 <= x[i] <= 100.0
    ensures -100.0 <= Round10(Weighted(x, LAYER_WEIGHTS)) <= 100.0
  {
    LayerWeightsSum();
    WeightedConstant(100.0, LAYER_WEIGHTS);
    WeightedConstant(-100.0, LAYER_WEIGHTS);
    WeightedOrder(x, seq(|LAYER_WEIGHTS|, i => 100.0), LAYER_WEIGHTS);
    WeightedOrder(seq(|LAYER_WEIGHTS|, i => -100.0), x, LAYER_WEIGHTS);
    Round10InRange(Weighted(x, LAYER_WEIGHTS));
  }

  const HALF_UNIT := 0.00000000005

  /** Two half-unit roundings move the total by at most one unit of the tenth decimal. */
  lemma TotalNear(x: seq<real>)
    requires |x| == 6
    ensures -0.0000000001 <= Round10(Weighted(AllRounded(x), LAYER_WEIGHTS)) - Weighted(x, LAYER_WEIGHTS) <= 0.0000000001
  {
    LayerWeightsSum();
    var rounded := AllRounded(x);
    forall i | 0 <= i < |x| ensures rounded[i] <= Shifted(x, HALF_UNIT)[i] && x[i] <= Shifted(rounded, HALF_UNIT)[i] {
      Round10Near(x[i]);
    }
    WeightedNear(rounded, x, LAYER_WEIGHTS, HALF_UNIT);
    WeightedNear(x, rounded, LAYER_WEIGHTS, HALF_UNIT);
    Round10Near(Weighted(rounded, LAYER_WEIGHTS));
  }

  /** With weights that sum exactly to 100, scores in range always aggregate: every layer score and the
      total stay in [-100, 100], and the total is within 1e-10 of the exact doubly weighted sum. */
  lemma AggregationBounded(layers: seq<Layer>, scores: Scores)
    requires |layers| == 6 && AllInRange(layers, scores) && Positive(layers) && ExactWeights(layers)
    ensures var r := AggregateScores(layers, scores);
            && r.Ok? && |r.value.layers| == 6 && (forall i :: 0 <= i < 6 ==> -100.0 <= r.value.layers[i] <= 100.0)
            && -100.0 <= r.value.total <= 100.0 && r.value.bucket == Bucket(r.value.total)
            && -0.0000000001 <= r.value.total - ExactTotal(layers, scores) <= 0.0000000001
  {
    var x := ExactSums(layers, scores);
    LayerScoresAre(layers, scores);
    ExactSumsInRange(layers, scores);
    RoundedSumsInRange(x);
    TotalInRange(AllRounded(x));
    TotalNear(x);
  }

  // ---------------------------------------------------------------- monotonicity

  ghost predicate AllRaised(layers: seq<Layer>, lo: Scores, hi: Scores) {
    forall i :: 0 <= i < |layers| ==> Raised(layers[i], lo, hi)
  }

  lemma RoundedSumsMonotone(layers: seq<Layer>, lo: Scores, hi: Scores)
    requires AllInRange(layers, lo) && AllInRange(layers, hi) && Positive(layers) && AllRaised(layers, lo, hi)
    ensures Pairwise(AllRounded(ExactSums(layers, lo)), AllRounded(ExactSums(layers, hi)))
  {
    forall i | 0 <= i < |layers| ensures Round10(ExactSums(layers, lo)[i]) <= Round10(ExactSums(layers, hi)[i]) {
      assert Raised(layers[i], lo, hi);
      LayerSumMonotone(layers[i], lo, hi);
      Round10Monotone(ExactSums(layers, lo)[i], ExactSums(layers, hi)[i]);
    }
  }

  lemma BucketMonotone(x: real, y: real)
    requires x <= y
    ensures Bucket(x) <= Bucket(y)
  {
  }

  /** Raising feature scores never lowers a layer score, the total or the light bucket. */
  lemma AggregationMonotone(layers: seq<Layer>, lo: Scores, hi: Scores)
    requires |layers| == 6 && Positive(layers) && AllRaised(layers, lo, hi)
    requires AggregateScores(layers, lo).Ok? && AggregateScores(layers, hi).Ok?
    ensures var a, b := AggregateScores(layers, lo).value, AggregateScores(layers, hi).value;
            Pairwise(a.layers, b.layers) && a.total <= b.total && a.bucket <= b.bucket
  {
    LayersNeed(layers, lo);
    LayersNeed(layers, hi);
    LayerScoresAre(layers, lo);
    LayerScoresAre(layers, hi);
    RoundedSumsMonotone(layers, lo, hi);
    LayerWeightsSum();
    var x, y := AllRounded(ExactSums(layers, lo)), AllRounded(ExactSums(layers, hi));
    WeightedOrder(x, y, LAYER_WEIGHTS);
    Round10Monotone(Weighted(x, LAYER_WEIGHTS), Weighted(y, LAYER_WEIGHTS));
    BucketMonotone(Round10(Weighted(x, LAYER_WEIGHTS)), Round10(Weighted(y, LAYER_WEIGHTS)));
  }

  lemma {:induction false} LayersNeed(layers: seq<Layer>, scores: Scores)
    requires LayerScores(layers, scores).Ok?
    ensures AllInRange(layers, scores)
  {
    if layers != [] {
      LayersNeed(layers[..|layers| - 1], scores);
      LayerSumNeeds(layers[|layers| - 1], scores);
    }
  }

  // ---------------------------------------------------------------- when aggregation can fail

  function WeightSums(layers: seq<Layer>): seq<real> {
    seq(|layers|, i requires 0 <= i < |layers| => WeightSum(layers[i]))
  }

  /** The total a registry gives when every feature scores 100. */
  function HighestTotal(layers: seq<Layer>): real
    requires |layers| == 6
  {
    Round10(Weighted(AllRounded(WeightSums(layers)), LAYER_WEIGHTS))
  }

  lemma {:induction false} WeightedNegated(x: seq<real>, w: seq<real>)
    requires |x| == |w|
    ensures |Negated(x)| == |x| && Weighted(Negated(x), w) == -Weighted(x, w)
  {
    if x != [] {
      var n := |x| - 1;
      WeightedNegated(x[..n], w[..n]);
      assert Negated(x)[..n] == Negated(x[..n]);
      assert (-x[n]) * w[n] == -(x[n] * w[n]);
    }
  }

  lemma LayerBetween(layer: Layer, scores: Scores)
    requires PositiveWeights(layer) && LayerInRange(layer, scores)
    ensures -Round10(WeightSum(layer)) <= Round10(ExactSum(layer, scores)) <= Round10(WeightSum(layer))
  {
    LayerSumBound(layer, scores);
    Round10Monotone(ExactSum(layer, scores), WeightSum(layer));
    Round10Monotone(-WeightSum(layer), ExactSum(layer, scores));
    Round10Odd(WeightSum(layer));
  }

  lemma SumBelow(x: seq<real>, y: seq<real>, w: seq<real>)
    requires |x| == |w| && Pairwise(x, y) && NonNegative(w)
    ensures Round10(Weighted(x, w)) <= Round10(Weighted(y, w))
  {
    WeightedOrder(x, y, w);
    Round10Monotone(Weighted(x, w), Weighted(y, w));
  }

  lemma SumNegated(x: seq<real>, w: seq<real>)
    requires |x| == |w|
    ensures |Negated(x)| == |x| && Round10(Weighted(Negated(x), w)) == -Round10(Weighted(x, w))
  {
    WeightedNegated(x, w);
    Round10Odd(Weighted(x, w));
  }

  lemma SumBetween(x: seq<real>, top: seq<real>, w: seq<real>)
    requires |x| == |top| == |w| && Pairwise(x, top) && Pairwise(Negated(top), x) && NonNegative(w)
    ensures -Round10(Weighted(top, w)) <= Round10(Weighted(x, w)) <= Round10(Weighted(top, w))
  {
    SumBelow(x, top, w);
    SumNegated(top, w);
    SumBelow(Negated(top), x, w);
  }

  /** Totals of scores in range lie between the lowest and the highest possible total. */
  lemma TotalBetween(layers: seq<Layer>, scores: Scores)
    requires |layers| == 6 && Positive(layers) && AllInRange(layers, scores)
    ensures -HighestTotal(layers) <= Round10(Weighted(AllRounded(ExactSums(layers, scores)), LAYER_WEIGHTS)) <= HighestTotal(layers)
  {
    var x, top := AllRounded(ExactSums(layers, scores)), AllRounded(WeightSums(layers));
    forall i | 0 <= i < |layers| ensures Negated(top)[i] <= x[i] <= top[i] {
      LayerBetween(layers[i], scores);
    }
    LayerWeightsSum();
    SumBetween(x, top, LAYER_WEIGHTS);
  }

  function FeatureIds(layers: seq<Layer>): set<string> {
    set i, j | 0 <= i < |layers| && 0 <= j < |layers[i]| :: layers[i][j].id
  }

  /** Every feature at 100. */
  function AllHundred(layers: seq<Layer>): Scores {
    map id | id in FeatureIds(layers) :: 100.0
  }

  lemma HundredInRange(layers: seq<Layer>)
    ensures AllInRange(layers, AllHundred(layers))
    ensures forall i, j :: 0 <= i < |layers| && 0 <= j < |layers[i]| ==> ScoreOf(AllHundred(layers), layers[i][j].id) == 100.0
  {
    forall i, j | 0 <= i < |layers| && 0 <= j < |layers[i]|
      ensures FeatureInRange(layers[i][j], AllHundred(layers)) && ScoreOf(AllHundred(layers), layers[i][j].id) == 100.0 {
      assert layers[i][j].id in FeatureIds(layers);
    }
  }

  lemma HundredSums(layers: seq<Layer>)
    ensures ExactSums(layers, AllHundred(layers)) == WeightSums(layers)
  {
    HundredInRange(layers);
    forall i | 0 <= i < |layers| ensures ExactSums(layers, AllHundred(layers))[i] == WeightSum(layers[i]) {
      var w := WeightsOf(layers[i]);
      WeightedConstant(100.0, w);
      WeightSumIs(layers[i]);
      assert ScoresOf(layers[i], AllHundred(layers)) == seq(|w|, k => 100.0);
    }
  }

  /** Scores in range never raise exactly when the all-100 total is at most 100; `isclose` weights do not
      ensure it. */
  lemma AggregationSafeIff(layers: seq<Layer>)
    requires |layers| == 6 && Positive(layers)
    ensures (forall scores :: AllInRange(layers, scores) ==> AggregateScores(layers, scores).Ok?) <==> HighestTotal(layers) <= 100.0
  {
    HundredInRange(layers);
    HundredSums(layers);
    LayerScoresAre(layers, AllHundred(layers));
    if HighestTotal(layers) <= 100.0 {
      forall scores | AllInRange(layers, scores) ensures AggregateScores(layers, scores).Ok? {
        LayerScoresAre(layers, scores);
        TotalBetween(layers, scores);
      }
    }
    if HighestTotal(layers) > 100.0 {
      assert AllInRange(layers, AllHundred(layers)) && AggregateScores(layers, AllHundred(layers)).Err?;
    }
  }

  /** An aggregate whose layer scores and total all lie in [-100, 100]. */
  ghost predicate InScoreRange(r: Result<Aggregate, Error>) {
    r.Ok? && -100.0 <= r.value.total <= 100.0 && forall i :: 0 <= i < |r.value.layers| ==> -100.0 <= r.value.layers[i] <= 100.0
  }

  ghost predicate WeightsRoundWithin(layers: seq<Layer>) {
    forall i :: 0 <= i < |layers| ==> Round10(WeightSum(layers[i])) <= 100.0
  }

  lemma WithinStaysInRange(layers: seq<Layer>, scores: Scores)
    requires |layers| == 6 && Positive(layers) && WeightsRoundWithin(layers) && AllInRange(layers, scores)
    ensures InScoreRange(AggregateScores(layers, scores))
  {
    var x := AllRounded(ExactSums(layers, scores));
    LayerScoresAre(layers, scores);
    forall i | 0 <= i < |layers| ensures -100.0 <= x[i] <= 100.0 {
      LayerBetween(layers[i], scores);
    }
    TotalInRange(x);
  }

  /** Every aggregate of scores in range has all layer scores and the total in range exactly when no
      layer's weights round above 100. */
  lemma ScoresStayInRangeIff(layers: seq<Layer>)
    requires |layers| == 6 && Positive(layers)
    ensures (forall scores :: AllInRange(layers, scores) ==> InScoreRange(AggregateScores(layers, scores))) <==> WeightsRoundWithin(layers)
  {
    hide AggregateScores, AllInRange, InScoreRange, Round10;
    if WeightsRoundWithin(layers) {
      forall scores | AllInRange(layers, scores) ensures InScoreRange(AggregateScores(layers, scores)) {
        WithinStaysInRange(layers, scores);
      }
    } else {
      var i :| 0 <= i < |layers| && Round10(WeightSum(layers[i])) > 100.0;
      HundredInRange(layers);
      OverweightEscapes(layers, i);
    }
  }

  /** All features at 100 push an overweight layer out of range. */
  lemma OverweightEscapes(layers: seq<Layer>, i: nat)
    requires |layers| == 6 && i < 6 && Round10(WeightSum(layers[i])) > 100.0
    ensures !InScoreRange(AggregateScores(layers, AllHundred(layers)))
  {
    hide Weighted, Round10, AllHundred, WeightSum;
    HundredInRange(layers);
    HundredSums(layers);
    LayerScoresAre(layers, AllHundred(layers));
    assert AllRounded(WeightSums(layers))[i] > 100.0;
  }

  /** A layer of one feature. */
  function OneFeature(id: string, weight: real, transform: Transform): Layer {
    [Feature(id, weight, Up, (x: real) => true, transform)]
  }

  /** Six layers of one feature each. */
  function RegistryOf(weights: seq<real>, transform: Transform): (layers: seq<Layer>)
    requires |weights| == 6
    ensures |layers| == 6
  {
    seq(6, i requires 0 <= i < 6 => OneFeature(["123456"[i]], weights[i], transform))
  }

  function CloseRegistry(): (layers: seq<Layer>)
    ensures |layers| == 6
  {
    RegistryOf(seq(6, i => 100.00000009), TanhFixed(1.0))
  }

  lemma CloseRounds()
    ensures Round10(100.00000009) == 100.00000009
  {
    assert 100.00000009 * SCALE == 1_000_000_000_900.0;
    assert (1_000_000_000_900.0).Floor == 1_000_000_000_900;
  }

  lemma OneFeatureSum(id: string, weight: real, transform: Transform)
    ensures WeightSum(OneFeature(id, weight, transform)) == weight
  {
    assert OneFeature(id, weight, transform)[..0] == [];
  }

  lemma CloseSums()
    ensures |LAYER_WEIGHTS| == 6 && AllRounded(WeightSums(CloseRegistry())) == seq(|LAYER_WEIGHTS|, i => 100.00000009)
  {
    var layers := CloseRegistry();
    CloseRounds();
    forall i | 0 <= i < 6 ensures WeightSums(layers)[i] == 100.00000009 {
      OneFeatureSum(["123456"[i]], 100.00000009, TanhFixed(1.0));
    }
  }

  lemma CloseTotal()
    ensures HighestTotal(CloseRegistry()) > 100.0
  {
    CloseSums();
    LayerWeightsSum();
    WeightedConstant(100.00000009, LAYER_WEIGHTS);
    Percent(100.00000009, Sum(LAYER_WEIGHTS));
    CloseRounds();
  }

  lemma RegistryDistinct(weights: seq<real>, transform: Transform)
    requires |weights| == 6
    ensures DistinctFeatures(RegistryOf(weights, transform))
  {
    var layers: seq<Layer> := RegistryOf(weights, transform);
    forall i: int, j: int, k: int, l: int | 0 <= i < 6 && 0 <= j < |layers[i]| && 0 <= k < 6 && 0 <= l < |layers[k]| && (i != k || j != l)
      ensures layers[i][j].id != layers[k][l].id
    {
      assert layers[i] == OneFeature(["123456"[i]], weights[i], transform) && layers[k] == OneFeature(["123456"[k]], weights[k], transform);
      assert layers[i][j].id[0] == "123456"[i] && layers[k][l].id[0] == "123456"[k];
    }
  }

  /** Weights within the `isclose` tolerance of 100 make a valid registry. */
  lemma RegistryAccepted(weights: seq<real>, transform: Transform)
    requires |weights| == 6 && forall i :: 0 <= i < 6 ==> 99.99999991 <= weights[i] <= 100.00000009
    ensures RegistryValid(RegistryOf(weights, transform))
  {
    var layers := RegistryOf(weights, transform);
    forall i | 0 <= i < |layers| ensures LayerValid(layers[i]) {
      OneFeatureSum(["123456"[i]], weights[i], transform);
    }
    RegistryDistinct(weights, transform);
  }

  /** A registry that validates, because its weights are close to 100, and still rejects scores in range. */
  lemma CloseWeightsFail()
    ensures RegistryValid(CloseRegistry()) && AllInRange(CloseRegistry(), AllHundred(CloseRegistry()))
    ensures AggregateScores(CloseRegistry(), AllHundred(CloseRegistry())).Err?
  {
    var layers := CloseRegistry();
    RegistryAccepted(seq(6, i => 100.00000009), TanhFixed(1.0));
    CloseTotal();
    HundredInRange(layers);
    HundredSums(layers);
    LayerScoresAre(layers, AllHundred(layers));
  }

  const MIXED_WEIGHTS: seq<real> := [99.99999991, 100.0, 100.0, 100.0, 100.0, 100.00000009]

  function MixedRegistry(): (layers: seq<Layer>)
    ensures |layers| == 6
  {
    RegistryOf(MIXED_WEIGHTS, TanhFixed(1.0))
  }

  lemma MixedSums()
    ensures AllRounded(WeightSums(MixedRegistry())) == MIXED_WEIGHTS
  {
    CloseRounds();
    assert 99.99999991 * SCALE == 999_999_999_100.0 && (999_999_999_100.0).Floor == 999_999_999_100;
    assert Round10(99.99999991) == 99.99999991;
    assert 100.0 * SCALE == 1_000_000_000_000.0 && (1_000_000_000_000.0).Floor == 1_000_000_000_000;
    assert Round10(100.0) == 100.0;
    forall i | 0 <= i < 6 ensures WeightSums(MixedRegistry())[i] == MIXED_WEIGHTS[i] && Round10(MIXED_WEIGHTS[i]) == MIXED_WEIGHTS[i] {
      OneFeatureSum(["123456"[i]], MIXED_WEIGHTS[i], TanhFixed(1.0));
    }
  }

  lemma MixedTotal()
    ensures Weighted(MIXED_WEIGHTS, LAYER_WEIGHTS) == 99.9999999865
  {
    var x, w := MIXED_WEIGHTS, LAYER_WEIGHTS;
    assert Weighted(x[..1], w[..1]) == 19.999999982 && x[..2][..1] == x[..1] && w[..2][..1] == w[..1];
    assert Weighted(x[..2], w[..2]) == 39.999999982 && x[..3][..2] == x[..2] && w[..3][..2] == w[..2];
    assert Weighted(x[..3], w[..3]) == 56.999999982 && x[..4][..3] == x[..3] && w[..4][..3] == w[..3];
    assert Weighted(x[..4], w[..4]) == 81.999999982 && x[..5][..4] == x[..4] && w[..5][..4] == w[..4];
    assert Weighted(x[..5], w[..5]) == 94.999999982 && x[..6][..5] == x[..5] && w[..6][..5] == w[..5];
    assert x[..6] == x && w[..6] == w;
  }

  /** A valid registry whose scores in range aggregate while its sixth layer score exceeds 100. */
  lemma MixedWeightsOverflow()
    ensures RegistryValid(MixedRegistry()) && AllInRange(MixedRegistry(), AllHundred(MixedRegistry()))
    ensures var r := AggregateScores(MixedRegistry(), AllHundred(MixedRegistry()));
            r.Ok? && |r.value.layers| == 6 && r.value.layers[5] > 100.0
  {
    hide Weighted, Round10, WeightSums, AllHundred, RegistryValid, AllInRange, RegistryOf, LayerScores;
    var layers := MixedRegistry();
    RegistryAccepted(MIXED_WEIGHTS, TanhFixed(1.0));
    HundredInRange(layers);
    HundredSums(layers);
    LayerScoresAre(layers, AllHundred(layers));
    MixedSums();
    MixedTotal();
    Round10InRange(Weighted(MIXED_WEIGHTS, LAYER_WEIGHTS));
  }
}
