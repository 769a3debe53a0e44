/** The engine's loops, and what every unblocked evaluation guarantees. */
module ScoringEngine {
  import opened Common
  import opened Sorting
  import opened Rounding
  import opened ScoringModel
  import opened RobustScore
  import opened Aggregation

  // ---------------------------------------------------------------- evaluation

  datatype IdentityFault = RuleUnsupported | RatioNotPositive | AsOfMismatch | IdentityMismatch
  datatype Blocker =
    | Missing(layer: nat, id: string) | Unscored(layer: nat, id: string, why: Error)
    | Identity(layer: nat, rule: string, fault: IdentityFault)

  /** Scores found so far and the reasons that block. */
  datatype Collected = Collected(scores: Scores, blockers: set<Blocker>)

  /** An exception on an empty history is not one of those the loop turns into blockers. */
  predicate Escapes(e: Error) {
    e == NoHistoryData
  }

  function CollectFeature(tanh: real -> real, index: nat, f: Feature, observations: map<string, Observation>, c: Collected): Result<Collected, Error> {
    if f.id !in observations then Ok(c.(blockers := c.blockers + {Missing(index, f.id)}))
    else
      match Score(tanh, f, observations[f.id])
      case Ok(score) => Ok(c.(scores := c.scores[f.id := score]))
      case Err(e) => if Escapes(e) then Err(e) else Ok(c.(blockers := c.blockers + {Unscored(index, f.id, e)}))
  }

  function CollectLayer(tanh: real -> real, index: nat, layer: Layer, observations: map<string, Observation>, c: Collected): Result<Collected, Error> {
    if layer == [] then Ok(c)
    else
      var before :- CollectLayer(tanh, index, layer[..|layer| - 1], observations, c);
      CollectFeature(tanh, index, layer[|layer| - 1], observations, before)
  }

  function CollectAll(tanh: real -> real, layers: seq<Layer>, observations: map<string, Observation>): Result<Collected, Error> {
    if layers == [] then Ok(Collected(map[], {}))
    else
      var before :- CollectAll(tanh, layers[..|layers| - 1], observations);
      CollectLayer(tanh, |layers| - 1, layers[|layers| - 1], observations, before)
  }

  // ---------------------------------------------------------------- identity rules

  datatype Rule =
    | Unsupported(layer: nat, id: string)
    | MvrvNupl(layer: nat, id: string, mvrv: string, nupl: string, tolerance: real)

  /** What one rule of `_identity_blockers` adds. */
  function RuleBlocker(rule: Rule, observations: map<string, Observation>): Option<Blocker> {
    match rule
    case Unsupported(layer, id) => Some(Identity(layer, id, RuleUnsupported))
    case MvrvNupl(layer, id, mvrv, nupl, tolerance) =>
      if mvrv !in observations then Some(Missing(layer, mvrv))
      else if nupl !in observations then Some(Missing(layer, nupl))
      else
        var x, y := observations[mvrv], observations[nupl];
        if x.value <= 0.0 then Some(Identity(layer, id, RatioNotPositive))
        else if x.asOf != y.asOf then Some(Identity(layer, id, AsOfMismatch))
        else if Abs(y.value - (1.0 - 1.0 / x.value)) > tolerance then Some(Identity(layer, id, IdentityMismatch))
        else None
  }

  function RuleBlockers(rules: seq<Rule>, observations: map<string, Observation>): set<Blocker> {
    if rules == [] then {}
    else
      var b := RuleBlocker(rules[|rules| - 1], observations);
      RuleBlockers(rules[..|rules| - 1], observations) + (if b.Some? then {b.value} else {})
  }

  /** A rule blocks nothing exactly when both readings are there at one clock, the ratio is positive, and the
      two satisfy `mvrv * nupl == mvrv - 1` within the tolerance per unit of the ratio. */
  lemma RuleHoldsIff(rule: Rule, observations: map<string, Observation>)
    ensures RuleBlocker(rule, observations).None? <==>
              && rule.MvrvNupl? && rule.mvrv in observations && rule.nupl in observations
              && var x, y := observations[rule.mvrv], observations[rule.nupl];
                 x.value > 0.0 && x.asOf == y.asOf && Abs(x.value * y.value - (x.value - 1.0)) <= rule.tolerance * x.value
  {
    if rule.MvrvNupl? && rule.mvrv in observations && rule.nupl in observations && observations[rule.mvrv].value > 0.0 {
      GapScaled(observations[rule.mvrv].value, observations[rule.nupl].value, rule.tolerance);
    }
  }

  lemma GapScaled(x: real, y: real, tolerance: real)
    requires x > 0.0
    ensures Abs(y - (1.0 - 1.0 / x)) <= tolerance <==> Abs(x * y - (x - 1.0)) <= tolerance * x
  {
    var gap := y - (1.0 - 1.0 / x);
    assert x * gap == x * y - (x - 1.0) by {
      assert x * (1.0 / x) == 1.0;
      assert x * gap == x * y - x * 1.0 + x * (1.0 / x);
    }
    ScaledBound(x, gap, tolerance);
  }

  lemma ScaledBound(x: real, gap: real, tolerance: real)
    requires x > 0.0
    ensures Abs(gap) <= tolerance <==> Abs(x * gap) <= tolerance * x
  {
    if Abs(gap) <= tolerance {
      assert (tolerance - gap) * x >= 0.0 && (tolerance + gap) * x >= 0.0;
    } else if gap > tolerance {
      assert (gap - tolerance) * x > 0.0;
    } else {
      assert (-gap - tolerance) * x > 0.0;
    }
  }

  // ---------------------------------------------------------------- evaluation of all layers

  /** No blocker names the layer. */
  predicate Unblocked(blockers: set<Blocker>, layer: nat) {
    forall b :: b in blockers ==> b.layer != layer
  }

  /** The score of each layer that nothing blocks. */
  function LayerResults(layers: seq<Layer>, scores: Scores, blockers: set<Blocker>): seq<Option<real>> {
    seq(|layers|, i requires 0 <= i < |layers| =>
      if Unblocked(blockers, i) then Some(Round10(ExactSum(layers[i], scores))) else None)
  }

  /** Every blocker names a layer of the registry. */
  predicate LayersKnown(blockers: set<Blocker>, n: nat) {
    forall b :: b in blockers ==> b.layer < n
  }

  datatype Evaluation = Evaluation(scores: Scores, blockers: set<Blocker>, layers: seq<Option<real>>, aggregate: Option<Aggregate>)

  /** `evaluate_candidate` on a validated registry. */
  function Evaluate(tanh: real -> real, layers: seq<Layer>, rules: seq<Rule>, observations: map<string, Observation>): Result<Evaluation, Error>
    requires |layers| == 6
  {
    var c :- CollectAll(tanh, layers, observations);
    var identity := RuleBlockers(rules, observations);
    if !LayersKnown(identity, |layers|) then Err(LayerUnknown)
    else
      var blockers := c.blockers + identity;
      var results := LayerResults(layers, c.scores, blockers);
      if blockers != {} then Ok(Evaluation(c.scores, blockers, results, None))
      else
        var aggregate :- AggregateScores(layers, c.scores);
        Ok(Evaluation(c.scores, blockers, results, Some(aggregate)))
  }

  // ---------------------------------------------------------------- unblocked evaluations

  ghost predicate ScoresInRange(scores: Scores) {
    forall id :: id in scores ==> -100.0 <= scores[id] <= 100.0
  }

  ghost predicate BoundedTanh(tanh: real -> real) {
    forall x :: -1.0 <= tanh(x) <= 1.0
  }

  ghost predicate LayerCovered(layer: Layer, scores: Scores) {
    forall i :: 0 <= i < |layer| ==> layer[i].id in scores
  }

  /** Collecting keeps what was collected, and without blockers of the layer it covers the layer. */
  lemma {:induction false} LayerCollected(tanh: real -> real, index: nat, layer: Layer, observations: map<string, Observation>, c: Collected)
    requires BoundedTanh(tanh) && ScoresInRange(c.scores) && CollectLayer(tanh, index, layer, observations, c).Ok?
    ensures var d := CollectLayer(tanh, index, layer, observations, c).value;
            && ScoresInRange(d.scores) && c.scores.Keys <= d.scores.Keys && c.blockers <= d.blockers
            && (Unblocked(d.blockers, index) ==> LayerCovered(layer, d.scores))
  {
    if layer != [] {
      var init, f := layer[..|layer| - 1], layer[|layer| - 1];
      LayerCollected(tanh, index, init, observations, c);
      var before := CollectLayer(tanh, index, init, observations, c).value;
      if f.id in observations && Score(tanh, f, observations[f.id]).Ok? {
        ScoreInRange(tanh, f, observations[f.id]);
      }
      var after := CollectFeature(tanh, index, f, observations, before).value;
      if Unblocked(after.blockers, index) {
        assert f.id in after.scores;
        CoveredSnoc(layer, before.scores, after.scores);
      }
    }
  }

  lemma CoveredSnoc(layer: Layer, scores: Scores, scores': Scores)
    requires layer != [] && LayerCovered(layer[..|layer| - 1], scores) && scores.Keys <= scores'.Keys && layer[|layer| - 1].id in scores'
    ensures LayerCovered(layer, scores')
  {
    forall i | 0 <= i < |layer| ensures layer[i].id in scores' {
      if i < |layer| - 1 {
        assert layer[..|layer| - 1][i].id in scores;
      }
    }
  }

  lemma {:induction false} AllCollected(tanh: real -> real, layers: seq<Layer>, observations: map<string, Observation>)
    requires BoundedTanh(tanh) && CollectAll(tanh, layers, observations).Ok?
    ensures var c := CollectAll(tanh, layers, observations).value;
            ScoresInRange(c.scores) && forall i :: 0 <= i < |layers| && Unblocked(c.blockers, i) ==> LayerCovered(layers[i], c.scores)
  {
    if layers != [] {
      var init, n := layers[..|layers| - 1], |layers| - 1;
      AllCollected(tanh, init, observations);
      var before := CollectAll(tanh, init, observations).value;
      LayerCollected(tanh, n, layers[n], observations, before);
      var c := CollectAll(tanh, layers, observations).value;
      forall i | 0 <= i < |layers| && Unblocked(c.blockers, i) ensures LayerCovered(layers[i], c.scores) {
        if i < n {
          assert Unblocked(before.blockers, i);
          assert LayerCovered(init[i], before.scores);
        }
      }
    }
  }

  lemma CoveredInRange(layer: Layer, scores: Scores)
    requires LayerCovered(layer, scores) && ScoresInRange(scores)
    ensures LayerInRange(layer, scores)
  {
    forall j | 0 <= j < |layer| ensures FeatureInRange(layer[j], scores) {
      assert layer[j].id in scores;
    }
  }

  /** An evaluation without blockers always yields a total: with weights that sum exactly to 100 its layer
      scores and total lie in [-100, 100] and the total is within 1e-10 of the exact doubly weighted sum. */
  lemma UnblockedEvaluation(tanh: real -> real, layers: seq<Layer>, rules: seq<Rule>, observations: map<string, Observation>)
    requires BoundedTanh(tanh) && |layers| == 6 && Positive(layers) && ExactWeights(layers)
    requires CollectAll(tanh, layers, observations).Ok?
    requires CollectAll(tanh, layers, observations).value.blockers + RuleBlockers(rules, observations) == {}
    ensures var r := Evaluate(tanh, layers, rules, observations);
            && r.Ok? && r.value.aggregate.Some?
            && var a := r.value.aggregate.value;
               && |a.layers| == 6 && (forall i :: 0 <= i < 6 ==> -100.0 <= a.layers[i] <= 100.0)
               && -100.0 <= a.total <= 100.0 && a.bucket == Bucket(a.total)
               && -0.0000000001 <= a.total - ExactTotal(layers, r.value.scores) <= 0.0000000001
  {
    AllCollected(tanh, layers, observations);
    var c := CollectAll(tanh, layers, observations).value;
    assert c.blockers == {} && RuleBlockers(rules, observations) == {};
    hide CollectAll, RuleBlockers, LayerCovered, LayerInRange, LayerResults;
    forall i | 0 <= i < |layers| ensures LayerInRange(layers[i], c.scores) {
      CoveredInRange(layers[i], c.scores);
    }
    AggregationBounded(layers, c.scores);
  }

  /** Also in a blocked evaluation: a layer has a score exactly when no blocker names it, with weights that round
      to at most 100 that score lies in [-100, 100], and it is the one the aggregate reports. */
  lemma ReportedLayers(tanh: real -> real, layers: seq<Layer>, rules: seq<Rule>, observations: map<string, Observation>, i: nat)
    requires BoundedTanh(tanh) && |layers| == 6 && i < 6 && Evaluate(tanh, layers, rules, observations).Ok?
    ensures var e := Evaluate(tanh, layers, rules, observations).value;
            && |e.layers| == 6 && (e.layers[i].Some? <==> Unblocked(e.blockers, i))
            && (e.layers[i].Some? && PositiveWeights(layers[i]) && Round10(WeightSum(layers[i])) <= 100.0 ==> -100.0 <= e.layers[i].value <= 100.0)
            && (e.aggregate.Some? ==> |e.aggregate.value.layers| == 6 && e.layers[i] == Some(e.aggregate.value.layers[i]))
  {
    AllCollected(tanh, layers, observations);
    var c := CollectAll(tanh, layers, observations).value;
    var e := Evaluate(tanh, layers, rules, observations).value;
    hide CollectAll, RuleBlockers, LayerCovered, LayerInRange, ExactSum, WeightSum, Round10;
    if Unblocked(e.blockers, i) {
      assert Unblocked(c.blockers, i);
      CoveredInRange(layers[i], c.scores);
      if PositiveWeights(layers[i]) && Round10(WeightSum(layers[i])) <= 100.0 {
        LayerBetween(layers[i], c.scores);
      }
    }
    if e.aggregate.Some? {
      AggregateLayers(layers, c.scores);
    }
  }

  lemma AggregateLayers(layers: seq<Layer>, scores: Scores)
    requires |layers| == 6 && AggregateScores(layers, scores).Ok?
    ensures AggregateScores(layers, scores).value.layers == AllRounded(ExactSums(layers, scores))
  {
    LayersNeed(layers, scores);
    LayerScoresAre(layers, scores);
  }

  // ---------------------------------------------------------------- evaluations that raise

  /** The slice `[-window:]` of `n` history rows is empty: there are none, or the window is negative and at
      least as long as the history. */
  predicate NothingSelected(n: nat, window: int) {
    n == 0 || window + n <= 0
  }

  predicate AcceptsNothing(t: Transform, n: nat) {
    match t
    case TanhFixed(_) => false
    case RobustZ(window, minimum, _) => minimum <= 0 && NothingSelected(n, window)
    case Percentile(window, minimum) => minimum <= 0 && NothingSelected(n, window)
  }

  /** The observation passes every check and leaves the transform without history. */
  ghost predicate Unhistoried(f: Feature, o: Observation) {
    && o.asOf > 0 && f.inRange(o.value) && RowsAcceptable(o.history, o.asOf, f.inRange)
    && AcceptsNothing(f.transform, |o.history|)
  }

  /** Exactly the observations on which the scorer raises instead of rejecting. */
  lemma ScoreRaisesIff(tanh: real -> real, f: Feature, o: Observation)
    ensures Score(tanh, f, o) == Err(NoHistoryData) <==> Unhistoried(f, o)
  {
    hide Median, Mad, RobustZOf, Clipped, Directed, Below, Equal, Round10, SeenClocks, History, RowsAcceptable, SliceStart;
    match f.transform
    case TanhFixed(_) =>
    case RobustZ(window, minimum, _) => HistoryEmptyIff(o.history, o.asOf, f.inRange, window, minimum);
    case Percentile(window, minimum) => HistoryEmptyIff(o.history, o.asOf, f.inRange, window, minimum);
  }

  lemma HistoryEmptyIff(rows: seq<HistoryRow>, asOf: int, inRange: real -> bool, window: int, minimum: int)
    ensures History(rows, asOf, inRange, window, minimum) == Ok([])
            <==> RowsAcceptable(rows, asOf, inRange) && minimum <= 0 && NothingSelected(|rows|, window)
    ensures History(rows, asOf, inRange, window, minimum) != Err(NoHistoryData)
  {
    hide SortBy, RowsAcceptable;
    AcceptedIff(rows, asOf, inRange);
    SeenErrors(rows, asOf, inRange);
    hide SeenClocks;
    var selected := SortBy(rows, Earlier)[SliceStart(|rows|, window)..];
    assert Values(selected) == [] <==> |selected| == 0;
    assert |selected| == 0 <==> NothingSelected(|rows|, window);
  }

  lemma {:induction false} SeenErrors(rows: seq<HistoryRow>, asOf: int, inRange: real -> bool)
    ensures SeenClocks(rows, asOf, inRange) != Err(NoHistoryData)
  {
    if rows != [] {
      SeenErrors(rows[..|rows| - 1], asOf, inRange);
    }
  }

  /** The feature is observed without history to score it against. */
  ghost predicate FeatureEscapes(f: Feature, observations: map<string, Observation>) {
    f.id in observations && Unhistoried(f, observations[f.id])
  }

  ghost predicate LayerEscapes(layer: Layer, observations: map<string, Observation>) {
    exists i :: 0 <= i < |layer| && FeatureEscapes(layer[i], observations)
  }

  lemma LayerEscapesSnoc(layer: Layer, observations: map<string, Observation>)
    requires layer != []
    ensures LayerEscapes(layer, observations)
            <==> LayerEscapes(layer[..|layer| - 1], observations) || FeatureEscapes(layer[|layer| - 1], observations)
  {
    hide FeatureEscapes;
    var n := |layer| - 1;
    if LayerEscapes(layer, observations) {
      var i :| 0 <= i < |layer| && FeatureEscapes(layer[i], observations);
      assert i < n ==> layer[..n][i] == layer[i];
    }
    if LayerEscapes(layer[..n], observations) {
      var i :| 0 <= i < n && FeatureEscapes(layer[..n][i], observations);
      assert layer[..n][i] == layer[i];
    }
  }

  lemma {:induction false} LayerEscapesIff(tanh: real -> real, index: nat, layer: Layer, observations: map<string, Observation>, c: Collected)
    ensures CollectLayer(tanh, index, layer, observations, c).Err? <==> LayerEscapes(layer, observations)
    ensures CollectLayer(tanh, index, layer, observations, c).Err? ==> CollectLayer(tanh, index, layer, observations, c).error == NoHistoryData
  {
    if layer != [] {
      hide Score, LayerEscapes, Unhistoried;
      LayerEscapesIff(tanh, index, layer[..|layer| - 1], observations, c);
      LayerEscapesSnoc(layer, observations);
      var f := layer[|layer| - 1];
      if f.id in observations {
        ScoreRaisesIff(tanh, f, observations[f.id]);
      }
    }
  }

  lemma {:induction false} AllEscapesIff(tanh: real -> real, layers: seq<Layer>, observations: map<string, Observation>)
    ensures CollectAll(tanh, layers, observations).Err? <==> exists i :: 0 <= i < |layers| && LayerEscapes(layers[i], observations)
    ensures CollectAll(tanh, layers, observations).Err? ==> CollectAll(tanh, layers, observations).error == NoHistoryData
  {
    if layers != [] {
      hide LayerEscapes, CollectLayer;
      var n := |layers| - 1;
      var before := CollectAll(tanh, layers[..n], observations);
      AllEscapesIff(tanh, layers[..n], observations);
      if before.Ok? {
        LayerEscapesIff(tanh, n, layers[n], observations, before.value);
      } else {
        var i :| 0 <= i < n && LayerEscapes(layers[..n][i], observations);
        assert layers[..n][i] == layers[i];
      }
      if i :| 0 <= i < |layers| && LayerEscapes(layers[i], observations) && i < n {
        assert layers[..n][i] == layers[i];
      }
    }
  }

  /** No observation leaves the feature without history: its transform keeps no history or asks for some, or
      no value at all is in its range. */
  ghost predicate AlwaysHistoried(f: Feature) {
    f.transform.TanhFixed? || f.transform.minimum > 0 || forall v :: !f.inRange(v)
  }

  ghost predicate AllHistoried(layers: seq<Layer>) {
    forall i, j :: 0 <= i < |layers| && 0 <= j < |layers[i]| ==> AlwaysHistoried(layers[i][j])
  }

  lemma HistoriedIff(f: Feature)
    ensures AlwaysHistoried(f) <==> forall o :: !Unhistoried(f, o)
  {
    if !AlwaysHistoried(f) {
      var v :| f.inRange(v);
      assert Unhistoried(f, Observation(1, v, []));
    }
  }

  /** Whatever is observed, scoring completes, exactly when every feature asks for history or needs none. */
  lemma ScoringCompletesIff(tanh: real -> real, layers: seq<Layer>)
    ensures (forall observations :: CollectAll(tanh, layers, observations).Ok?) <==> AllHistoried(layers)
  {
    hide CollectAll, Unhistoried, AlwaysHistoried;
    if AllHistoried(layers) {
      forall observations ensures CollectAll(tanh, layers, observations).Ok? {
        HistoriedCompletes(tanh, layers, observations);
      }
    } else {
      var i, j :| 0 <= i < |layers| && 0 <= j < |layers[i]| && !AlwaysHistoried(layers[i][j]);
      var f := layers[i][j];
      HistoriedIff(f);
      var o :| Unhistoried(f, o);
      assert FeatureEscapes(f, map[f.id := o]) && LayerEscapes(layers[i], map[f.id := o]);
      AllEscapesIff(tanh, layers, map[f.id := o]);
    }
  }

  lemma HistoriedCompletes(tanh: real -> real, layers: seq<Layer>, observations: map<string, Observation>)
    requires AllHistoried(layers)
    ensures CollectAll(tanh, layers, observations).Ok?
  {
    hide CollectAll, Unhistoried, AlwaysHistoried;
    AllEscapesIff(tanh, layers, observations);
    if i :| 0 <= i < |layers| && LayerEscapes(layers[i], observations) {
      var j :| 0 <= j < |layers[i]| && FeatureEscapes(layers[i][j], observations);
      HistoriedIff(layers[i][j]);
      assert false;
    }
  }

  /** A valid registry of percentile features that ask for no history. */
  function LaxRegistry(window: int): (layers: seq<Layer>)
    ensures |layers| == 6
  {
    RegistryOf(seq(6, i => 100.0), Percentile(window, 0))
  }

  /** The evaluation raises on an observation with an empty history, and on one whose only row a negative
      window skips. */
  lemma EmptyHistoryRaises(tanh: real -> real, rules: seq<Rule>)
    ensures RegistryValid(LaxRegistry(10))
            && Evaluate(tanh, LaxRegistry(10), rules, map["1" := Observation(2, 0.0, [])]) == Err(NoHistoryData)
    ensures RegistryValid(LaxRegistry(-1))
            && Evaluate(tanh, LaxRegistry(-1), rules, map["1" := Observation(2, 0.0, [HistoryRow(1, 0.0)])]) == Err(NoHistoryData)
  {
    LaxRaises(tanh, 10, Observation(2, 0.0, []), rules);
    LaxRaises(tanh, -1, Observation(2, 0.0, [HistoryRow(1, 0.0)]), rules);
  }

  lemma LaxRaises(tanh: real -> real, window: int, o: Observation, rules: seq<Rule>)
    requires o.asOf > 0 && RowsAcceptable(o.history, o.asOf, (x: real) => true) && NothingSelected(|o.history|, window)
    ensures RegistryValid(LaxRegistry(window)) && Evaluate(tanh, LaxRegistry(window), rules, map["1" := o]) == Err(NoHistoryData)
  {
    var layers := LaxRegistry(window);
    RegistryAccepted(seq(6, i => 100.0), Percentile(window, 0));
    assert ["123456"[0]] == "1";
    assert layers[0] == OneFeature("1", 100.0, Percentile(window, 0));
    hide RowsAcceptable, RegistryOf, CollectAll;
    assert Unhistoried(layers[0][0], o);
    assert FeatureEscapes(layers[0][0], map["1" := o]) && LayerEscapes(layers[0], map["1" := o]);
    AllEscapesIff(tanh, layers, map["1" := o]);
  }

  // ---------------------------------------------------------------- the loops

  lemma {:induction false} HistoryRejected(rows: seq<HistoryRow>, asOf: int, inRange: real -> bool, n: nat)
    requires n <= |rows| && SeenClocks(rows[..n], asOf, inRange).Err?
    ensures SeenClocks(rows, asOf, inRange) == SeenClocks(rows[..n], asOf, inRange)
    decreases |rows| - n
  {
    if n < |rows| {
      assert rows[..n + 1][..n] == rows[..n];
      HistoryRejected(rows, asOf, inRange, n + 1);
    } else {
      assert rows[..n] == rows;
    }
  }

  /** `_history`. */
  method LoadHistory(rows: seq<HistoryRow>, asOf: int, inRange: real -> bool, window: int, minimum: int) returns (r: Result<seq<real>, Error>)
    ensures r == History(rows, asOf, inRange, window, minimum)
  {
    var normalized: seq<HistoryRow>, seen: set<int> := [], {};
    for i := 0 to |rows|
      invariant SeenClocks(rows[..i], asOf, inRange) == Ok(seen) && normalized == rows[..i]
    {
      assert rows[..i + 1][..i] == rows[..i];
      var e := RowError(rows[i], asOf, inRange, seen);
      if e.Some? {
        HistoryRejected(rows, asOf, inRange, i + 1);
        return Err(e.value);
      }
      seen := seen + {rows[i].asOf};
      normalized := normalized + [rows[i]];
    }
    assert rows[..|rows|] == rows;
    normalized := SortBy(normalized, Earlier);
    var selected := normalized[SliceStart(|normalized|, window)..];
    if |selected| < minimum {
      return Err(HistoryInsufficient);
    }
    r := Ok(Values(selected));
  }

  lemma {:induction false} LayerFailed(layer: Layer, scores: Scores, n: nat)
    requires n <= |layer| && LayerSum(layer[..n], scores).Err?
    ensures LayerSum(layer, scores) == LayerSum(layer[..n], scores)
    decreases |layer| - n
  {
    if n < |layer| {
      assert layer[..n + 1][..n] == layer[..n];
      LayerFailed(layer, scores, n + 1);
    } else {
      assert layer[..n] == layer;
    }
  }

  /** The inner loop of `aggregate_feature_scores`. */
  method SumLayer(layer: Layer, scores: Scores) returns (r: Result<real, Error>)
    ensures r == LayerSum(layer, scores)
  {
    var value := 0.0;
    for i := 0 to |layer|
      invariant LayerSum(layer[..i], scores) == Ok(value)
    {
      assert layer[..i + 1][..i] == layer[..i];
      var id := layer[i].id;
      if id !in scores {
        LayerFailed(layer, scores, i + 1);
        return Err(FeatureMissing(id));
      }
      if scores[id] < -100.0 || scores[id] > 100.0 {
        LayerFailed(layer, scores, i + 1);
        return Err(ScoreOutOfRange(id));
      }
      value := value + Term(scores[id], layer[i].weight);
    }
    assert layer[..|layer|] == layer;
    r := Ok(value);
  }

  lemma {:induction false} LayersFailed(layers: seq<Layer>, scores: Scores, n: nat)
    requires n <= |layers| && LayerScores(layers[..n], scores).Err?
    ensures LayerScores(layers, scores) == Err(LayerScores(layers[..n], scores).error)
    decreases |layers| - n
  {
    if n < |layers| {
      assert layers[..n + 1][..n] == layers[..n];
      LayersFailed(layers, scores, n + 1);
    } else {
      assert layers[..n] == layers;
    }
  }

  /** `aggregate_feature_scores`. */
  method AggregateFeatureScores(layers: seq<Layer>, scores: Scores) returns (r: Result<Aggregate, Error>)
    requires |layers| == 6
    ensures r == AggregateScores(layers, scores)
  {
    var layerScores: seq<real> := [];
    for i := 0 to |layers|
      invariant LayerScores(layers[..i], scores) == Ok(layerScores)
    {
      assert layers[..i + 1][..i] == layers[..i];
      var sum := SumLayer(layers[i], scores);
      if sum.Err? {
        LayersFailed(layers, scores, i + 1);
        return Err(sum.error);
      }
      layerScores := layerScores + [Round10(sum.value)];
    }
    assert layers[..|layers|] == layers;
    var total := Round10(Weighted(layerScores, LAYER_WEIGHTS));
    var bucket := LightOf(total);
    r := if bucket.Err? then Err(bucket.error) else Ok(Aggregate(layerScores, total, bucket.value));
  }

  lemma {:induction false} LayerRaised(tanh: real -> real, index: nat, layer: Layer, observations: map<string, Observation>, c: Collected, n: nat)
    requires n <= |layer| && CollectLayer(tanh, index, layer[..n], observations, c).Err?
    ensures CollectLayer(tanh, index, layer, observations, c) == CollectLayer(tanh, index, layer[..n], observations, c)
    decreases |layer| - n
  {
    if n < |layer| {
      assert layer[..n + 1][..n] == layer[..n];
      LayerRaised(tanh, index, layer, observations, c, n + 1);
    } else {
      assert layer[..n] == layer;
    }
  }

  /** The feature loop of `evaluate_candidate`. */
  method ScoreLayer(tanh: real -> real, index: nat, layer: Layer, observations: map<string, Observation>, start: Collected)
    returns (r: Result<Collected, Error>)
    ensures r == CollectLayer(tanh, index, layer, observations, start)
  {
    var c := start;
    for i := 0 to |layer|
      invariant CollectLayer(tanh, index, layer[..i], observations, start) == Ok(c)
    {
      assert layer[..i + 1][..i] == layer[..i];
      var f := layer[i];
      if f.id !in observations {
        c := c.(blockers := c.blockers + {Missing(index, f.id)});
      } else {
        var score := Score(tanh, f, observations[f.id]);
        if score.Ok? {
          c := c.(scores := c.scores[f.id := score.value]);
        } else if Escapes(score.error) {
          LayerRaised(tanh, index, layer, observations, start, i + 1);
          return Err(score.error);
        } else {
          c := c.(blockers := c.blockers + {Unscored(index, f.id, score.error)});
        }
      }
    }
    assert layer[..|layer|] == layer;
    r := Ok(c);
  }

  lemma {:induction false} EvaluationRaised(tanh: real -> real, layers: seq<Layer>, observations: map<string, Observation>, n: nat)
    requires n <= |layers| && CollectAll(tanh, layers[..n], observations).Err?
    ensures CollectAll(tanh, layers, observations) == CollectAll(tanh, layers[..n], observations)
    decreases |layers| - n
  {
    if n < |layers| {
      assert layers[..n + 1][..n] == layers[..n];
      EvaluationRaised(tanh, layers, observations, n + 1);
    } else {
      assert layers[..n] == layers;
    }
  }

  /** `_identity_blockers`. */
  method CheckRules(rules: seq<Rule>, observations: map<string, Observation>) returns (blockers: set<Blocker>)
    ensures blockers == RuleBlockers(rules, observations)
  {
    blockers := {};
    for i := 0 to |rules|
      invariant blockers == RuleBlockers(rules[..i], observations)
    {
      assert rules[..i + 1][..i] == rules[..i];
      var b := RuleBlocker(rules[i], observations);
      if b.Some? {
        blockers := blockers + {b.value};
      }
    }
    assert rules[..|rules|] == rules;
  }

  /** The sum of the scored features of one layer. */
  method WeighLayer(layer: Layer, scores: Scores) returns (sum: real)
    ensures sum == ExactSum(layer, scores)
  {
    sum := 0.0;
    for i := 0 to |layer|
      invariant sum == ExactSum(layer[..i], scores)
    {
      ExactSumSnoc(layer[..i + 1], scores);
      assert layer[..i + 1][..i] == layer[..i];
      sum := sum + Term(ScoreOf(scores, layer[i].id), layer[i].weight);
    }
    assert layer[..|layer|] == layer;
  }

  /** The layer loop that follows the identity rules. */
  method WeighLayers(layers: seq<Layer>, scores: Scores, blockers: set<Blocker>) returns (results: seq<Option<real>>)
    ensures results == LayerResults(layers, scores, blockers)
  {
    results := [];
    for i := 0 to |layers|
      invariant results == LayerResults(layers, scores, blockers)[..i]
    {
      var result := None;
      if Unblocked(blockers, i) {
        var sum := WeighLayer(layers[i], scores);
        result := Some(Round10(sum));
      }
      results := results + [result];
    }
  }

  /** `evaluate_candidate`. */
  method EvaluateCandidate(tanh: real -> real, layers: seq<Layer>, rules: seq<Rule>, observations: map<string, Observation>)
    returns (r: Result<Evaluation, Error>)
    requires |layers| == 6
    ensures r == Evaluate(tanh, layers, rules, observations)
  {
    var c := Collected(map[], {});
    for i := 0 to |layers|
      invariant CollectAll(tanh, layers[..i], observations) == Ok(c)
    {
      assert layers[..i + 1][..i] == layers[..i];
      var collected := ScoreLayer(tanh, i, layers[i], observations, c);
      if collected.Err? {
        EvaluationRaised(tanh, layers, observations, i + 1);
        return Err(collected.error);
      }
      c := collected.value;
    }
    assert layers[..|layers|] == layers;
    var identity := CheckRules(rules, observations);
    if !LayersKnown(identity, |layers|) {
      return Err(LayerUnknown);
    }
    var blockers := c.blockers + identity;
    var results := WeighLayers(layers, c.scores, blockers);
    if blockers != {} {
      return Ok(Evaluation(c.scores, blockers, results, None));
    }
    var aggregate := AggregateFeatureScores(layers, c.scores);
    r := if aggregate.Err? then Err(aggregate.error) else Ok(Evaluation(c.scores, blockers, results, Some(aggregate.value)));
  }
}
