/** Candidate feature scores: history selection, the three transforms, two-level weighted aggregation and
    the five light buckets. Floats are exact reals apart from the explicit ten-decimal rounding. */
module ScoringModel {
  import opened Common
  import opened Sorting
  import opened Rounding

  datatype Error =
    | AsOfInvalid | ValueOutOfRange | NotStrictlyPrior | DuplicateTimestamp | HistoryInsufficient | NoHistoryData
    | ScaleInvalid | ClipInvalid | ZeroDispersion | FeatureMissing(id: string) | ScoreOutOfRange(id: string) | LightOutOfRange
    | LayerUnknown

  datatype Transform = TanhFixed(scale: real) | RobustZ(window: int, minimum: int, clip: real) | Percentile(window: int, minimum: int)

  /** A feature's `direction`, 1 or -1; the registry admits no other. */
  datatype Direction = Up | Down

  function Signed(d: Direction, x: real): real {
    if d.Up? then x else -x
  }

  /** `inRange` is the feature's `valid_range`. */
  datatype Feature = Feature(id: string, weight: real, direction: Direction, inRange: real -> bool, transform: Transform)
  datatype HistoryRow = HistoryRow(asOf: int, value: real)
  datatype Observation = Observation(asOf: int, value: real, history: seq<HistoryRow>)

  // ---------------------------------------------------------------- history

  function RowError(row: HistoryRow, asOf: int, inRange: real -> bool, seen: set<int>): Option<Error> {
    if row.asOf >= asOf then Some(NotStrictlyPrior)
    else if row.asOf in seen then Some(DuplicateTimestamp)
    else if !inRange(row.value) then Some(ValueOutOfRange)
    else None
  }

  /** The clocks seen by the row loop, or its first rejection. */
  function SeenClocks(rows: seq<HistoryRow>, asOf: int, inRange: real -> bool): Result<set<int>, Error> {
    if rows == [] then Ok({})
    else
      var seen :- SeenClocks(rows[..|rows| - 1], asOf, inRange);
      var row := rows[|rows| - 1];
      var e := RowError(row, asOf, inRange, seen);
      if e.Some? then Err(e.value) else Ok(seen + {row.asOf})
  }

  predicate Earlier(x: HistoryRow, y: HistoryRow) {
    x.asOf <= y.asOf
  }

  /** Where the slice `[-window:]` of a list of length `n` starts. */
  function SliceStart(n: nat, window: int): (k: nat)
    ensures k <= n
  {
    if window == 0 then 0
    else if window > 0 then if window >= n then 0 else n - window
    else if -window >= n then n else -window
  }

  function Values(rows: seq<HistoryRow>): seq<real> {
    seq(|rows|, i requires 0 <= i < |rows| => rows[i].value)
  }

  /** `_history`. */
  function History(rows: seq<HistoryRow>, asOf: int, inRange: real -> bool, window: int, minimum: int): Result<seq<real>, Error> {
    var _ :- SeenClocks(rows, asOf, inRange);
    var sorted := SortBy(rows, Earlier);
    var selected := sorted[SliceStart(|sorted|, window)..];
    if |selected| < minimum then Err(HistoryInsufficient) else Ok(Values(selected))
  }

  // ---------------------------------------------------------------- statistics

  predicate AtMost(x: real, y: real) {
    x <= y
  }

  function Middle(s: seq<real>): real
    requires s != []
  {
    if |s| % 2 == 1 then s[|s| / 2] else (s[|s| / 2 - 1] + s[|s| / 2]) / 2.0
  }

  /** `statistics.median`. */
  function Median(s: seq<real>): real
    requires s != []
  {
    Middle(SortBy(s, AtMost))
  }

  function Abs(x: real): real {
    if x < 0.0 then -x else x
  }

  function Deviations(s: seq<real>, center: real): seq<real> {
    seq(|s|, i requires 0 <= i < |s| => Abs(s[i] - center))
  }

  function Mad(s: seq<real>): real
    requires s != []
  {
    Median(Deviations(s, Median(s)))
  }

  function Below(s: seq<real>, v: real): nat {
    if s == [] then 0 else Below(s[..|s| - 1], v) + (if s[|s| - 1] < v then 1 else 0)
  }

  function Equal(s: seq<real>, v: real): nat {
    if s == [] then 0 else Equal(s[..|s| - 1], v) + (if s[|s| - 1] == v then 1 else 0)
  }

  // ---------------------------------------------------------------- one feature

  const MAD_FACTOR := 1.4826

  function RobustZOf(value: real, center: real, mad: real): real
    requires mad > 0.0
  {
    (value - center) / (MAD_FACTOR * mad)
  }

  /** A z value clipped and expressed in units of the clip. */
  function Clipped(z: real, clip: real): real
    requires clip > 0.0
  {
    Max(-clip, Min(clip, z)) / clip
  }

  function Directed(direction: Direction, unit: real): real {
    Round10(100.0 * Signed(direction, unit))
  }

  function RobustFrom(direction: Direction, value: real, center: real, mad: real, clip: real): Result<real, Error> {
    if mad <= 0.0 then Err(ZeroDispersion)
    else if clip <= 0.0 then Err(ClipInvalid)
    else Ok(Directed(direction, Clipped(RobustZOf(value, center, mad), clip)))
  }

  function RobustScore(direction: Direction, value: real, history: seq<real>, clip: real): Result<real, Error> {
    if history == [] then Err(NoHistoryData)
    else RobustFrom(direction, value, Median(history), Mad(history), clip)
  }

  function PercentileScore(direction: Direction, value: real, history: seq<real>): Result<real, Error> {
    if history == [] then Err(NoHistoryData)
    else
      var percentile := (Below(history, value) as real + 0.5 * Equal(history, value) as real) / |history| as real;
      Ok(Directed(direction, 2.0 * percentile - 1.0))
  }

  function TanhScore(tanh: real -> real, direction: Direction, value: real, scale: real): Result<real, Error> {
    if scale <= 0.0 then Err(ScaleInvalid) else Ok(Round10(100.0 * tanh(Signed(direction, value) / scale)))
  }

  /** `score_feature`; `tanh` is the library's hyperbolic tangent. */
  function Score(tanh: real -> real, f: Feature, o: Observation): Result<real, Error> {
    if o.asOf <= 0 then Err(AsOfInvalid)
    else if !f.inRange(o.value) then Err(ValueOutOfRange)
    else
      match f.transform
      case TanhFixed(scale) =>
        TanhScore(tanh, f.direction, o.value, scale)
      case RobustZ(window, minimum, clip) =>
        var history :- History(o.history, o.asOf, f.inRange, window, minimum);
        RobustScore(f.direction, o.value, history, clip)
      case Percentile(window, minimum) =>
        var history :- History(o.history, o.asOf, f.inRange, window, minimum);
        PercentileScore(f.direction, o.value, history)
  }

  // ---------------------------------------------------------------- buckets and aggregation

  /** `bisect_right` over the thresholds -60, -35, 35 and 60. */
  function Bucket(score: real): nat {
    if score < -60.0 then 0 else if score < -35.0 then 1 else if score < 35.0 then 2 else if score < 60.0 then 3 else 4
  }

  /** `threshold_bucket`. */
  function LightOf(score: real): Result<nat, Error> {
    if score < -100.0 || score > 100.0 then Err(LightOutOfRange) else Ok(Bucket(score))
  }

  type Layer = seq<Feature>
  type Scores = map<string, real>

  /** Percent weights of L1 to L6. */
  const LAYER_WEIGHTS: seq<real> := [20.0, 20.0, 17.0, 25.0, 13.0, 5.0]

  /** A score weighted by a percentage. */
  function Term(score: real, weight: real): real {
    score * weight / 100.0
  }

  /** The weighted sum of one layer, or the first missing or out-of-range score. */
  function LayerSum(layer: Layer, scores: Scores): Result<real, Error> {
    if layer == [] then Ok(0.0)
    else
      var before :- LayerSum(layer[..|layer| - 1], scores);
      var f := layer[|layer| - 1];
      if f.id !in scores then Err(FeatureMissing(f.id))
      else if scores[f.id] < -100.0 || scores[f.id] > 100.0 then Err(ScoreOutOfRange(f.id))
      else Ok(before + Term(scores[f.id], f.weight))
  }

  function LayerScores(layers: seq<Layer>, scores: Scores): (r: Result<seq<real>, Error>)
    ensures r.Ok? ==> |r.value| == |layers|
  {
    if layers == [] then Ok([])
    else
      var before :- LayerScores(layers[..|layers| - 1], scores);
      var sum :- LayerSum(layers[|layers| - 1], scores);
      Ok(before + [Round10(sum)])
  }

  /** `sum(score * weight / 100)` over two lists. */
  function Weighted(values: seq<real>, weights: seq<real>): real
    requires |values| == |weights|
  {
    if values == [] then 0.0
    else Weighted(values[..|values| - 1], weights[..|weights| - 1]) + Term(values[|values| - 1], weights[|weights| - 1])
  }

  datatype Aggregate = Aggregate(layers: seq<real>, total: real, bucket: nat)

  /** `aggregate_feature_scores` on a registry of six layers. */
  function AggregateScores(layers: seq<Layer>, scores: Scores): Result<Aggregate, Error>
    requires |layers| == 6
  {
    var layerScores :- LayerScores(layers, scores);
    var total := Round10(Weighted(layerScores, LAYER_WEIGHTS));
    var bucket :- LightOf(total);
    Ok(Aggregate(layerScores, total, bucket))
  }

  // ---------------------------------------------------------------- the registry

  function WeightSum(layer: Layer): real {
    if layer == [] then 0.0 else WeightSum(layer[..|layer| - 1]) + layer[|layer| - 1].weight
  }

  /** `math.isclose(x, 100.0)` with its default relative tolerance. */
  predicate CloseToHundred(x: real) {
    Abs(x - 100.0) <= 0.000000001 * Max(Abs(x), 100.0)
  }

  predicate LayerValid(layer: Layer) {
    && layer != [] && CloseToHundred(WeightSum(layer))
    && forall i :: 0 <= i < |layer| ==> layer[i].id != "" && layer[i].weight > 0.0
  }

  /** Two features anywhere in the registry have different ids. */
  ghost predicate DistinctFeatures(layers: seq<Layer>) {
    forall i, j, k, l :: 0 <= i < |layers| && 0 <= j < |layers[i]| && 0 <= k < |layers| && 0 <= l < |layers[k]| && (i != k || j != l)
                         ==> layers[i][j].id != layers[k][l].id
  }

  /** What `validate_registry` checks of the layers. */
  ghost predicate RegistryValid(layers: seq<Layer>) {
    |layers| == 6 && (forall i :: 0 <= i < |layers| ==> LayerValid(layers[i])) && DistinctFeatures(layers)
  }
}
