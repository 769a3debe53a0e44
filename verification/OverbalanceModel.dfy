/** Price/time overbalance: completed daily bars, a frozen reference rally, a candidate rally scanned with
    a running high and first-crossing latches, and replay checkpoints. Clocks are milliseconds, prices
    exact reals, and a hash is the value it digests. */
module OverbalanceModel {
  import opened Common

  const DAY := 86_400_000

  datatype Error =
    | OpeningNotPositive | HighNotPositive | LowNotPositive | CloseNotPositive | InvalidOhlcRange
    | ObservationNotComplete | DuplicateStructureBar | UnsortedStructureBars
    | ExplicitCompletionRequired | CompletionFutureLeakage | DuplicateOrUnsortedClose
    | ClockOrderInvalid | InvalidPositiveNumber | InvalidText | ReferenceGainNotPositive | ConsecutiveDaysRequired
    | ReferenceCoverageInvalid | ReferenceHighNotSupported | NoCandidateDays | CandidateCoverageIncomplete
    | CheckpointChanged | FutureCheckpoint | CandidateHistoryChanged

  datatype Completion = Complete | Incomplete | Unspecified
  datatype RawBar = RawBar(available: int, completion: Completion, closed: int, observed: Option<int>,
                           opening: real, high: real, low: real, close: real)
  datatype Bar = Bar(closed: int, available: int, opening: real, high: real, low: real, close: real)

  // ---------------------------------------------------------------- loading bars

  /** The bars complete and available by `asOf`. */
  function SelectedBars(bars: seq<RawBar>, asOf: int): Result<seq<RawBar>, Error> {
    if bars == [] then Ok([])
    else
      var before :- SelectedBars(bars[..|bars| - 1], asOf);
      var raw := bars[|bars| - 1];
      if raw.available > asOf || raw.completion == Incomplete then Ok(before)
      else if raw.completion == Unspecified then Err(ExplicitCompletionRequired)
      else if raw.closed > raw.available then Err(CompletionFutureLeakage)
      else Ok(before + [raw])
  }

  function ObservedAt(raw: RawBar): int {
    if raw.observed.Some? then raw.observed.value else raw.available
  }

  /** First pass of `_visible_structure_bars`. */
  function VisibleBars(bars: seq<RawBar>, asOf: int): Result<seq<RawBar>, Error> {
    if bars == [] then Ok([])
    else
      var before :- VisibleBars(bars[..|bars| - 1], asOf);
      var raw := bars[|bars| - 1];
      if raw.available > asOf then Ok(before)
      else if ObservedAt(raw) > raw.available then Err(ObservationNotComplete)
      else Ok(before + [raw])
  }

  function PriceError(raw: RawBar): Option<Error> {
    if raw.opening <= 0.0 then Some(OpeningNotPositive)
    else if raw.high <= 0.0 then Some(HighNotPositive)
    else if raw.low <= 0.0 then Some(LowNotPositive)
    else if raw.close <= 0.0 then Some(CloseNotPositive)
    else if raw.high < Max(raw.opening, Max(raw.low, raw.close)) || raw.low > Min(raw.opening, Min(raw.high, raw.close))
    then Some(InvalidOhlcRange)
    else None
  }

  /** Second pass of `_visible_structure_bars`: strictly increasing observation times and sane prices. */
  function StructureError(rows: seq<RawBar>): Option<Error> {
    if rows == [] then None
    else
      var n := |rows| - 1;
      var before := StructureError(rows[..n]);
      if before.Some? then before
      else if n > 0 && ObservedAt(rows[n]) == ObservedAt(rows[n - 1]) then Some(DuplicateStructureBar)
      else if n > 0 && ObservedAt(rows[n]) < ObservedAt(rows[n - 1]) then Some(UnsortedStructureBars)
      else PriceError(rows[n])
  }

  function BarOf(raw: RawBar): Bar {
    Bar(raw.closed, raw.available, raw.opening, raw.high, raw.low, raw.close)
  }

  function CloseError(rows: seq<RawBar>): Option<Error> {
    if |rows| <= 1 then None
    else
      var n := |rows| - 1;
      var before := CloseError(rows[..n]);
      if before.Some? then before
      else if rows[n].closed <= rows[n - 1].closed then Some(DuplicateOrUnsortedClose)
      else None
  }

  function BarsOf(rows: seq<RawBar>): seq<Bar> {
    seq(|rows|, i requires 0 <= i < |rows| => BarOf(rows[i]))
  }

  /** `_completed_daily_measurement_bars`. */
  function CompletedBars(bars: seq<RawBar>, asOf: int): Result<seq<Bar>, Error> {
    var selected :- SelectedBars(bars, asOf);
    var visible :- VisibleBars(selected, asOf);
    var structure := StructureError(visible);
    if structure.Some? then Err(structure.value)
    else
      var closes := CloseError(visible);
      if closes.Some? then Err(closes.value) else Ok(BarsOf(visible))
  }

  // ---------------------------------------------------------------- segments

  function Within(rows: seq<Bar>, start: int, end: int, availability: int): seq<Bar> {
    if rows == [] then []
    else
      var before, last := Within(rows[..|rows| - 1], start, end, availability), rows[|rows| - 1];
      if start < last.closed <= end && last.available <= availability then before + [last] else before
  }

  /** Row `i` closes `i + 1` days after `start`. */
  predicate Consecutive(rows: seq<Bar>, start: int) {
    forall i :: 0 <= i < |rows| ==> rows[i].closed == start + (i + 1) * DAY
  }

  /** `segment`. */
  function Segment(rows: seq<Bar>, start: int, end: int, availability: int): Result<seq<Bar>, Error> {
    var found := Within(rows, start, end, availability);
    if Consecutive(found, start) then Ok(found) else Err(ConsecutiveDaysRequired)
  }

  // ---------------------------------------------------------------- reference

  datatype Reference = Reference(startAt: int, endAt: int, startPrice: real, highPrice: real, frozenAt: int,
                                 provenance: string, candidateStartAt: int, candidateStartPrice: real)

  /** The index of the first highest bar. */
  function PeakIndex(rows: seq<Bar>): (k: nat)
    requires rows != []
    ensures k < |rows| && (forall i :: 0 <= i < |rows| ==> rows[i].high <= rows[k].high)
    ensures forall i :: 0 <= i < k ==> rows[i].high < rows[k].high
  {
    if |rows| == 1 then 0
    else
      var before := PeakIndex(rows[..|rows| - 1]);
      if rows[|rows| - 1].high > rows[before].high then |rows| - 1 else before
  }

  function ReferenceReturn(r: Reference): real
    requires r.startPrice > 0.0
  {
    r.highPrice / r.startPrice - 1.0
  }

  function ReferenceError(r: Reference, asOf: int): Option<Error> {
    if !(r.startAt <= r.endAt <= r.frozenAt <= r.candidateStartAt <= asOf) then Some(ClockOrderInvalid)
    else if r.startPrice <= 0.0 || r.highPrice <= 0.0 || r.candidateStartPrice <= 0.0 then Some(InvalidPositiveNumber)
    else if Blank(r.provenance) then Some(InvalidText)
    else if ReferenceReturn(r) <= 0.0 then Some(ReferenceGainNotPositive)
    else None
  }

  /** The anchors with the bars that support them; its digest is the reference hash. */
  datatype Material = Material(reference: Reference, bars: seq<Bar>)

  /** What the candidate scan needs from the reference. */
  datatype Yardstick = Yardstick(price: real, gain: real, duration: nat)

  function YardstickOf(m: Material): Yardstick
    requires m.bars != [] && m.reference.startPrice > 0.0
  {
    Yardstick(m.reference.candidateStartPrice, ReferenceReturn(m.reference), PeakIndex(m.bars) + 1)
  }

  function ReferenceMaterial(visible: seq<Bar>, r: Reference): (m: Result<Material, Error>)
    ensures m.Ok? ==> m.value.bars != [] && m.value.reference == r
  {
    var rows :- Segment(visible, r.startAt, r.endAt, r.frozenAt);
    if rows == [] || rows[|rows| - 1].closed != r.endAt then Err(ReferenceCoverageInvalid)
    else if rows[PeakIndex(rows)].high != r.highPrice then Err(ReferenceHighNotSupported)
    else Ok(Material(r, rows))
  }

  // ---------------------------------------------------------------- scanning the candidate

  datatype Scan = Scan(high: Option<real>, duration: nat, occurrence: Option<int>,
                       priceFirst: Option<int>, timeFirst: Option<int>, bothFirst: Option<int>)

  predicate PriceExceeded(high: real, y: Yardstick)
    requires y.price > 0.0 && y.gain > 0.0
  {
    (high / y.price - 1.0) / y.gain > 1.0
  }

  function Latch(already: Option<int>, now: bool, date: int): Option<int> {
    if now && already.None? then Some(date) else already
  }

  /** One iteration of the measurement loop. */
  function ScanDay(s: Scan, index: nat, row: Bar, y: Yardstick): (t: Scan)
    requires y.price > 0.0 && y.gain > 0.0
    ensures t.high.Some?
  {
    var higher := s.high.None? || row.high > s.high.value;
    var high := if higher then row.high else s.high.value;
    var duration := if higher then index + 1 else s.duration;
    var price, time := PriceExceeded(high, y), duration > y.duration;
    Scan(Some(high), duration, if higher then Some(row.closed) else s.occurrence,
         Latch(s.priceFirst, price, row.closed), Latch(s.timeFirst, time, row.closed), Latch(s.bothFirst, price && time, row.closed))
  }

  function ScanBars(rows: seq<Bar>, y: Yardstick): Scan
    requires y.price > 0.0 && y.gain > 0.0
  {
    if rows == [] then Scan(None, 0, None, None, None, None)
    else ScanDay(ScanBars(rows[..|rows| - 1], y), |rows| - 1, rows[|rows| - 1], y)
  }

  // ---------------------------------------------------------------- the measurement

  datatype Body = Body(asOf: int, material: Material, referenceHash: Material, scan: Scan, candidates: seq<Bar>)

  /** A sealed measurement: `hash` is the body its digest was taken of. */
  datatype Measurement = Measurement(body: Body, hash: Body)

  function VisibleBy(rows: seq<Bar>, at: int): seq<Bar> {
    if rows == [] then []
    else VisibleBy(rows[..|rows| - 1], at) + (if rows[|rows| - 1].available <= at then [rows[|rows| - 1]] else [])
  }

  /** The replay checks against an earlier measurement. */
  function CheckpointError(previous: Measurement, material: Material, candidates: seq<Bar>, asOf: int): Option<Error> {
    if previous.hash != previous.body || previous.body.referenceHash != material then Some(CheckpointChanged)
    else if previous.body.asOf > asOf then Some(FutureCheckpoint)
    else if VisibleBy(candidates, previous.body.asOf) != previous.body.candidates then Some(CandidateHistoryChanged)
    else None
  }

  /** The candidate rally: consecutive completed days up to the last possible one. */
  function CandidateBars(visible: seq<Bar>, r: Reference, asOf: int): Result<seq<Bar>, Error> {
    var rows :- Segment(visible, r.candidateStartAt, asOf, asOf);
    if rows == [] then Err(NoCandidateDays)
    else if rows[|rows| - 1].closed + DAY <= asOf then Err(CandidateCoverageIncomplete)
    else Ok(rows)
  }

  function Sealed(asOf: int, material: Material, candidates: seq<Bar>): Measurement
    requires material.bars != [] && ReferenceError(material.reference, asOf).None?
  {
    var body := Body(asOf, material, material, ScanBars(candidates, YardstickOf(material)), candidates);
    Measurement(body, body)
  }

  /** `build_price_time_overbalance_measurement`. */
  function Measure(bars: seq<RawBar>, r: Reference, asOf: int, previous: Option<Measurement>): Result<Measurement, Error> {
    var e := ReferenceError(r, asOf);
    if e.Some? then Err(e.value)
    else
      var visible :- CompletedBars(bars, asOf);
      var material :- ReferenceMaterial(visible, r);
      var candidates :- CandidateBars(visible, r, asOf);
      var replay := if previous.Some? then CheckpointError(previous.value, material, candidates, asOf) else None;
      if replay.Some? then Err(replay.value) else Ok(Sealed(asOf, material, candidates))
  }
}
