/** What the scan means, and what a chain of replay checkpoints preserves. */
module OverbalanceReplay {
  import opened Common
  import opened OverbalanceModel

  // ---------------------------------------------------------------- what one scan reports

  ghost predicate Usable(y: Yardstick) {
    y.price > 0.0 && y.gain > 0.0 && y.duration > 0
  }

  /** The candidate price that equals the reference gain. */
  function Limit(y: Yardstick): real {
    y.price * (1.0 + y.gain)
  }

  /** The high is above the candidate start by more than the reference gain. */
  lemma PriceExceededIff(high: real, y: Yardstick)
    requires Usable(y)
    ensures PriceExceeded(high, y) <==> high > Limit(y)
  {
    var q := high / y.price;
    var p := (q - 1.0) / y.gain;
    assert q * y.price == high && p * y.gain == q - 1.0;
    assert (p - 1.0) * y.gain == q - 1.0 - y.gain;
    assert (q - 1.0 - y.gain) * y.price == high - y.price * (1.0 + y.gain);
    Signs(p - 1.0, y.gain);
    Signs(q - 1.0 - y.gain, y.price);
  }

  lemma Signs(a: real, b: real)
    requires b > 0.0
    ensures a * b > 0.0 <==> a > 0.0
  {
  }

  /** Row `i` rises above every earlier row. */
  ghost predicate NewHigh(rows: seq<Bar>, i: nat)
    requires i < |rows|
  {
    forall j :: 0 <= j < i ==> rows[j].high < rows[i].high
  }

  ghost predicate OverPrice(rows: seq<Bar>, i: nat, y: Yardstick)
    requires i < |rows|
  {
    rows[i].high > Limit(y)
  }

  /** Row `i` sets a new high after more days than the reference took. */
  ghost predicate OverTime(rows: seq<Bar>, i: nat, y: Yardstick)
    requires i < |rows|
  {
    NewHigh(rows, i) && i >= y.duration
  }

  /** `date` closes the first row with the property, or no row has it. */
  ghost predicate FirstPrice(rows: seq<Bar>, y: Yardstick, date: Option<int>) {
    if date.None? then forall i :: 0 <= i < |rows| ==> !OverPrice(rows, i, y)
    else exists i :: 0 <= i < |rows| && OverPrice(rows, i, y) && rows[i].closed == date.value && forall j :: 0 <= j < i ==> !OverPrice(rows, j, y)
  }

  ghost predicate FirstTime(rows: seq<Bar>, y: Yardstick, date: Option<int>) {
    if date.None? then forall i :: 0 <= i < |rows| ==> !OverTime(rows, i, y)
    else exists i :: 0 <= i < |rows| && OverTime(rows, i, y) && rows[i].closed == date.value && forall j :: 0 <= j < i ==> !OverTime(rows, j, y)
  }

  lemma NewHighOfPrefix(rows: seq<Bar>, i: nat, y: Yardstick)
    requires i < |rows| - 1
    ensures NewHigh(rows, i) == NewHigh(rows[..|rows| - 1], i) && OverTime(rows, i, y) == OverTime(rows[..|rows| - 1], i, y)
    ensures OverPrice(rows, i, y) == OverPrice(rows[..|rows| - 1], i, y)
  {
    var init := rows[..|rows| - 1];
    assert forall j :: 0 <= j < i ==> init[j] == rows[j];
  }

  /** The running high, its first occurrence and its day count. */
  lemma {:induction false} ScanHigh(rows: seq<Bar>, y: Yardstick)
    requires Usable(y) && rows != []
    ensures var s := ScanBars(rows, y);
            s.high == Some(rows[PeakIndex(rows)].high) && s.duration == PeakIndex(rows) + 1 && s.occurrence == Some(rows[PeakIndex(rows)].closed)
  {
    if |rows| > 1 {
      ScanHigh(rows[..|rows| - 1], y);
    }
  }

  lemma FirstPriceSnoc(rows: seq<Bar>, y: Yardstick, date: Option<int>)
    requires rows != [] && FirstPrice(rows[..|rows| - 1], y, date)
    ensures FirstPrice(rows, y, Latch(date, OverPrice(rows, |rows| - 1, y), rows[|rows| - 1].closed))
  {
    var init := rows[..|rows| - 1];
    forall i | 0 <= i < |init| ensures OverPrice(rows, i, y) == OverPrice(init, i, y) {
      NewHighOfPrefix(rows, i, y);
    }
    if date.Some? {
      var i :| 0 <= i < |init| && OverPrice(init, i, y) && init[i].closed == date.value && forall j :: 0 <= j < i ==> !OverPrice(init, j, y);
      assert OverPrice(rows, i, y) && rows[i].closed == date.value;
    } else if OverPrice(rows, |rows| - 1, y) {
      assert rows[|rows| - 1].closed == Latch(date, true, rows[|rows| - 1].closed).value;
    }
  }

  lemma FirstTimeSnoc(rows: seq<Bar>, y: Yardstick, date: Option<int>)
    requires rows != [] && FirstTime(rows[..|rows| - 1], y, date)
    ensures FirstTime(rows, y, Latch(date, OverTime(rows, |rows| - 1, y), rows[|rows| - 1].closed))
  {
    var init := rows[..|rows| - 1];
    forall i | 0 <= i < |init| ensures OverTime(rows, i, y) == OverTime(init, i, y) {
      NewHighOfPrefix(rows, i, y);
    }
    if date.Some? {
      var i :| 0 <= i < |init| && OverTime(init, i, y) && init[i].closed == date.value && forall j :: 0 <= j < i ==> !OverTime(init, j, y);
      assert OverTime(rows, i, y) && rows[i].closed == date.value;
    } else if OverTime(rows, |rows| - 1, y) {
      assert rows[|rows| - 1].closed == Latch(date, true, rows[|rows| - 1].closed).value;
    }
  }

  /** The latch conditions of the loop: a crossing is latched exactly while it holds. */
  ghost predicate Latched(s: Scan, y: Yardstick)
    requires Usable(y)
  {
    && s.high.Some? && (s.priceFirst.Some? <==> PriceExceeded(s.high.value, y)) && (s.timeFirst.Some? <==> s.duration > y.duration)
  }

  lemma ExceededMonotone(a: real, b: real, y: Yardstick)
    requires Usable(y) && a <= b && PriceExceeded(a, y)
    ensures PriceExceeded(b, y)
  {
    PriceExceededIff(a, y);
    PriceExceededIff(b, y);
  }

  lemma {:induction false} ScanLatched(rows: seq<Bar>, y: Yardstick)
    requires Usable(y) && rows != []
    ensures Latched(ScanBars(rows, y), y)
  {
    if |rows| > 1 {
      var init, last := rows[..|rows| - 1], rows[|rows| - 1];
      ScanLatched(init, y);
      ScanHigh(init, y);
      var s, t := ScanBars(init, y), ScanBars(rows, y);
      if s.priceFirst.Some? {
        ExceededMonotone(s.high.value, t.high.value, y);
      }
    }
  }

  /** The reported crossing dates are the first days on which the candidate passed the reference in
      price, and on which it was still making highs after the reference's day count. */
  lemma {:induction false} ScanCrossings(rows: seq<Bar>, y: Yardstick)
    requires Usable(y)
    ensures FirstPrice(rows, y, ScanBars(rows, y).priceFirst) && FirstTime(rows, y, ScanBars(rows, y).timeFirst)
  {
    if rows != [] {
      var init, n := rows[..|rows| - 1], |rows| - 1;
      ScanCrossings(init, y);
      FirstPriceSnoc(rows, y, ScanBars(init, y).priceFirst);
      FirstTimeSnoc(rows, y, ScanBars(init, y).timeFirst);
      PriceLatchStep(rows, y);
      TimeLatchStep(rows, y);
    }
  }

  /** The loop latches price on a day whose own high passes, even though it tests the running high. */
  lemma PriceLatchStep(rows: seq<Bar>, y: Yardstick)
    requires Usable(y) && rows != []
    ensures ScanBars(rows, y).priceFirst
            == Latch(ScanBars(rows[..|rows| - 1], y).priceFirst, OverPrice(rows, |rows| - 1, y), rows[|rows| - 1].closed)
  {
    var init, last := rows[..|rows| - 1], rows[|rows| - 1];
    if init != [] {
      LatchedByLimit(init, y);
    }
    PriceLatchCase(ScanBars(init, y), |init|, last, y);
  }

  lemma LatchedByLimit(rows: seq<Bar>, y: Yardstick)
    requires Usable(y) && rows != []
    ensures ScanBars(rows, y).high.Some? && (ScanBars(rows, y).priceFirst.Some? <==> ScanBars(rows, y).high.value > Limit(y))
  {
    ScanLatched(rows, y);
    PriceExceededIff(ScanBars(rows, y).high.value, y);
  }

  lemma PriceLatchCase(s: Scan, index: nat, last: Bar, y: Yardstick)
    requires Usable(y) && (if s.high.None? then s.priceFirst.None? else s.priceFirst.Some? <==> s.high.value > Limit(y))
    ensures ScanDay(s, index, last, y).priceFirst == Latch(s.priceFirst, last.high > Limit(y), last.closed)
  {
    PriceExceededIff(last.high, y);
    if s.high.Some? {
      PriceExceededIff(s.high.value, y);
    }
  }

  lemma TimeLatchStep(rows: seq<Bar>, y: Yardstick)
    requires Usable(y) && rows != []
    ensures ScanBars(rows, y).timeFirst
            == Latch(ScanBars(rows[..|rows| - 1], y).timeFirst, OverTime(rows, |rows| - 1, y), rows[|rows| - 1].closed)
  {
    var init, last := rows[..|rows| - 1], rows[|rows| - 1];
    if init != [] {
      ScanLatched(init, y);
      ScanHigh(init, y);
      var k := PeakIndex(init);
      assert NewHigh(rows, |rows| - 1) <==> last.high > init[k].high by {
        assert rows[k] == init[k];
        assert forall j :: 0 <= j < |init| ==> rows[j] == init[j] && init[j].high <= init[k].high;
      }
    }
  }

  // ---------------------------------------------------------------- the joint date

  /** The later of two dates, once both exist. */
  function LaterOf(a: Option<int>, b: Option<int>): Option<int> {
    if a.None? || b.None? then None else Some(if a.value <= b.value then b.value else a.value)
  }

  ghost predicate NotAfter(date: Option<int>, limit: int) {
    date.Some? ==> date.value <= limit
  }

  /** Row dates never decrease. */
  ghost predicate Dated(rows: seq<Bar>) {
    forall i, j :: 0 <= i < j < |rows| ==> rows[i].closed <= rows[j].closed
  }

  /** The joint date is always the later of the price and time dates. */
  lemma {:induction false} JointIsLater(rows: seq<Bar>, y: Yardstick)
    requires Usable(y) && Dated(rows)
    ensures var s := ScanBars(rows, y);
            && s.bothFirst == LaterOf(s.priceFirst, s.timeFirst)
            && (rows != [] ==> NotAfter(s.priceFirst, rows[|rows| - 1].closed) && NotAfter(s.timeFirst, rows[|rows| - 1].closed))
  {
    if rows != [] {
      JointIsLater(rows[..|rows| - 1], y);
      ScanLatched(rows, y);
    }
  }

  // ---------------------------------------------------------------- latches survive more days

  /** Nothing reported in `s` is moved or withdrawn in `t`. */
  ghost predicate DatesKept(s: Scan, t: Scan) {
    && (s.priceFirst.Some? ==> t.priceFirst == s.priceFirst)
    && (s.timeFirst.Some? ==> t.timeFirst == s.timeFirst)
    && (s.bothFirst.Some? ==> t.bothFirst == s.bothFirst)
    && (s.high.Some? ==> t.high.Some? && s.high.value <= t.high.value && s.duration <= t.duration)
  }

  lemma {:induction false} ScanExtends(rows: seq<Bar>, n: nat, y: Yardstick)
    requires Usable(y) && n <= |rows|
    ensures DatesKept(ScanBars(rows[..n], y), ScanBars(rows, y))
  {
    if n < |rows| {
      var init := rows[..|rows| - 1];
      ScanExtends(init, n, y);
      assert init[..n] == rows[..n];
      if init != [] {
        ScanHigh(init, y);
      }
    } else {
      assert rows[..n] == rows;
    }
  }

  // ---------------------------------------------------------------- literal prefixes

  /** Positions of a list kept by a filter: strictly increasing and pointing at equal rows. */
  lemma {:induction false} VisibleFrom(rows: seq<Bar>, at: int, start: int, i: nat)
    requires Consecutive(rows, start) && i < |VisibleBy(rows, at)|
    ensures exists k :: i <= k < |rows| && rows[k] == VisibleBy(rows, at)[i]
  {
    var init := rows[..|rows| - 1];
    if i < |VisibleBy(init, at)| {
      VisibleFrom(init, at, start, i);
      var k :| i <= k < |init| && init[k] == VisibleBy(init, at)[i];
      assert rows[k] == VisibleBy(rows, at)[i];
    } else {
      VisibleLength(init, at);
      assert rows[|rows| - 1] == VisibleBy(rows, at)[i];
    }
  }

  lemma {:induction false} VisibleLength(rows: seq<Bar>, at: int)
    ensures |VisibleBy(rows, at)| <= |rows|
  {
    if rows != [] {
      VisibleLength(rows[..|rows| - 1], at);
    }
  }

  /** Rows that survive the filter and are themselves consecutive days are a literal prefix. */
  lemma VisibleIsPrefix(rows: seq<Bar>, at: int, start: int)
    requires Consecutive(rows, start) && Consecutive(VisibleBy(rows, at), start)
    ensures VisibleBy(rows, at) <= rows
  {
    var kept := VisibleBy(rows, at);
    VisibleLength(rows, at);
    forall i | 0 <= i < |kept| ensures kept[i] == rows[i] {
      VisibleFrom(rows, at, start, i);
      var k :| i <= k < |rows| && rows[k] == kept[i];
      assert rows[k].closed == start + (k + 1) * DAY && kept[i].closed == start + (i + 1) * DAY;
    }
  }

  // ---------------------------------------------------------------- checkpoint chains

  /** Everything an accepted measurement carries. */
  ghost predicate WellMeasured(m: Measurement) {
    && m.hash == m.body && m.body.referenceHash == m.body.material && m.body.material.bars != []
    && ReferenceError(m.body.material.reference, m.body.asOf).None?
    && Usable(YardstickOf(m.body.material))
    && Consecutive(m.body.candidates, m.body.material.reference.candidateStartAt)
    && m.body.scan == ScanBars(m.body.candidates, YardstickOf(m.body.material))
  }

  lemma MeasureFacts(bars: seq<RawBar>, r: Reference, asOf: int, previous: Option<Measurement>)
    requires Measure(bars, r, asOf, previous).Ok?
    ensures var m := Measure(bars, r, asOf, previous).value;
            && WellMeasured(m) && m.body.asOf == asOf && m.body.candidates != []
            && (previous.Some? ==> CheckpointError(previous.value, m.body.material, m.body.candidates, asOf).None?)
  {
  }

  lemma ConsecutiveDated(rows: seq<Bar>, start: int)
    requires Consecutive(rows, start)
    ensures Dated(rows)
  {
    forall i, j | 0 <= i < j < |rows| ensures rows[i].closed <= rows[j].closed {
      assert rows[i].closed == start + (i + 1) * DAY && rows[j].closed == start + (j + 1) * DAY;
    }
  }

  /** The later measurement continues the earlier one: same reference, literal prefix, dates kept. */
  ghost predicate Continues(m: Measurement, m': Measurement) {
    && m'.body.material == m.body.material && m.body.asOf <= m'.body.asOf
    && m.body.candidates <= m'.body.candidates && DatesKept(m.body.scan, m'.body.scan)
  }

  lemma Replayed(m: Measurement, m': Measurement)
    requires WellMeasured(m) && WellMeasured(m')
    requires CheckpointError(m, m'.body.material, m'.body.candidates, m'.body.asOf).None?
    ensures Continues(m, m')
  {
    var rows, kept := m'.body.candidates, m.body.candidates;
    VisibleIsPrefix(rows, m.body.asOf, m.body.material.reference.candidateStartAt);
    assert rows[..|kept|] == kept;
    ScanExtends(rows, |kept|, YardstickOf(m.body.material));
  }

  datatype Request = Request(bars: seq<RawBar>, reference: Reference, asOf: int)

  /** Each measurement was built from its own request and accepted its predecessor as checkpoint. */
  ghost predicate Step(requests: seq<Request>, chain: seq<Measurement>, i: nat)
    requires i < |chain| && |requests| == |chain|
  {
    Measure(requests[i].bars, requests[i].reference, requests[i].asOf, if i == 0 then None else Some(chain[i - 1])) == Ok(chain[i])
  }

  ghost predicate Chain(requests: seq<Request>, chain: seq<Measurement>) {
    |requests| == |chain| && forall i :: 0 <= i < |chain| ==> Step(requests, chain, i)
  }

  lemma ChainMeasured(requests: seq<Request>, chain: seq<Measurement>, i: nat)
    requires Chain(requests, chain) && i < |chain|
    ensures WellMeasured(chain[i])
    ensures i > 0 ==> CheckpointError(chain[i - 1], chain[i].body.material, chain[i].body.candidates, chain[i].body.asOf).None?
  {
    assert Step(requests, chain, i);
    MeasureFacts(requests[i].bars, requests[i].reference, requests[i].asOf, if i == 0 then None else Some(chain[i - 1]));
  }

  /** Across every chain of accepted checkpoints, whatever bars each request supplied, an earlier bar list
      is a literal prefix of every later one and no reported date moves or disappears. */
  lemma {:induction false} ChainContinues(requests: seq<Request>, chain: seq<Measurement>, i: nat, j: nat)
    requires Chain(requests, chain) && i <= j < |chain|
    ensures Continues(chain[i], chain[j])
    decreases j
  {
    if i < j {
      ChainContinues(requests, chain, i, j - 1);
      ChainMeasured(requests, chain, j - 1);
      ChainMeasured(requests, chain, j);
      Replayed(chain[j - 1], chain[j]);
    }
  }

  /** Every accepted measurement reports the true crossings of its bars and the later of the two as joint date. */
  lemma MeasurementMeans(bars: seq<RawBar>, r: Reference, asOf: int, previous: Option<Measurement>)
    requires Measure(bars, r, asOf, previous).Ok?
    ensures var b := Measure(bars, r, asOf, previous).value.body;
            && b.material.bars != [] && b.material.reference.startPrice > 0.0 && b.candidates != []
            && var y := YardstickOf(b.material);
               && FirstPrice(b.candidates, y, b.scan.priceFirst) && FirstTime(b.candidates, y, b.scan.timeFirst)
               && b.scan.bothFirst == LaterOf(b.scan.priceFirst, b.scan.timeFirst)
               && b.scan.duration == PeakIndex(b.candidates) + 1 && b.scan.high == Some(b.candidates[PeakIndex(b.candidates)].high)
  {
    MeasureFacts(bars, r, asOf, previous);
    var b := Measure(bars, r, asOf, previous).value.body;
    var y := YardstickOf(b.material);
    ConsecutiveDated(b.candidates, b.material.reference.candidateStartAt);
    ScanCrossings(b.candidates, y);
    JointIsLater(b.candidates, y);
    ScanHigh(b.candidates, y);
  }
}
