/** The loops that load daily bars and scan the candidate rally, each proved against its model function. */
module OverbalanceBuilder {
  import opened Common
  import opened OverbalanceModel

  lemma {:induction false} SelectionFailed(bars: seq<RawBar>, asOf: int, n: nat)
    requires n <= |bars| && SelectedBars(bars[..n], asOf).Err?
    ensures SelectedBars(bars, asOf) == SelectedBars(bars[..n], asOf)
    decreases |bars| - n
  {
    if n < |bars| {
      assert bars[..n + 1][..n] == bars[..n];
      SelectionFailed(bars, asOf, n + 1);
    } else {
      assert bars[..n] == bars;
    }
  }

  /** The selection loop of `_completed_daily_measurement_bars`. */
  method SelectCompleted(bars: seq<RawBar>, asOf: int) returns (r: Result<seq<RawBar>, Error>)
    ensures r == SelectedBars(bars, asOf)
  {
    var selected: seq<RawBar> := [];
    for i := 0 to |bars|
      invariant SelectedBars(bars[..i], asOf) == Ok(selected)
    {
      assert bars[..i + 1][..i] == bars[..i];
      var raw := bars[i];
      if raw.available <= asOf && raw.completion != Incomplete {
        if raw.completion == Unspecified {
          SelectionFailed(bars, asOf, i + 1);
          return Err(ExplicitCompletionRequired);
        }
        if raw.closed > raw.available {
          SelectionFailed(bars, asOf, i + 1);
          return Err(CompletionFutureLeakage);
        }
        selected := selected + [raw];
      }
    }
    assert bars[..|bars|] == bars;
    r := Ok(selected);
  }

  lemma {:induction false} VisibilityFailed(bars: seq<RawBar>, asOf: int, n: nat)
    requires n <= |bars| && VisibleBars(bars[..n], asOf).Err?
    ensures VisibleBars(bars, asOf) == VisibleBars(bars[..n], asOf)
    decreases |bars| - n
  {
    if n < |bars| {
      assert bars[..n + 1][..n] == bars[..n];
      VisibilityFailed(bars, asOf, n + 1);
    } else {
      assert bars[..n] == bars;
    }
  }

  /** The first loop of `_visible_structure_bars`. */
  method CollectVisible(bars: seq<RawBar>, asOf: int) returns (r: Result<seq<RawBar>, Error>)
    ensures r == VisibleBars(bars, asOf)
  {
    var visible: seq<RawBar> := [];
    for i := 0 to |bars|
      invariant VisibleBars(bars[..i], asOf) == Ok(visible)
    {
      assert bars[..i + 1][..i] == bars[..i];
      if bars[i].available <= asOf {
        if ObservedAt(bars[i]) > bars[i].available {
          VisibilityFailed(bars, asOf, i + 1);
          return Err(ObservationNotComplete);
        }
        visible := visible + [bars[i]];
      }
    }
    assert bars[..|bars|] == bars;
    r := Ok(visible);
  }

  lemma {:induction false} StructureFailed(rows: seq<RawBar>, n: nat)
    requires n <= |rows| && StructureError(rows[..n]).Some?
    ensures StructureError(rows) == StructureError(rows[..n])
    decreases |rows| - n
  {
    if n < |rows| {
      assert rows[..n + 1][..n] == rows[..n];
      StructureFailed(rows, n + 1);
    } else {
      assert rows[..n] == rows;
    }
  }

  /** The second loop of `_visible_structure_bars`, which remembers the previous observation time. */
  method CheckStructure(rows: seq<RawBar>) returns (r: Option<Error>)
    ensures r == StructureError(rows)
  {
    var previous: Option<int> := None;
    for i := 0 to |rows|
      invariant StructureError(rows[..i]).None?
      invariant previous == if i == 0 then None else Some(ObservedAt(rows[i - 1]))
    {
      assert rows[..i + 1][..i] == rows[..i];
      var at := ObservedAt(rows[i]);
      if previous.Some? && at <= previous.value {
        StructureFailed(rows, i + 1);
        return Some(if at == previous.value then DuplicateStructureBar else UnsortedStructureBars);
      }
      previous := Some(at);
      var e := PriceError(rows[i]);
      if e.Some? {
        StructureFailed(rows, i + 1);
        return e;
      }
    }
    assert rows[..|rows|] == rows;
    r := None;
  }

  lemma {:induction false} CloseFailed(rows: seq<RawBar>, n: nat)
    requires n <= |rows| && CloseError(rows[..n]).Some?
    ensures CloseError(rows) == CloseError(rows[..n])
    decreases |rows| - n
  {
    if n < |rows| {
      assert rows[..n + 1][..n] == rows[..n];
      CloseFailed(rows, n + 1);
    } else {
      assert rows[..n] == rows;
    }
  }

  /** The pairing loop that checks daily closes against the previous result row. */
  method PairCloses(rows: seq<RawBar>) returns (r: Result<seq<Bar>, Error>)
    ensures r == match CloseError(rows) case Some(e) => Err(e) case None => Ok(BarsOf(rows))
  {
    var result: seq<Bar> := [];
    for i := 0 to |rows|
      invariant CloseError(rows[..i]).None? && result == BarsOf(rows[..i])
    {
      assert rows[..i + 1][..i] == rows[..i];
      if i > 0 && rows[i].closed <= result[i - 1].closed {
        CloseFailed(rows, i + 1);
        return Err(DuplicateOrUnsortedClose);
      }
      result := result + [BarOf(rows[i])];
    }
    assert rows[..|rows|] == rows;
    r := Ok(result);
  }

  /** `_completed_daily_measurement_bars`. */
  method LoadCompletedBars(bars: seq<RawBar>, asOf: int) returns (r: Result<seq<Bar>, Error>)
    ensures r == CompletedBars(bars, asOf)
  {
    var selected := SelectCompleted(bars, asOf);
    if selected.Err? {
      return Err(selected.error);
    }
    var visible := CollectVisible(selected.value, asOf);
    if visible.Err? {
      return Err(visible.error);
    }
    var structure := CheckStructure(visible.value);
    if structure.Some? {
      return Err(structure.value);
    }
    r := PairCloses(visible.value);
  }

  method FilterRows(rows: seq<Bar>, start: int, end: int, availability: int) returns (found: seq<Bar>)
    ensures found == Within(rows, start, end, availability)
  {
    found := [];
    for i := 0 to |rows|
      invariant found == Within(rows[..i], start, end, availability)
    {
      assert rows[..i + 1][..i] == rows[..i];
      if start < rows[i].closed <= end && rows[i].available <= availability {
        found := found + [rows[i]];
      }
    }
    assert rows[..|rows|] == rows;
  }

  /** `segment`, which steps an expected close by one day per row. */
  method TakeSegment(rows: seq<Bar>, start: int, end: int, availability: int) returns (r: Result<seq<Bar>, Error>)
    ensures r == Segment(rows, start, end, availability)
  {
    var found := FilterRows(rows, start, end, availability);
    var expected := start + DAY;
    for i := 0 to |found|
      invariant expected == start + (i + 1) * DAY
      invariant forall j :: 0 <= j < i ==> found[j].closed == start + (j + 1) * DAY
    {
      if found[i].closed != expected {
        return Err(ConsecutiveDaysRequired);
      }
      expected := expected + DAY;
    }
    r := Ok(found);
  }

  /** The measurement loop: running high, its day count, and the three latches. */
  method ScanCandidate(rows: seq<Bar>, y: Yardstick) returns (s: Scan)
    requires y.price > 0.0 && y.gain > 0.0
    ensures s == ScanBars(rows, y)
  {
    var high: Option<real>, duration: nat, occurrence: Option<int> := None, 0, None;
    var priceFirst: Option<int>, timeFirst: Option<int>, bothFirst: Option<int> := None, None, None;
    for i := 0 to |rows|
      invariant ScanBars(rows[..i], y) == Scan(high, duration, occurrence, priceFirst, timeFirst, bothFirst)
    {
      assert rows[..i + 1][..i] == rows[..i];
      if high.None? || rows[i].high > high.value {
        high, duration, occurrence := Some(rows[i].high), i + 1, Some(rows[i].closed);
      }
      var price, time := PriceExceeded(high.value, y), duration > y.duration;
      if price && priceFirst.None? {
        priceFirst := Some(rows[i].closed);
      }
      if time && timeFirst.None? {
        timeFirst := Some(rows[i].closed);
      }
      if price && time && bothFirst.None? {
        bothFirst := Some(rows[i].closed);
      }
    }
    assert rows[..|rows|] == rows;
    s := Scan(high, duration, occurrence, priceFirst, timeFirst, bothFirst);
  }

  /** The frozen rally must be covered by bars and peak at the declared high. */
  method SupportReference(visible: seq<Bar>, r: Reference) returns (m: Result<Material, Error>)
    ensures m == ReferenceMaterial(visible, r)
  {
    var rows := TakeSegment(visible, r.startAt, r.endAt, r.frozenAt);
    if rows.Err? {
      return Err(rows.error);
    }
    if rows.value == [] || rows.value[|rows.value| - 1].closed != r.endAt {
      return Err(ReferenceCoverageInvalid);
    }
    if rows.value[PeakIndex(rows.value)].high != r.highPrice {
      return Err(ReferenceHighNotSupported);
    }
    m := Ok(Material(r, rows.value));
  }

  method TakeCandidate(visible: seq<Bar>, r: Reference, asOf: int) returns (c: Result<seq<Bar>, Error>)
    ensures c == CandidateBars(visible, r, asOf)
  {
    var rows := TakeSegment(visible, r.candidateStartAt, asOf, asOf);
    if rows.Err? {
      return Err(rows.error);
    }
    if rows.value == [] {
      return Err(NoCandidateDays);
    }
    if rows.value[|rows.value| - 1].closed + DAY <= asOf {
      return Err(CandidateCoverageIncomplete);
    }
    c := rows;
  }

  /** `build_price_time_overbalance_measurement`. */
  method BuildMeasurement(bars: seq<RawBar>, r: Reference, asOf: int, previous: Option<Measurement>) returns (m: Result<Measurement, Error>)
    ensures m == Measure(bars, r, asOf, previous)
  {
    var e := ReferenceError(r, asOf);
    if e.Some? {
      return Err(e.value);
    }
    var visible := LoadCompletedBars(bars, asOf);
    if visible.Err? {
      return Err(visible.error);
    }
    var material := SupportReference(visible.value, r);
    if material.Err? {
      return Err(material.error);
    }
    var candidates := TakeCandidate(visible.value, r, asOf);
    if candidates.Err? {
      return Err(candidates.error);
    }
    if previous.Some? {
      var replay := CheckpointError(previous.value, material.value, candidates.value, asOf);
      if replay.Some? {
        return Err(replay.value);
      }
    }
    var scan := ScanCandidate(candidates.value, YardstickOf(material.value));
    var body := Body(asOf, material.value, material.value, scan, candidates.value);
    m := Ok(Measurement(body, body));
  }
}
