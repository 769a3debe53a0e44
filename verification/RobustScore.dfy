/** The ROBUST_Z score does not depend on units or on the order of its history, and every score lies in
    [-100, 100]. */
module RobustScore {
  import opened Common
  import opened Sorting
  import opened Rounding
  import opened ScoringModel

  // ---------------------------------------------------------------- order statistics of a mapped list

  function Mapped(m: real -> real, s: seq<real>): seq<real> {
    seq(|s|, i requires 0 <= i < |s| => m(s[i]))
  }

  ghost predicate Increasing(m: real -> real) {
    forall x, y {:trigger m(x), m(y)} :: AtMost(m(x), m(y)) <==> AtMost(x, y)
  }

  ghost predicate Decreasing(m: real -> real) {
    forall x, y {:trigger m(x), m(y)} :: AtMost(m(x), m(y)) <==> AtMost(y, x)
  }

  function Half(x: real, y: real): real {
    (x + y) / 2.0
  }

  ghost predicate KeepsMidpoints(m: real -> real) {
    forall x, y {:trigger m(Half(x, y))} :: m(Half(x, y)) == Half(m(x), m(y))
  }

  lemma MappedTail(m: real -> real, s: seq<real>)
    requires s != []
    ensures Mapped(m, s)[0] == m(s[0]) && Mapped(m, s)[1..] == Mapped(m, s[1..]) && Mapped(m, s) == [m(s[0])] + Mapped(m, s[1..])
  {
  }

  lemma {:induction false} InsertMapped(m: real -> real, x: real, s: seq<real>)
    requires Increasing(m)
    ensures Insert(m(x), Mapped(m, s), AtMost) == Mapped(m, Insert(x, s, AtMost))
  {
    if s == [] {
      assert Mapped(m, [x]) == [m(x)];
    } else {
      MappedTail(m, s);
      assert AtMost(m(x), m(s[0])) <==> AtMost(x, s[0]);
      var t := Insert(x, s, AtMost);
      MappedTail(m, t);
      if AtMost(x, s[0]) {
        assert t[1..] == s;
      } else {
        InsertMapped(m, x, s[1..]);
        assert t[1..] == Insert(x, s[1..], AtMost);
      }
    }
  }

  lemma {:induction false} SortMapped(m: real -> real, s: seq<real>)
    requires Increasing(m)
    ensures SortBy(Mapped(m, s), AtMost) == Mapped(m, SortBy(s, AtMost))
  {
    if s != [] {
      MappedTail(m, s);
      SortMapped(m, s[1..]);
      InsertMapped(m, s[0], SortBy(s[1..], AtMost));
    }
  }

  lemma MiddleMapped(m: real -> real, s: seq<real>)
    requires s != [] && KeepsMidpoints(m)
    ensures Middle(Mapped(m, s)) == m(Middle(s))
  {
    if |s| % 2 == 0 {
      assert m(Half(s[|s| / 2 - 1], s[|s| / 2])) == Half(m(s[|s| / 2 - 1]), m(s[|s| / 2]));
    }
  }

  lemma MedianIncreasing(m: real -> real, s: seq<real>)
    requires s != [] && Increasing(m) && KeepsMidpoints(m)
    ensures Median(Mapped(m, s)) == m(Median(s))
  {
    SortMapped(m, s);
    MiddleMapped(m, SortBy(s, AtMost));
  }

  // ---------------------------------------------------------------- negation reverses the sorted list

  function Negated(s: seq<real>): seq<real> {
    seq(|s|, i requires 0 <= i < |s| => -s[i])
  }

  function Reversed(s: seq<real>): seq<real> {
    seq(|s|, i requires 0 <= i < |s| => s[|s| - 1 - i])
  }

  lemma {:induction false} ReversedMultiset(s: seq<real>)
    ensures multiset(Reversed(s)) == multiset(s)
  {
    if s != [] {
      ReversedMultiset(s[1..]);
      assert Reversed(s) == Reversed(s[1..]) + [s[0]];
      assert s == [s[0]] + s[1..];
    }
  }

  lemma {:induction false} NegatedCount(s: seq<real>, v: real)
    ensures multiset(Negated(s))[v] == multiset(s)[-v]
  {
    if s != [] {
      NegatedCount(s[1..], v);
      assert Negated(s) == [-s[0]] + Negated(s[1..]);
      assert s == [s[0]] + s[1..];
    }
  }

  lemma SortNegated(s: seq<real>)
    ensures SortBy(Negated(s), AtMost) == Reversed(Negated(SortBy(s, AtMost)))
  {
    hide SortBy, Negated, Reversed;
    var sorted := SortBy(s, AtMost);
    SortBySorted(s, AtMost);
    SortBySorted(Negated(s), AtMost);
    NegatedMultiset(s, sorted);
    ReversedMultiset(Negated(sorted));
    ReversedSorted(sorted);
    SortedUnique(SortBy(Negated(s), AtMost), Reversed(Negated(sorted)), AtMost);
  }

  lemma NegatedMultiset(s: seq<real>, t: seq<real>)
    requires multiset(s) == multiset(t)
    ensures multiset(Negated(s)) == multiset(Negated(t))
  {
    forall v ensures multiset(Negated(s))[v] == multiset(Negated(t))[v] {
      NegatedCount(s, v);
      NegatedCount(t, v);
    }
  }

  lemma ReversedSorted(s: seq<real>)
    requires Sorted(s, AtMost)
    ensures Sorted(Reversed(Negated(s)), AtMost)
  {
    var other := Reversed(Negated(s));
    forall i, j | 0 <= i < j < |other| ensures AtMost(other[i], other[j]) {
      assert AtMost(s[|s| - 1 - j], s[|s| - 1 - i]);
    }
  }

  lemma MiddleReversed(s: seq<real>)
    requires s != []
    ensures Middle(Reversed(Negated(s))) == -Middle(s)
  {
    var n := |s|;
    if n % 2 == 1 {
      assert n - 1 - n / 2 == n / 2;
    } else {
      assert n - 1 - n / 2 == n / 2 - 1;
    }
  }

  lemma MedianNegated(s: seq<real>)
    requires s != []
    ensures Negated(s) != [] && Median(Negated(s)) == -Median(s)
  {
    assert |Negated(s)| == |s|;
    SortNegated(s);
    MiddleReversed(SortBy(s, AtMost));
  }

  ghost predicate Mirrors(flipped: real -> real, m: real -> real) {
    forall x :: flipped(x) == m(-x)
  }

  lemma MappedNegated(m: real -> real, flipped: real -> real, s: seq<real>)
    requires Mirrors(flipped, m)
    ensures Mapped(flipped, Negated(s)) == Mapped(m, s)
  {
    forall i | 0 <= i < |s| ensures flipped(Negated(s)[i]) == m(s[i]) {
      assert -(-s[i]) == s[i];
    }
  }

  lemma MedianFlipped(m: real -> real, flipped: real -> real, s: seq<real>)
    requires s != [] && Increasing(flipped) && KeepsMidpoints(flipped) && Mirrors(flipped, m)
    ensures Median(Mapped(m, s)) == m(Median(s))
  {
    MedianNegated(s);
    MedianIncreasing(flipped, Negated(s));
    MappedNegated(m, flipped, s);
    assert flipped(-Median(s)) == m(-(-Median(s)));
  }

  /** A monotone map that keeps midpoints moves the median with it, in either direction. */
  lemma MedianMapped(m: real -> real, s: seq<real>)
    requires s != [] && (Increasing(m) || Decreasing(m)) && KeepsMidpoints(m)
    ensures Median(Mapped(m, s)) == m(Median(s))
  {
    if Increasing(m) {
      MedianIncreasing(m, s);
    } else {
      var flipped := (x: real) => m(-x);
      FlippedKeeps(m, flipped);
      MedianFlipped(m, flipped, s);
    }
  }

  lemma FlippedKeeps(m: real -> real, flipped: real -> real)
    requires Decreasing(m) && KeepsMidpoints(m) && Mirrors(flipped, m)
    ensures Increasing(flipped) && KeepsMidpoints(flipped)
  {
    forall x, y ensures AtMost(flipped(x), flipped(y)) <==> AtMost(x, y) {
      assert AtMost(m(-x), m(-y)) <==> AtMost(-y, -x);
    }
    forall x, y ensures flipped(Half(x, y)) == Half(flipped(x), flipped(y)) {
      assert -Half(x, y) == Half(-x, -y);
      assert m(Half(-x, -y)) == Half(m(-x), m(-y));
    }
  }

  /** Distances under `m` are distances scaled by `k`. */
  ghost predicate Scales(m: real -> real, k: real -> real) {
    forall x, c {:trigger m(x), m(c)} :: Abs(m(x) - m(c)) == k(Abs(x - c))
  }

  lemma DeviationsMapped(m: real -> real, k: real -> real, s: seq<real>, c: real)
    requires Scales(m, k)
    ensures Deviations(Mapped(m, s), m(c)) == Mapped(k, Deviations(s, c))
  {
    forall i | 0 <= i < |s| ensures Abs(Mapped(m, s)[i] - m(c)) == k(Deviations(s, c)[i]) {
      assert Abs(m(s[i]) - m(c)) == k(Abs(s[i] - c));
    }
  }

  lemma MadMapped(m: real -> real, k: real -> real, s: seq<real>)
    requires s != [] && Mapped(m, s) != [] && Median(Mapped(m, s)) == m(Median(s))
    requires Scales(m, k) && Increasing(k) && KeepsMidpoints(k)
    ensures Mad(Mapped(m, s)) == k(Mad(s))
  {
    DeviationsMapped(m, k, s, Median(s));
    MedianIncreasing(k, Deviations(s, Median(s)));
  }

  // ---------------------------------------------------------------- affine maps

  ghost predicate IsAffine(m: real -> real, a: real, b: real) {
    forall x :: m(x) == a * x + b
  }

  lemma AffineMonotone(m: real -> real, a: real, b: real)
    requires IsAffine(m, a, b) && a != 0.0
    ensures a > 0.0 ==> Increasing(m)
    ensures a < 0.0 ==> Decreasing(m)
  {
    forall x, y ensures a > 0.0 ==> (AtMost(m(x), m(y)) <==> AtMost(x, y))
                ensures a < 0.0 ==> (AtMost(m(x), m(y)) <==> AtMost(y, x)) {
      assert m(y) - m(x) == a * (y - x);
      ProductSign(a, y - x);
    }
  }

  lemma ProductSign(a: real, x: real)
    ensures a > 0.0 ==> (a * x >= 0.0 <==> x >= 0.0)
    ensures a < 0.0 ==> (a * x >= 0.0 <==> x <= 0.0)
  {
  }

  lemma AffineMidpoints(m: real -> real, a: real, b: real)
    requires IsAffine(m, a, b)
    ensures KeepsMidpoints(m)
  {
    forall x, y ensures m(Half(x, y)) == Half(m(x), m(y)) {
      assert a * ((x + y) / 2.0) == (a * x + a * y) / 2.0;
    }
  }

  lemma AffineDistance(a: real, b: real, x: real, c: real)
    ensures Abs((a * x + b) - (a * c + b)) == Abs(a) * Abs(x - c)
  {
    assert (a * x + b) - (a * c + b) == a * (x - c);
    ProductAbs(a, x - c);
  }

  lemma ProductAbs(a: real, x: real)
    ensures Abs(a * x) == Abs(a) * Abs(x)
  {
    ProductSign(a, x);
  }

  lemma AffineScales(m: real -> real, k: real -> real, a: real, b: real)
    requires IsAffine(m, a, b) && forall x :: k(x) == Abs(a) * x
    ensures Scales(m, k)
  {
    hide Abs;
    forall x, c ensures Abs(m(x) - m(c)) == k(Abs(x - c)) {
      AffineDistance(a, b, x, c);
      assert m(x) == a * x + b && m(c) == a * c + b;
      assert k(Abs(x - c)) == Abs(a) * Abs(x - c);
    }
  }

  lemma LinearFacts(k: real -> real, a: real)
    requires a > 0.0 && forall x :: k(x) == a * x
    ensures Increasing(k) && KeepsMidpoints(k)
  {
    assert IsAffine(k, a, 0.0);
    AffineMonotone(k, a, 0.0);
    AffineMidpoints(k, a, 0.0);
  }

  // ---------------------------------------------------------------- the score

  lemma Quotient(x: real, y: real, k: real)
    requires y != 0.0 && k != 0.0
    ensures (k * x) / (k * y) == x / y
  {
    var q := x / y;
    assert q * y == x;
    assert q * (k * y) == k * x;
  }

  lemma ZMapped(a: real, v: real, c: real, v': real, c': real, mad: real)
    requires a != 0.0 && mad > 0.0 && Abs(a) * mad > 0.0 && v' - c' == a * (v - c)
    ensures RobustZOf(v', c', Abs(a) * mad) == if a > 0.0 then RobustZOf(v, c, mad) else -RobustZOf(v, c, mad)
  {
    var d, m := v - c, MAD_FACTOR * mad;
    if a > 0.0 {
      ScaledFactor(a, mad);
      Quotient(d, m, a);
    } else {
      ScaledFactor(-a, mad);
      NegatedProduct(a, d);
      Quotient(-d, m, -a);
      NegatedQuotient(d, m);
    }
  }

  lemma ScaledFactor(k: real, mad: real)
    ensures MAD_FACTOR * (k * mad) == k * (MAD_FACTOR * mad)
  {
  }

  lemma NegatedProduct(a: real, d: real)
    ensures a * d == (-a) * (-d)
  {
  }

  lemma NegatedQuotient(x: real, y: real)
    requires y != 0.0
    ensures (-x) / y == -(x / y)
  {
    var q := x / y;
    assert q * y == x;
    assert (-q) * y == -x;
  }

  lemma ClipNegated(z: real, clip: real)
    requires clip > 0.0
    ensures Clipped(-z, clip) == -Clipped(z, clip)
  {
    assert Max(-clip, Min(clip, -z)) == -Max(-clip, Min(clip, z));
    NegatedQuotient(Max(-clip, Min(clip, z)), clip);
  }

  function Negate(r: Result<real, Error>): Result<real, Error> {
    if r.Ok? then Ok(-r.value) else r
  }

  /** Both dispersions are positive or neither is, and then the z values agree up to sign. */
  ghost predicate ZRelated(up: bool, v: real, c: real, mad: real, v': real, c': real, mad': real) {
    && (mad > 0.0 <==> mad' > 0.0)
    && (mad > 0.0 ==> RobustZOf(v', c', mad') == if up then RobustZOf(v, c, mad) else -RobustZOf(v, c, mad))
  }

  /** `m` changes the units of values and `k` those of dispersions; `up` says that order is kept. */
  ghost predicate UnitChange(m: real -> real, k: real -> real, up: bool) {
    && (Increasing(m) || Decreasing(m)) && KeepsMidpoints(m) && Scales(m, k) && Increasing(k) && KeepsMidpoints(k)
    && ZKept(m, k, up)
  }

  ghost predicate ZKept(m: real -> real, k: real -> real, up: bool) {
    forall v, c, mad {:trigger m(v), m(c), k(mad)} :: ZRelated(up, v, c, mad, m(v), m(c), k(mad))
  }

  lemma ZFromAffine(a: real, v: real, c: real, mad: real, v': real, c': real, mad': real)
    requires a != 0.0 && mad' == Abs(a) * mad && v' - c' == a * (v - c)
    ensures ZRelated(a > 0.0, v, c, mad, v', c', mad')
  {
    SignKept(Abs(a), mad);
    if mad > 0.0 {
      ZMapped(a, v, c, v', c', mad);
    }
  }

  lemma AffineKeepsZ(m: real -> real, k: real -> real, a: real, b: real)
    requires IsAffine(m, a, b) && a != 0.0 && forall x :: k(x) == Abs(a) * x
    ensures ZKept(m, k, a > 0.0)
  {
    forall v, c, mad ensures ZRelated(a > 0.0, v, c, mad, m(v), m(c), k(mad)) {
      assert m(v) - m(c) == a * (v - c);
      ZFromAffine(a, v, c, mad, m(v), m(c), k(mad));
    }
  }

  /** Every affine map with a non-zero slope is a change of units. */
  lemma AffineIsUnitChange(m: real -> real, a: real, b: real) returns (k: real -> real)
    requires IsAffine(m, a, b) && a != 0.0
    ensures UnitChange(m, k, a > 0.0)
  {
    k := (x: real) => Abs(a) * x;
    AffineMonotone(m, a, b);
    AffineMidpoints(m, a, b);
    AffineScales(m, k, a, b);
    LinearFacts(k, Abs(a));
    AffineKeepsZ(m, k, a, b);
  }

  lemma StatisticsMapped(m: real -> real, k: real -> real, up: bool, v: real, s: seq<real>)
    requires UnitChange(m, k, up) && s != [] && Mapped(m, s) != []
    ensures ZRelated(up, v, Median(s), Mad(s), m(v), Median(Mapped(m, s)), Mad(Mapped(m, s)))
  {
    MedianMapped(m, s);
    MadMapped(m, k, s);
    assert ZRelated(up, v, Median(s), Mad(s), m(v), m(Median(s)), k(Mad(s)));
  }

  lemma FromZ(up: bool, direction: Direction, v: real, c: real, mad: real, v': real, c': real, mad': real, clip: real)
    requires ZRelated(up, v, c, mad, v', c', mad')
    ensures RobustFrom(direction, v', c', mad', clip)
            == if up then RobustFrom(direction, v, c, mad, clip) else Negate(RobustFrom(direction, v, c, mad, clip))
  {
    if mad > 0.0 && clip > 0.0 {
      var z := RobustZOf(v, c, mad);
      ClipNegated(z, clip);
      DirectedNegation(direction, Clipped(z, clip));
    }
  }

  /** The score depends on the history only through its median and its dispersion. */
  lemma ScoreFromZ(up: bool, direction: Direction, v: real, v': real, s: seq<real>, s': seq<real>, clip: real)
    requires s != [] && s' != [] && ZRelated(up, v, Median(s), Mad(s), v', Median(s'), Mad(s'))
    ensures RobustScore(direction, v', s', clip)
            == if up then RobustScore(direction, v, s, clip) else Negate(RobustScore(direction, v, s, clip))
  {
    FromZ(up, direction, v, Median(s), Mad(s), v', Median(s'), Mad(s'), clip);
  }

  lemma RobustScoreMapped(m: real -> real, k: real -> real, up: bool, direction: Direction, v: real, s: seq<real>, clip: real)
    requires UnitChange(m, k, up)
    ensures RobustScore(direction, m(v), Mapped(m, s), clip)
            == if up then RobustScore(direction, v, s, clip) else Negate(RobustScore(direction, v, s, clip))
  {
    assert |Mapped(m, s)| == |s|;
    if s != [] {
      StatisticsMapped(m, k, up, v, s);
      ScoreFromZ(up, direction, v, m(v), s, Mapped(m, s), clip);
    }
  }

  lemma SignKept(k: real, x: real)
    requires k > 0.0
    ensures k * x > 0.0 <==> x > 0.0
  {
  }

  lemma DirectedNegation(d: Direction, u: real)
    ensures Directed(d, -u) == -Directed(d, u)
  {
    assert 100.0 * Signed(d, -u) == -(100.0 * Signed(d, u));
    Round10Odd(100.0 * Signed(d, u));
  }

  // ---------------------------------------------------------------- history under maps and reordering

  function MappedRow(m: real -> real, row: HistoryRow): HistoryRow {
    row.(value := m(row.value))
  }

  function MappedRows(m: real -> real, rows: seq<HistoryRow>): seq<HistoryRow> {
    seq(|rows|, i requires 0 <= i < |rows| => MappedRow(m, rows[i]))
  }

  /** The ranges of two features agree through `m`. */
  ghost predicate RangesAgree(m: real -> real, p: real -> bool, q: real -> bool) {
    forall x :: q(m(x)) == p(x)
  }

  lemma {:induction false} SeenMapped(m: real -> real, rows: seq<HistoryRow>, asOf: int, p: real -> bool, q: real -> bool)
    requires RangesAgree(m, p, q)
    ensures SeenClocks(MappedRows(m, rows), asOf, q) == SeenClocks(rows, asOf, p)
  {
    if rows != [] {
      var n := |rows| - 1;
      SeenMapped(m, rows[..n], asOf, p, q);
      assert MappedRows(m, rows)[..n] == MappedRows(m, rows[..n]);
      assert q(m(rows[n].value)) == p(rows[n].value);
    }
  }

  lemma MappedRowsTail(m: real -> real, rows: seq<HistoryRow>)
    requires rows != []
    ensures MappedRows(m, rows)[0] == MappedRow(m, rows[0]) && MappedRows(m, rows)[1..] == MappedRows(m, rows[1..])
    ensures MappedRows(m, rows) == [MappedRow(m, rows[0])] + MappedRows(m, rows[1..])
  {
  }

  lemma {:induction false} InsertRow(m: real -> real, x: HistoryRow, rows: seq<HistoryRow>)
    ensures Insert(MappedRow(m, x), MappedRows(m, rows), Earlier) == MappedRows(m, Insert(x, rows, Earlier))
  {
    var t := Insert(x, rows, Earlier);
    MappedRowsTail(m, t);
    if rows != [] {
      MappedRowsTail(m, rows);
      if Earlier(x, rows[0]) {
        assert t[1..] == rows;
      } else {
        InsertRow(m, x, rows[1..]);
        assert t[1..] == Insert(x, rows[1..], Earlier);
      }
    }
  }

  lemma {:induction false} SortRows(m: real -> real, rows: seq<HistoryRow>)
    ensures SortBy(MappedRows(m, rows), Earlier) == MappedRows(m, SortBy(rows, Earlier))
  {
    if rows != [] {
      MappedRowsTail(m, rows);
      SortRows(m, rows[1..]);
      InsertRow(m, rows[0], SortBy(rows[1..], Earlier));
    }
  }

  function MappedHistory(m: real -> real, r: Result<seq<real>, Error>): Result<seq<real>, Error> {
    if r.Ok? then Ok(Mapped(m, r.value)) else r
  }

  lemma HistoryMapped(m: real -> real, rows: seq<HistoryRow>, asOf: int, p: real -> bool, q: real -> bool, window: int, minimum: int)
    requires RangesAgree(m, p, q)
    ensures History(MappedRows(m, rows), asOf, q, window, minimum) == MappedHistory(m, History(rows, asOf, p, window, minimum))
  {
    SeenMapped(m, rows, asOf, p, q);
    SortRows(m, rows);
    var sorted := SortBy(rows, Earlier);
    SliceMapped(m, sorted, SliceStart(|sorted|, window));
  }

  lemma SliceMapped(m: real -> real, rows: seq<HistoryRow>, k: nat)
    requires k <= |rows|
    ensures |MappedRows(m, rows)| == |rows| && MappedRows(m, rows)[k..] == MappedRows(m, rows[k..])
    ensures Values(MappedRows(m, rows)[k..]) == Mapped(m, Values(rows[k..]))
  {
  }

  /** Value and history expressed in other units. */
  function MappedObservation(m: real -> real, o: Observation): Observation {
    Observation(o.asOf, m(o.value), MappedRows(m, o.history))
  }

  /** One affine map of value and history leaves a ROBUST_Z score, or its rejection, unchanged when the
      slope is positive and negates the score when it is negative. */
  lemma RobustZAffine(tanh: real -> real, f: Feature, g: Feature, o: Observation, m: real -> real, a: real, b: real)
    requires f.transform.RobustZ? && g.transform == f.transform && g.direction == f.direction
    requires IsAffine(m, a, b) && a != 0.0 && RangesAgree(m, f.inRange, g.inRange)
    ensures Score(tanh, g, MappedObservation(m, o)) == if a > 0.0 then Score(tanh, f, o) else Negate(Score(tanh, f, o))
  {
    var t := f.transform;
    assert g.inRange(m(o.value)) == f.inRange(o.value);
    HistoryMapped(m, o.history, o.asOf, f.inRange, g.inRange, t.window, t.minimum);
    var history := History(o.history, o.asOf, f.inRange, t.window, t.minimum);
    if history.Ok? {
      var k := AffineIsUnitChange(m, a, b);
      RobustScoreMapped(m, k, a > 0.0, f.direction, o.value, history.value, t.clip);
    }
  }

  // ---------------------------------------------------------------- order of the history rows

  ghost predicate RowsAcceptable(rows: seq<HistoryRow>, asOf: int, p: real -> bool) {
    && (forall i :: 0 <= i < |rows| ==> rows[i].asOf < asOf && p(rows[i].value))
    && forall i, j :: 0 <= i < j < |rows| ==> rows[i].asOf != rows[j].asOf
  }

  function Clocks(rows: seq<HistoryRow>): set<int> {
    set r | r in rows :: r.asOf
  }

  lemma ClocksOfSnoc(rows: seq<HistoryRow>)
    requires rows != []
    ensures Clocks(rows) == Clocks(rows[..|rows| - 1]) + {rows[|rows| - 1].asOf}
  {
    assert rows == rows[..|rows| - 1] + [rows[|rows| - 1]];
  }

  lemma {:induction false} SeenAreClocks(rows: seq<HistoryRow>, asOf: int, p: real -> bool)
    requires SeenClocks(rows, asOf, p).Ok?
    ensures SeenClocks(rows, asOf, p).value == Clocks(rows)
  {
    if rows != [] {
      SeenAreClocks(rows[..|rows| - 1], asOf, p);
      ClocksOfSnoc(rows);
    }
  }

  lemma AcceptableSnoc(rows: seq<HistoryRow>, asOf: int, p: real -> bool)
    requires rows != []
    ensures var init, last := rows[..|rows| - 1], rows[|rows| - 1];
            RowsAcceptable(rows, asOf, p) <==> RowsAcceptable(init, asOf, p) && last.asOf < asOf && p(last.value) && last.asOf !in Clocks(init)
  {
    var init, last := rows[..|rows| - 1], rows[|rows| - 1];
    if last.asOf in Clocks(init) {
      var r :| r in init && r.asOf == last.asOf;
      var i :| 0 <= i < |init| && init[i] == r;
      assert rows[i].asOf == rows[|rows| - 1].asOf;
    } else {
      forall i | 0 <= i < |init| ensures rows[i].asOf != last.asOf {
        assert init[i] in init;
      }
    }
  }

  /** Exactly the histories the row loop accepts. */
  lemma {:induction false} AcceptedIff(rows: seq<HistoryRow>, asOf: int, p: real -> bool)
    ensures SeenClocks(rows, asOf, p).Ok? <==> RowsAcceptable(rows, asOf, p)
  {
    if rows != [] {
      var init := rows[..|rows| - 1];
      AcceptedIff(init, asOf, p);
      AcceptableSnoc(rows, asOf, p);
      if SeenClocks(init, asOf, p).Ok? {
        SeenAreClocks(init, asOf, p);
      }
    }
  }

  lemma RowsReordered(rows: seq<HistoryRow>, other: seq<HistoryRow>, asOf: int, p: real -> bool)
    requires multiset(rows) == multiset(other) && RowsAcceptable(rows, asOf, p)
    ensures RowsAcceptable(other, asOf, p) && SortBy(rows, Earlier) == SortBy(other, Earlier)
  {
    SameElements(rows, other);
    forall i | 0 <= i < |other| ensures other[i].asOf < asOf && p(other[i].value) {
      assert other[i] in rows;
    }
    forall i, j | 0 <= i < j < |other| ensures other[i].asOf != other[j].asOf {
      var i', j' := TwoPositions(rows, other, i, j);
      if i' < j' {
        assert rows[i'].asOf != rows[j'].asOf;
      } else {
        assert rows[j'].asOf != rows[i'].asOf;
      }
    }
    forall x, y | x in rows && y in rows && Earlier(x, y) && Earlier(y, x) ensures x == y {
      var i :| 0 <= i < |rows| && rows[i] == x;
      var j :| 0 <= j < |rows| && rows[j] == y;
      assert !(i < j) && !(j < i);
    }
    SortPermutation(rows, other, Earlier);
  }

  lemma HistoryReordered(rows: seq<HistoryRow>, other: seq<HistoryRow>, asOf: int, p: real -> bool, window: int, minimum: int)
    requires multiset(rows) == multiset(other) && History(rows, asOf, p, window, minimum).Ok?
    ensures History(other, asOf, p, window, minimum) == History(rows, asOf, p, window, minimum)
  {
    AcceptedIff(rows, asOf, p);
    AcceptedIff(other, asOf, p);
    RowsReordered(rows, other, asOf, p);
  }

  /** Reordering the history rows changes neither whether a feature scores nor its score. */
  lemma ScoreIgnoresRowOrder(tanh: real -> real, f: Feature, o: Observation, rows: seq<HistoryRow>)
    requires multiset(rows) == multiset(o.history) && Score(tanh, f, o).Ok?
    ensures Score(tanh, f, o.(history := rows)) == Score(tanh, f, o)
  {
    var moved := o.(history := rows);
    assert moved.value == o.value && moved.asOf == o.asOf;
    match f.transform
    case TanhFixed(_) =>
    case RobustZ(window, minimum, _) =>
      HistoryReordered(o.history, rows, o.asOf, f.inRange, window, minimum);
    case Percentile(window, minimum) =>
      HistoryReordered(o.history, rows, o.asOf, f.inRange, window, minimum);
  }

  // ---------------------------------------------------------------- range

  lemma ClippedInRange(z: real, clip: real)
    requires clip > 0.0
    ensures -1.0 <= Clipped(z, clip) <= 1.0
  {
    var x := Max(-clip, Min(clip, z));
    DivideOrder(-clip, x, clip);
    DivideOrder(x, clip, clip);
    NegatedQuotient(clip, clip);
    assert clip / clip == 1.0;
  }

  lemma {:induction false} CountsBounded(s: seq<real>, v: real)
    ensures Below(s, v) + Equal(s, v) <= |s|
  {
    if s != [] {
      CountsBounded(s[..|s| - 1], v);
    }
  }

  lemma FractionInRange(count: real, n: real)
    requires 0.0 <= count <= n && n > 0.0
    ensures 0.0 <= count / n <= 1.0
  {
    DivideOrder(0.0, count, n);
    DivideOrder(count, n, n);
    assert n / n == 1.0;
  }

  lemma PercentileInRange(direction: Direction, v: real, s: seq<real>)
    requires s != []
    ensures -100.0 <= PercentileScore(direction, v, s).value <= 100.0
  {
    CountsBounded(s, v);
    var count, n := Below(s, v) as real + 0.5 * Equal(s, v) as real, |s| as real;
    FractionInRange(count, n);
    DirectedInRange(direction, 2.0 * (count / n) - 1.0);
  }

  lemma DirectedInRange(direction: Direction, u: real)
    requires -1.0 <= u <= 1.0
    ensures -100.0 <= Directed(direction, u) <= 100.0
  {
    Round10InRange(100.0 * Signed(direction, u));
  }

  lemma RobustInRange(direction: Direction, v: real, s: seq<real>, clip: real)
    requires RobustScore(direction, v, s, clip).Ok?
    ensures -100.0 <= RobustScore(direction, v, s, clip).value <= 100.0
  {
    var z := RobustZOf(v, Median(s), Mad(s));
    ClippedInRange(z, clip);
    DirectedInRange(direction, Clipped(z, clip));
  }

  lemma TanhInRange(tanh: real -> real, x: real)
    requires forall y :: -1.0 <= tanh(y) <= 1.0
    ensures -100.0 <= Round10(100.0 * tanh(x)) <= 100.0
  {
    assert -1.0 <= tanh(x) <= 1.0;
    Round10InRange(100.0 * tanh(x));
  }

  /** Every feature score lies in [-100, 100]. */
  lemma ScoreInRange(tanh: real -> real, f: Feature, o: Observation)
    requires (forall x :: -1.0 <= tanh(x) <= 1.0) && Score(tanh, f, o).Ok?
    ensures -100.0 <= Score(tanh, f, o).value <= 100.0
  {
    match f.transform
    case TanhFixed(scale) =>
      TanhInRange(tanh, Signed(f.direction, o.value) / scale);
    case RobustZ(window, minimum, clip) =>
      RobustInRange(f.direction, o.value, History(o.history, o.asOf, f.inRange, window, minimum).value, clip);
    case Percentile(window, minimum) =>
      PercentileInRange(f.direction, o.value, History(o.history, o.asOf, f.inRange, window, minimum).value);
  }
}
