/** Point-in-time selection: of every identity visible by `asOf`, the row that became available last. */
module LatestRevision {
  import opened Common
  import opened Sorting
  import opened TextOrder

  datatype Error =
    | Missing | RowInvalid | ObservedAtInvalid | AvailableAtInvalid | AvailableBeforeObservation
    | IdentityInvalid | AmbiguousRevision | NoPointInTimeObservation

  /** One element of the input list; a clock is absent when it is not an integer. */
  datatype Row<+B> = NotAnObject | Fields(observed: Option<int>, available: Option<int>, body: B)

  /** The caller's `identity` function and Python's `str` on its results. */
  datatype Naming<!K, !B> = Naming(identity: Row<B> -> Option<K>, text: K -> string)

  function RowError<B>(row: Row<B>): Option<Error> {
    if row.NotAnObject? then Some(RowInvalid)
    else if row.observed.None? || row.observed.value < 0 then Some(ObservedAtInvalid)
    else if row.available.None? || row.available.value < 0 then Some(AvailableAtInvalid)
    else if row.observed.value > row.available.value then Some(AvailableBeforeObservation)
    else None
  }

  function Observed<B>(row: Row<B>): int {
    if RowError(row).None? then row.observed.value else 0
  }

  function Available<B>(row: Row<B>): int {
    if RowError(row).None? then row.available.value else 0
  }

  /** The `selected` dictionary and the insertion order of its keys. */
  datatype Selection<K, B> = Selection(order: seq<K>, rows: map<K, Row<B>>)

  function Step<K(==), B(==)>(naming: Naming<K, B>, asOf: int, s: Selection<K, B>, row: Row<B>): Result<Selection<K, B>, Error> {
    var e := RowError(row);
    if e.Some? then Err(e.value)
    else if Available(row) > asOf then Ok(s)
    else
      match naming.identity(row)
      case None => Err(IdentityInvalid)
      case Some(k) =>
        if k !in s.rows then Ok(Selection(s.order + [k], s.rows[k := row]))
        else if Available(row) > Available(s.rows[k]) then Ok(s.(rows := s.rows[k := row]))
        else if Available(row) == Available(s.rows[k]) && row != s.rows[k] then Err(AmbiguousRevision)
        else Ok(s)
  }

  function Fold<K(==), B(==)>(naming: Naming<K, B>, asOf: int, rows: seq<Row<B>>): Result<Selection<K, B>, Error> {
    if rows == [] then Ok(Selection([], map[]))
    else
      var s :- Fold(naming, asOf, rows[..|rows| - 1]);
      Step(naming, asOf, s, rows[|rows| - 1])
  }

  function Text<K, B>(naming: Naming<K, B>, row: Row<B>): string {
    match naming.identity(row)
    case None => "None"
    case Some(k) => naming.text(k)
  }

  predicate Before<K, B>(naming: Naming<K, B>, x: Row<B>, y: Row<B>) {
    Observed(x) < Observed(y) || (Observed(x) == Observed(y) && TextAtMost(Text(naming, x), Text(naming, y)))
  }

  /** The sort key `(observed_at_ms, str(identity(row)))`. */
  function RowOrder<K, B>(naming: Naming<K, B>): (Row<B>, Row<B>) -> bool {
    (x, y) => Before(naming, x, y)
  }

  ghost predicate Complete<K, B>(s: Selection<K, B>) {
    Distinct(s.order) && (forall k :: k in s.order ==> k in s.rows) && (forall k :: k in s.rows ==> k in s.order)
  }

  function Listed<K, B>(s: Selection<K, B>): seq<Row<B>>
    requires forall k :: k in s.order ==> k in s.rows
  {
    seq(|s.order|, i requires 0 <= i < |s.order| => s.rows[s.order[i]])
  }

  /** `_select_latest_revisions`. */
  ghost function Select<K, B>(naming: Naming<K, B>, asOf: int, rows: seq<Row<B>>): Result<seq<Row<B>>, Error> {
    if rows == [] then Err(Missing)
    else
      FoldComplete(naming, asOf, rows);
      Arranged(naming, Fold(naming, asOf, rows))
  }

  ghost function Arranged<K, B>(naming: Naming<K, B>, folded: Result<Selection<K, B>, Error>): Result<seq<Row<B>>, Error>
    requires folded.Ok? ==> Complete(folded.value)
  {
    var s :- folded;
    if s.order == [] then Err(NoPointInTimeObservation) else Ok(SortBy(Listed(s), RowOrder(naming)))
  }

  lemma {:induction false} FoldComplete<K, B>(naming: Naming<K, B>, asOf: int, rows: seq<Row<B>>)
    ensures Fold(naming, asOf, rows).Ok? ==> Complete(Fold(naming, asOf, rows).value)
  {
    if rows != [] {
      FoldComplete(naming, asOf, rows[..|rows| - 1]);
    }
  }

  // ---------------------------------------------------------------- what is selected

  ghost predicate Visible<B>(row: Row<B>, asOf: int) {
    RowError(row).None? && Available(row) <= asOf
  }

  /** `row` is the selected row of its identity or became available strictly earlier. */
  ghost predicate Represented<K, B>(naming: Naming<K, B>, s: Selection<K, B>, row: Row<B>) {
    && naming.identity(row).Some? && naming.identity(row).value in s.rows
    && var best := s.rows[naming.identity(row).value];
       row == best || Available(row) < Available(best)
  }

  /** The rows of `s` are, per identity visible in `rows`, the one available last. */
  ghost predicate Latest<K(!new), B>(naming: Naming<K, B>, asOf: int, rows: seq<Row<B>>, s: Selection<K, B>) {
    && (forall k :: k in s.rows ==> s.rows[k] in rows && Visible(s.rows[k], asOf) && naming.identity(s.rows[k]) == Some(k))
    && (forall r :: r in rows ==> RowError(r).None? && (Visible(r, asOf) ==> Represented(naming, s, r)))
  }

  lemma LatestStep<K(!new), B>(naming: Naming<K, B>, asOf: int, init: seq<Row<B>>, s: Selection<K, B>, row: Row<B>)
    requires Latest(naming, asOf, init, s) && Step(naming, asOf, s, row).Ok?
    ensures Latest(naming, asOf, init + [row], Step(naming, asOf, s, row).value)
  {
    var t := Step(naming, asOf, s, row).value;
    forall r | r in init + [row] && Visible(r, asOf) ensures Represented(naming, t, r) {
      if r in init {
        assert Represented(naming, s, r);
      }
    }
  }

  /** A successful fold holds exactly one row per identity visible by `asOf`, the one available last. */
  lemma {:induction false} FoldLatest<K(!new), B>(naming: Naming<K, B>, asOf: int, rows: seq<Row<B>>)
    requires Fold(naming, asOf, rows).Ok?
    ensures Latest(naming, asOf, rows, Fold(naming, asOf, rows).value)
  {
    if rows != [] {
      var init, last := rows[..|rows| - 1], rows[|rows| - 1];
      FoldLatest(naming, asOf, init);
      LatestStep(naming, asOf, init, Fold(naming, asOf, init).value, last);
      assert rows == init + [last];
    }
  }

  /** No two listed rows share an identity. */
  ghost predicate OnePerIdentity<K, B>(naming: Naming<K, B>, out: seq<Row<B>>) {
    forall i, j :: 0 <= i < j < |out| ==> naming.identity(out[i]) != naming.identity(out[j])
  }

  lemma ListedDistinct<K(!new), B>(naming: Naming<K, B>, asOf: int, rows: seq<Row<B>>, s: Selection<K, B>)
    requires Latest(naming, asOf, rows, s) && Complete(s)
    ensures OnePerIdentity(naming, Listed(s))
    ensures forall r :: r in Listed(s) <==> naming.identity(r).Some? && naming.identity(r).value in s.rows && s.rows[naming.identity(r).value] == r
  {
    var out := Listed(s);
    forall i | 0 <= i < |out| ensures naming.identity(out[i]) == Some(s.order[i]) {
    }
    forall r | naming.identity(r).Some? && naming.identity(r).value in s.rows && s.rows[naming.identity(r).value] == r ensures r in out {
      var i :| 0 <= i < |s.order| && s.order[i] == naming.identity(r).value;
      assert out[i] == r;
    }
  }

  lemma OnePerIdentityPermuted<K, B>(naming: Naming<K, B>, a: seq<Row<B>>, b: seq<Row<B>>)
    requires multiset(a) == multiset(b) && OnePerIdentity(naming, a)
    ensures OnePerIdentity(naming, b)
  {
    forall i, j | 0 <= i < j < |b| ensures naming.identity(b[i]) != naming.identity(b[j]) {
      var i', j' := TwoPositions(a, b, i, j);
      if j' < i' {
        assert naming.identity(a[j']) != naming.identity(a[i']);
      }
    }
  }

  /** `r` is visible and no visible row of its identity became available later. */
  ghost predicate Newest<K, B(!new)>(naming: Naming<K, B>, asOf: int, rows: seq<Row<B>>, r: Row<B>) {
    && r in rows && Visible(r, asOf)
    && forall q :: q in rows && Visible(q, asOf) && naming.identity(q) == naming.identity(r) ==> Available(q) <= Available(r)
  }

  /** What a returned selection holds: exactly the newest visible rows, one per identity, in key order. */
  lemma SelectedRows<K(!new), B(!new)>(naming: Naming<K, B>, asOf: int, rows: seq<Row<B>>)
    requires Select(naming, asOf, rows).Ok?
    ensures var out := Select(naming, asOf, rows).value;
            && OnePerIdentity(naming, out) && Sorted(out, RowOrder(naming))
            && (forall r :: r in out <==> Newest(naming, asOf, rows, r)) && Covered(naming, asOf, rows, out)
  {
    var s := Fold(naming, asOf, rows).value;
    SelectArranges(naming, asOf, rows, s);
    ArrangedRows(naming, asOf, rows, s, Select(naming, asOf, rows).value);
  }

  lemma SelectArranges<K(!new), B(!new)>(naming: Naming<K, B>, asOf: int, rows: seq<Row<B>>, s: Selection<K, B>)
    requires Select(naming, asOf, rows).Ok? && Fold(naming, asOf, rows) == Ok(s)
    ensures Latest(naming, asOf, rows, s) && Complete(s)
    ensures multiset(Select(naming, asOf, rows).value) == multiset(Listed(s)) && Sorted(Select(naming, asOf, rows).value, RowOrder(naming))
  {
    FoldComplete(naming, asOf, rows);
    assert Select(naming, asOf, rows).value == SortBy(Listed(s), RowOrder(naming));
    FoldLatest(naming, asOf, rows);
    ArrangedSorted(naming, Listed(s));
  }

  lemma ArrangedSorted<K, B(!new)>(naming: Naming<K, B>, rows: seq<Row<B>>)
    ensures Sorted(SortBy(rows, RowOrder(naming)), RowOrder(naming))
  {
    RowOrderTotal(naming);
    SortBySorted(rows, RowOrder(naming));
  }

  /** Every visible row's identity is listed. */
  ghost predicate Covered<K, B(!new)>(naming: Naming<K, B>, asOf: int, rows: seq<Row<B>>, out: seq<Row<B>>) {
    forall q :: q in rows && Visible(q, asOf) ==> exists r :: r in out && naming.identity(r) == naming.identity(q)
  }

  lemma ArrangedRows<K(!new), B(!new)>(naming: Naming<K, B>, asOf: int, rows: seq<Row<B>>, s: Selection<K, B>, out: seq<Row<B>>)
    requires Latest(naming, asOf, rows, s) && Complete(s) && multiset(out) == multiset(Listed(s))
    ensures OnePerIdentity(naming, out) && (forall r :: r in out <==> Newest(naming, asOf, rows, r)) && Covered(naming, asOf, rows, out)
  {
    ListedDistinct(naming, asOf, rows, s);
    OnePerIdentityPermuted(naming, Listed(s), out);
    SameElements(Listed(s), out);
    forall r ensures r in out <==> Newest(naming, asOf, rows, r) {
      NewestIsSelected(naming, asOf, rows, s, r);
    }
    forall q | q in rows && Visible(q, asOf) ensures exists r :: r in out && naming.identity(r) == naming.identity(q) {
      assert Represented(naming, s, q);
      var r := s.rows[naming.identity(q).value];
      assert r in Listed(s) && r in out;
    }
  }

  lemma NewestIsSelected<K(!new), B(!new)>(naming: Naming<K, B>, asOf: int, rows: seq<Row<B>>, s: Selection<K, B>, r: Row<B>)
    requires Latest(naming, asOf, rows, s)
    ensures Newest(naming, asOf, rows, r)
            <==> naming.identity(r).Some? && naming.identity(r).value in s.rows && s.rows[naming.identity(r).value] == r
  {
    if Newest(naming, asOf, rows, r) {
      assert Represented(naming, s, r);
      assert Visible(s.rows[naming.identity(r).value], asOf);
    } else if naming.identity(r).Some? && naming.identity(r).value in s.rows && s.rows[naming.identity(r).value] == r {
      forall q | q in rows && Visible(q, asOf) && naming.identity(q) == naming.identity(r) ensures Available(q) <= Available(r) {
        assert Represented(naming, s, q);
      }
      assert false;
    }
  }

  lemma RowOrderTotal<K, B(!new)>(naming: Naming<K, B>)
    ensures TotalPreorder(RowOrder(naming))
  {
    var le := RowOrder(naming);
    forall x, y ensures le(x, y) || le(y, x) {
      Trichotomy(Text(naming, x), Text(naming, y));
    }
    forall x, y, z | le(x, y) && le(y, z) ensures le(x, z) {
      if Observed(x) == Observed(y) == Observed(z) {
        AtMostTransitive(Text(naming, x), Text(naming, y), Text(naming, z));
      }
    }
  }

  // ---------------------------------------------------------------- reordering the input

  /** Identities have different texts, so equal sort keys mean the same row. */
  ghost predicate TextsDistinct<K(!new), B>(naming: Naming<K, B>) {
    forall k, l :: naming.text(k) == naming.text(l) ==> k == l
  }

  lemma KeysDistinct<K(!new), B(!new)>(naming: Naming<K, B>, out: seq<Row<B>>)
    requires TextsDistinct(naming) && OnePerIdentity(naming, out) && forall r :: r in out ==> naming.identity(r).Some?
    ensures DistinctKeys(out, RowOrder(naming))
  {
    forall x, y | x in out && y in out && Before(naming, x, y) && Before(naming, y, x) ensures x == y {
      Trichotomy(Text(naming, x), Text(naming, y));
      assert naming.identity(x) == naming.identity(y);
      var i :| 0 <= i < |out| && out[i] == x;
      var j :| 0 <= j < |out| && out[j] == y;
      assert !(i < j) && !(j < i);
    }
  }

  lemma OnePerIdentityDistinct<K, B>(naming: Naming<K, B>, out: seq<Row<B>>)
    requires OnePerIdentity(naming, out)
    ensures Distinct(out)
  {
  }

  /** Two orders of the same rows that both return give the same rows, and the same list when identities
      have different texts. */
  lemma ReorderingAgrees<K(!new), B(!new)>(naming: Naming<K, B>, asOf: int, rows: seq<Row<B>>, other: seq<Row<B>>)
    requires multiset(rows) == multiset(other)
    requires Select(naming, asOf, rows).Ok? && Select(naming, asOf, other).Ok?
    ensures multiset(Select(naming, asOf, rows).value) == multiset(Select(naming, asOf, other).value)
    ensures TextsDistinct(naming) ==> Select(naming, asOf, rows).value == Select(naming, asOf, other).value
  {
    var a, b := Select(naming, asOf, rows).value, Select(naming, asOf, other).value;
    SameElements(rows, other);
    SelectedRows(naming, asOf, rows);
    SelectedRows(naming, asOf, other);
    forall r ensures r in a <==> r in b {
      assert Newest(naming, asOf, rows, r) <==> Newest(naming, asOf, other, r);
    }
    OnePerIdentityDistinct(naming, a);
    OnePerIdentityDistinct(naming, b);
    SameMembers(a, b);
    if TextsDistinct(naming) {
      IdentitiesKnown(naming, asOf, rows);
      KeysDistinct(naming, a);
      RowOrderTotal(naming);
      SortedUnique(a, b, RowOrder(naming));
    }
  }

  lemma IdentitiesKnown<K(!new), B(!new)>(naming: Naming<K, B>, asOf: int, rows: seq<Row<B>>)
    requires Select(naming, asOf, rows).Ok?
    ensures forall r :: r in Select(naming, asOf, rows).value ==> naming.identity(r).Some?
  {
    SelectedRows(naming, asOf, rows);
    FoldLatest(naming, asOf, rows);
    forall r | r in Select(naming, asOf, rows).value ensures naming.identity(r).Some? {
      assert Newest(naming, asOf, rows, r);
      assert Represented(naming, Fold(naming, asOf, rows).value, r);
    }
  }

  // ---------------------------------------------------------------- rows that arrive later

  ghost predicate Later<B>(row: Row<B>, asOf: int) {
    RowError(row).None? && Available(row) > asOf
  }

  /** The input without its well-formed rows that became available after `asOf`. */
  ghost function WithoutLater<B>(rows: seq<Row<B>>, asOf: int): seq<Row<B>> {
    if rows == [] then []
    else WithoutLater(rows[..|rows| - 1], asOf) + (if Later(rows[|rows| - 1], asOf) then [] else [rows[|rows| - 1]])
  }

  lemma {:induction false} FoldWithoutLater<K, B>(naming: Naming<K, B>, asOf: int, rows: seq<Row<B>>)
    ensures Fold(naming, asOf, WithoutLater(rows, asOf)) == Fold(naming, asOf, rows)
  {
    if rows != [] {
      var init, last := rows[..|rows| - 1], rows[|rows| - 1];
      FoldWithoutLater(naming, asOf, init);
      if !Later(last, asOf) {
        assert WithoutLater(rows, asOf)[..|WithoutLater(rows, asOf)| - 1] == WithoutLater(init, asOf);
      } else {
        assert WithoutLater(rows, asOf) == WithoutLater(init, asOf);
      }
    }
  }

  /** Adding or removing well-formed rows that became available later, anywhere in the input, changes nothing. */
  lemma LaterRowsIgnored<K, B>(naming: Naming<K, B>, asOf: int, rows: seq<Row<B>>, other: seq<Row<B>>)
    requires WithoutLater(rows, asOf) == WithoutLater(other, asOf)
    requires (rows == [] <==> other == []) || Select(naming, asOf, rows).Ok?
    ensures Select(naming, asOf, other) == Select(naming, asOf, rows)
  {
    FoldWithoutLater(naming, asOf, rows);
    FoldWithoutLater(naming, asOf, other);
    if rows != [] && other != [] {
      FoldComplete(naming, asOf, rows);
      hide Fold, Arranged, Complete, WithoutLater;
    }
  }

  // ---------------------------------------------------------------- exactly when the loop raises

  /** Both visible and of one identity. */
  ghost predicate Rivals<K, B>(naming: Naming<K, B>, asOf: int, x: Row<B>, y: Row<B>) {
    Visible(x, asOf) && Visible(y, asOf) && naming.identity(x).Some? && naming.identity(x) == naming.identity(y)
  }

  /** No earlier rival of row `i` became available after it. */
  ghost predicate Leads<K, B>(naming: Naming<K, B>, asOf: int, rows: seq<Row<B>>, i: nat)
    requires i < |rows|
  {
    forall j :: 0 <= j < i && Rivals(naming, asOf, rows[j], rows[i]) ==> Available(rows[j]) <= Available(rows[i])
  }

  /** Row `i` ties, at the lead so far, with a different earlier row. */
  ghost predicate Clashes<K, B>(naming: Naming<K, B>, asOf: int, rows: seq<Row<B>>, i: nat)
    requires i < |rows|
  {
    && Leads(naming, asOf, rows, i)
    && exists j :: 0 <= j < i && Rivals(naming, asOf, rows[j], rows[i]) && Available(rows[j]) == Available(rows[i]) && rows[j] != rows[i]
  }

  ghost predicate Readable<K, B>(naming: Naming<K, B>, asOf: int, row: Row<B>) {
    RowError(row).None? && (Visible(row, asOf) ==> naming.identity(row).Some?)
  }

  /** The step on row `i` does not raise. */
  ghost predicate Settled<K, B>(naming: Naming<K, B>, asOf: int, rows: seq<Row<B>>, i: nat)
    requires i < |rows|
  {
    Readable(naming, asOf, rows[i]) && !Clashes(naming, asOf, rows, i)
  }

  ghost predicate Unambiguous<K, B>(naming: Naming<K, B>, asOf: int, rows: seq<Row<B>>) {
    forall i :: 0 <= i < |rows| ==> Settled(naming, asOf, rows, i)
  }

  lemma ClashesOfPrefix<K, B>(naming: Naming<K, B>, asOf: int, rows: seq<Row<B>>, i: nat)
    requires i < |rows| - 1
    ensures Clashes(naming, asOf, rows, i) == Clashes(naming, asOf, rows[..|rows| - 1], i)
  {
    var init := rows[..|rows| - 1];
    assert forall j :: 0 <= j <= i ==> init[j] == rows[j];
    if Clashes(naming, asOf, rows, i) {
      var j :| 0 <= j < i && Rivals(naming, asOf, rows[j], rows[i]) && Available(rows[j]) == Available(rows[i]) && rows[j] != rows[i];
      assert init[j] == rows[j];
    }
    if Clashes(naming, asOf, init, i) {
      var j :| 0 <= j < i && Rivals(naming, asOf, init[j], init[i]) && Available(init[j]) == Available(init[i]) && init[j] != init[i];
      assert init[j] == rows[j];
    }
  }

  /** The step on the last row fails exactly when that row is unreadable or clashes. */
  lemma StepIff<K(!new), B>(naming: Naming<K, B>, asOf: int, rows: seq<Row<B>>, s: Selection<K, B>)
    requires rows != [] && Latest(naming, asOf, rows[..|rows| - 1], s)
    ensures Step(naming, asOf, s, rows[|rows| - 1]).Ok?
            <==> Settled(naming, asOf, rows, |rows| - 1)
  {
    var n := |rows| - 1;
    var init, last := rows[..n], rows[n];
    assert forall j :: 0 <= j < n ==> rows[j] == init[j] && rows[j] in init;
    if Readable(naming, asOf, last) && Visible(last, asOf) {
      var k := naming.identity(last).value;
      if k in s.rows {
        var best := s.rows[k];
        var j :| 0 <= j < n && init[j] == best;
        assert Rivals(naming, asOf, rows[j], rows[n]);
        forall i | 0 <= i < n && Rivals(naming, asOf, rows[i], rows[n])
          ensures rows[i] == best || Available(rows[i]) < Available(best)
        {
          assert Represented(naming, s, rows[i]);
        }
      } else {
        forall i | 0 <= i < n ensures !Rivals(naming, asOf, rows[i], rows[n]) {
          assert Visible(rows[i], asOf) ==> Represented(naming, s, rows[i]);
        }
      }
    }
  }

  /** Only the last row decides whether an unambiguous prefix stays unambiguous. */
  lemma UnambiguousSnoc<K, B>(naming: Naming<K, B>, asOf: int, rows: seq<Row<B>>)
    requires rows != []
    ensures Unambiguous(naming, asOf, rows)
            <==> Unambiguous(naming, asOf, rows[..|rows| - 1]) && Settled(naming, asOf, rows, |rows| - 1)
  {
    var n := |rows| - 1;
    var init := rows[..n];
    if Unambiguous(naming, asOf, rows) {
      forall i | 0 <= i < n ensures Settled(naming, asOf, init, i) {
        assert Settled(naming, asOf, rows, i);
        ClashesOfPrefix(naming, asOf, rows, i);
      }
    }
    if Unambiguous(naming, asOf, init) && Settled(naming, asOf, rows, n) {
      forall i | 0 <= i < |rows| ensures Settled(naming, asOf, rows, i) {
        if i < n {
          assert Settled(naming, asOf, init, i);
          ClashesOfPrefix(naming, asOf, rows, i);
        }
      }
    }
  }

  /** The loop returns exactly when every row is readable and none ties with a different row at the lead so far. */
  lemma {:induction false} FoldIff<K(!new), B>(naming: Naming<K, B>, asOf: int, rows: seq<Row<B>>)
    ensures Fold(naming, asOf, rows).Ok? <==> Unambiguous(naming, asOf, rows)
  {
    if rows != [] {
      var init := rows[..|rows| - 1];
      FoldIff(naming, asOf, init);
      UnambiguousSnoc(naming, asOf, rows);
      if Fold(naming, asOf, init).Ok? {
        FoldLatest(naming, asOf, init);
        StepIff(naming, asOf, rows, Fold(naming, asOf, init).value);
      }
    }
  }

  /** No two different visible rows of one identity became available at the same time. */
  ghost predicate TieFree<K, B>(naming: Naming<K, B>, asOf: int, rows: seq<Row<B>>) {
    forall i, j :: 0 <= i < |rows| && 0 <= j < |rows| && Rivals(naming, asOf, rows[i], rows[j]) && Available(rows[i]) == Available(rows[j])
                   ==> rows[i] == rows[j]
  }

  ghost predicate AllReadable<K, B>(naming: Naming<K, B>, asOf: int, rows: seq<Row<B>>) {
    forall i :: 0 <= i < |rows| ==> Readable(naming, asOf, rows[i])
  }

  lemma TieFreeReturns<K(!new), B>(naming: Naming<K, B>, asOf: int, rows: seq<Row<B>>, other: seq<Row<B>>)
    requires multiset(rows) == multiset(other) && AllReadable(naming, asOf, rows) && TieFree(naming, asOf, rows)
    ensures Fold(naming, asOf, other).Ok?
  {
    SameElements(rows, other);
    forall i | 0 <= i < |other| ensures Settled(naming, asOf, other, i) {
      assert other[i] in rows;
      forall j | 0 <= j < i && Rivals(naming, asOf, other[j], other[i]) && Available(other[j]) == Available(other[i])
        ensures other[j] == other[i]
      {
        assert other[j] in rows;
        var i' :| 0 <= i' < |rows| && rows[i'] == other[i];
        var j' :| 0 <= j' < |rows| && rows[j'] == other[j];
      }
    }
    FoldIff(naming, asOf, other);
  }

  /** Both tied rows moved to the front, where the second meets the first as leader. */
  lemma TieFails<K(!new), B>(naming: Naming<K, B>, asOf: int, rows: seq<Row<B>>, i: nat, j: nat) returns (other: seq<Row<B>>)
    requires i < j < |rows| && Rivals(naming, asOf, rows[i], rows[j]) && Available(rows[i]) == Available(rows[j]) && rows[i] != rows[j]
    ensures multiset(other) == multiset(rows) && Fold(naming, asOf, other).Err?
  {
    var rest := rows[..i] + rows[i + 1..j] + rows[j + 1..];
    other := [rows[i], rows[j]] + rest;
    assert rows == rows[..i] + [rows[i]] + rows[i + 1..j] + [rows[j]] + rows[j + 1..];
    assert other[0] == rows[i] && other[1] == rows[j];
    assert Rivals(naming, asOf, other[0], other[1]);
    assert Clashes(naming, asOf, other, 1) && !Settled(naming, asOf, other, 1);
    FoldIff(naming, asOf, other);
  }

  lemma RivalsSymmetric<K, B>(naming: Naming<K, B>, asOf: int, x: Row<B>, y: Row<B>)
    ensures Rivals(naming, asOf, x, y) == Rivals(naming, asOf, y, x)
  {
  }

  /** Every order of the rows returns exactly when every row is readable and no two different visible rows
      of one identity share an availability time. */
  lemma EveryOrderReturnsIff<K(!new), B(!new)>(naming: Naming<K, B>, asOf: int, rows: seq<Row<B>>)
    ensures (forall other :: multiset(other) == multiset(rows) ==> Fold(naming, asOf, other).Ok?)
            <==> AllReadable(naming, asOf, rows) && TieFree(naming, asOf, rows)
  {
    if AllReadable(naming, asOf, rows) && TieFree(naming, asOf, rows) {
      forall other | multiset(other) == multiset(rows) ensures Fold(naming, asOf, other).Ok? {
        TieFreeReturns(naming, asOf, rows, other);
      }
    } else if !AllReadable(naming, asOf, rows) {
      FoldIff(naming, asOf, rows);
      var i :| 0 <= i < |rows| && !Readable(naming, asOf, rows[i]);
      assert !Settled(naming, asOf, rows, i);
    } else {
      var i, j :| 0 <= i < |rows| && 0 <= j < |rows| && Rivals(naming, asOf, rows[i], rows[j])
                  && Available(rows[i]) == Available(rows[j]) && rows[i] != rows[j];
      RivalsSymmetric(naming, asOf, rows[i], rows[j]);
      var lo, hi := if i < j then i else j, if i < j then j else i;
      var other := TieFails(naming, asOf, rows, lo, hi);
      assert Fold(naming, asOf, other).Err?;
    }
  }

  /** No identity has two different rows available last. */
  ghost predicate OneNewest<K, B(!new)>(naming: Naming<K, B>, asOf: int, rows: seq<Row<B>>) {
    forall r, q :: Newest(naming, asOf, rows, r) && Newest(naming, asOf, rows, q) && naming.identity(r) == naming.identity(q) ==> r == q
  }

  lemma ReturnedHasOneNewest<K(!new), B(!new)>(naming: Naming<K, B>, asOf: int, rows: seq<Row<B>>, other: seq<Row<B>>)
    requires multiset(other) == multiset(rows) && Fold(naming, asOf, other).Ok?
    ensures AllReadable(naming, asOf, rows) && OneNewest(naming, asOf, rows)
  {
    SameElements(other, rows);
    var s := Fold(naming, asOf, other).value;
    FoldLatest(naming, asOf, other);
    forall r, q | Newest(naming, asOf, rows, r) && Newest(naming, asOf, rows, q) && naming.identity(r) == naming.identity(q) ensures r == q {
      assert Newest(naming, asOf, other, r) && Newest(naming, asOf, other, q);
      NewestIsSelected(naming, asOf, other, s, r);
      NewestIsSelected(naming, asOf, other, s, q);
    }
    forall i | 0 <= i < |rows| ensures Readable(naming, asOf, rows[i]) {
      assert rows[i] in other;
      assert Visible(rows[i], asOf) ==> Represented(naming, s, rows[i]);
    }
  }

  /** Rows that became available last come first. */
  function NewestFirstOrder<B>(): (Row<B>, Row<B>) -> bool {
    (x, y) => Available(x) >= Available(y)
  }

  lemma NewestFirstTotal<B(!new)>()
    ensures TotalPreorder(NewestFirstOrder<B>())
  {
  }

  /** In the newest-first arrangement a row that ties with the lead so far is one of its identity's newest. */
  lemma NewestFirstSettles<K, B(!new)>(naming: Naming<K, B>, asOf: int, rows: seq<Row<B>>, i: nat)
    requires i < |rows| && Sorted(rows, NewestFirstOrder()) && Readable(naming, asOf, rows[i]) && OneNewest(naming, asOf, rows)
    ensures Settled(naming, asOf, rows, i)
  {
    if Clashes(naming, asOf, rows, i) {
      var j :| 0 <= j < i && Rivals(naming, asOf, rows[j], rows[i]) && Available(rows[j]) == Available(rows[i]) && rows[j] != rows[i];
      forall q | q in rows && Visible(q, asOf) && naming.identity(q) == naming.identity(rows[i]) ensures Available(q) <= Available(rows[i]) {
        var k :| 0 <= k < |rows| && rows[k] == q;
        if k < i {
          assert Rivals(naming, asOf, rows[k], rows[i]);
        } else if i < k {
          assert NewestFirstOrder()(rows[i], rows[k]);
        }
      }
      assert Newest(naming, asOf, rows, rows[i]) && Newest(naming, asOf, rows, rows[j]);
      assert false;
    }
  }

  lemma NewestFirstReturns<K(!new), B(!new)>(naming: Naming<K, B>, asOf: int, rows: seq<Row<B>>)
    requires AllReadable(naming, asOf, rows) && OneNewest(naming, asOf, rows)
    ensures Fold(naming, asOf, SortBy(rows, NewestFirstOrder())).Ok?
  {
    hide Fold, Settled, Readable, TotalPreorder, Sorted, NewestFirstOrder;
    var other := SortBy(rows, NewestFirstOrder());
    NewestFirstTotal<B>();
    SortBySorted(rows, NewestFirstOrder());
    OneNewestPermuted(naming, asOf, rows, other);
    hide OneNewest;
    forall i | 0 <= i < |other| ensures Settled(naming, asOf, other, i) {
      SameElement(other, rows, other[i]);
      NewestFirstSettles(naming, asOf, other, i);
    }
    FoldIff(naming, asOf, other);
  }

  lemma OneNewestPermuted<K, B(!new)>(naming: Naming<K, B>, asOf: int, rows: seq<Row<B>>, other: seq<Row<B>>)
    requires multiset(rows) == multiset(other) && OneNewest(naming, asOf, rows)
    ensures OneNewest(naming, asOf, other)
  {
    SameElements(rows, other);
    forall r, q | Newest(naming, asOf, other, r) && Newest(naming, asOf, other, q) && naming.identity(r) == naming.identity(q) ensures r == q {
      assert Newest(naming, asOf, rows, r) && Newest(naming, asOf, rows, q);
    }
  }

  /** Some order of the rows returns exactly when every row is readable and no identity has two different
      rows available last. */
  lemma SomeOrderReturnsIff<K(!new), B(!new)>(naming: Naming<K, B>, asOf: int, rows: seq<Row<B>>)
    ensures (exists other :: multiset(other) == multiset(rows) && Fold(naming, asOf, other).Ok?)
            <==> AllReadable(naming, asOf, rows) && OneNewest(naming, asOf, rows)
  {
    if other :| multiset(other) == multiset(rows) && Fold(naming, asOf, other).Ok? {
      ReturnedHasOneNewest(naming, asOf, rows, other);
    }
    if AllReadable(naming, asOf, rows) && OneNewest(naming, asOf, rows) {
      NewestFirstReturns(naming, asOf, rows);
    }
  }

  /** Some row is visible, so there is something to select. */
  ghost predicate AnyVisible<B>(asOf: int, rows: seq<Row<B>>) {
    exists i :: 0 <= i < |rows| && Visible(rows[i], asOf)
  }

  /** A selection is returned exactly when the loop does not raise and a row is visible. */
  lemma SelectReturnsIff<K(!new), B(!new)>(naming: Naming<K, B>, asOf: int, rows: seq<Row<B>>)
    ensures Select(naming, asOf, rows).Ok? <==> Unambiguous(naming, asOf, rows) && AnyVisible(asOf, rows)
  {
    FoldIff(naming, asOf, rows);
    if Fold(naming, asOf, rows).Ok? {
      var s := Fold(naming, asOf, rows).value;
      FoldComplete(naming, asOf, rows);
      FoldLatest(naming, asOf, rows);
      if s.order != [] {
        var k := s.order[0];
        assert s.rows[k] in rows && Visible(s.rows[k], asOf);
      }
      if i :| 0 <= i < |rows| && Visible(rows[i], asOf) {
        assert rows[i] in rows && Represented(naming, s, rows[i]);
      }
    }
  }

  /** One arrangement of the rows is selected from and another is refused. */
  ghost predicate OrdersDisagree<K(!new), B(!new)>(naming: Naming<K, B>, asOf: int, rows: seq<Row<B>>) {
    exists a, b :: multiset(a) == multiset(rows) && multiset(b) == multiset(rows) && Select(naming, asOf, a).Ok? && Select(naming, asOf, b).Err?
  }

  lemma VisiblePermuted<B>(asOf: int, rows: seq<Row<B>>, other: seq<Row<B>>)
    requires multiset(rows) == multiset(other) && AnyVisible(asOf, rows)
    ensures AnyVisible(asOf, other)
  {
    SameElements(rows, other);
    var i :| 0 <= i < |rows| && Visible(rows[i], asOf);
    assert rows[i] in other;
  }

  lemma TieFreeAgrees<K(!new), B(!new)>(naming: Naming<K, B>, asOf: int, rows: seq<Row<B>>)
    requires AllReadable(naming, asOf, rows) && TieFree(naming, asOf, rows)
    ensures !OrdersDisagree(naming, asOf, rows)
  {
    forall a, b | multiset(a) == multiset(rows) && multiset(b) == multiset(rows) && Select(naming, asOf, a).Ok?
      ensures Select(naming, asOf, b).Ok?
    {
      SelectReturnsIff(naming, asOf, a);
      VisiblePermuted(asOf, a, b);
      TieFreeReturns(naming, asOf, rows, b);
      FoldIff(naming, asOf, b);
      SelectReturnsIff(naming, asOf, b);
    }
  }

  lemma TieDisagrees<K(!new), B(!new)>(naming: Naming<K, B>, asOf: int, rows: seq<Row<B>>)
    requires AllReadable(naming, asOf, rows) && OneNewest(naming, asOf, rows) && !TieFree(naming, asOf, rows)
    ensures OrdersDisagree(naming, asOf, rows)
  {
    var a := SortBy(rows, NewestFirstOrder());
    NewestFirstReturns(naming, asOf, rows);
    FoldIff(naming, asOf, a);
    assert AnyVisible(asOf, rows);
    VisiblePermuted(asOf, rows, a);
    SelectReturnsIff(naming, asOf, a);
    EveryOrderReturnsIff(naming, asOf, rows);
    var b :| multiset(b) == multiset(rows) && !Fold(naming, asOf, b).Ok?;
    FoldIff(naming, asOf, b);
    SelectReturnsIff(naming, asOf, b);
  }

  /** Whether a selection is returned depends on the order of the rows exactly when every row is readable, no
      identity has two different rows available last, and two different rows of some identity tie below that. */
  lemma OrdersDisagreeIff<K(!new), B(!new)>(naming: Naming<K, B>, asOf: int, rows: seq<Row<B>>)
    ensures OrdersDisagree(naming, asOf, rows)
            <==> AllReadable(naming, asOf, rows) && OneNewest(naming, asOf, rows) && !TieFree(naming, asOf, rows)
  {
    if OrdersDisagree(naming, asOf, rows) {
      var a, b :| multiset(a) == multiset(rows) && multiset(b) == multiset(rows) && Select(naming, asOf, a).Ok? && Select(naming, asOf, b).Err?;
      SelectReturnsIff(naming, asOf, a);
      FoldIff(naming, asOf, a);
      ReturnedHasOneNewest(naming, asOf, rows, a);
      if TieFree(naming, asOf, rows) {
        TieFreeAgrees(naming, asOf, rows);
      }
    } else if AllReadable(naming, asOf, rows) && OneNewest(naming, asOf, rows) && !TieFree(naming, asOf, rows) {
      TieDisagrees(naming, asOf, rows);
    }
  }

  const ONE_IDENTITY: Naming<int, int> := Naming(r => Some(0), k => "0")

  function Revision(available: int, body: int): Row<int> {
    Fields(Some(1), Some(available), body)
  }

  /** Three revisions of one identity: the tie at time 1 is raised unless the revision at time 2 comes first. */
  lemma OrderDecidesAmbiguity()
    ensures var a, b, c := Revision(1, 1), Revision(1, 2), Revision(2, 3);
            && multiset([a, b, c]) == multiset([c, a, b])
            && Select(ONE_IDENTITY, 5, [a, b, c]) == Err(AmbiguousRevision) && Select(ONE_IDENTITY, 5, [c, a, b]) == Ok([c])
  {
    NewestFirst(Revision(1, 1), Revision(1, 2), Revision(2, 3));
    TieFirst(Revision(1, 1), Revision(1, 2), Revision(2, 3));
  }

  lemma TieFirst(a: Row<int>, b: Row<int>, c: Row<int>)
    requires a == Revision(1, 1) && b == Revision(1, 2)
    ensures Select(ONE_IDENTITY, 5, [a, b, c]) == Err(AmbiguousRevision)
  {
    FoldOne(a);
    assert [a, b][..1] == [a] && Fold(ONE_IDENTITY, 5, [a, b]) == Err(AmbiguousRevision);
    assert [a, b, c][..2] == [a, b];
  }

  lemma NewestFirst(a: Row<int>, b: Row<int>, c: Row<int>)
    requires a == Revision(1, 1) && b == Revision(1, 2) && c == Revision(2, 3)
    ensures Select(ONE_IDENTITY, 5, [c, a, b]) == Ok([c])
  {
    var s := Selection([0], map[0 := c]);
    FoldOne(c);
    assert [c, a][..1] == [c] && Fold(ONE_IDENTITY, 5, [c, a]) == Ok(s);
    assert [c, a, b][..2] == [c, a] && Fold(ONE_IDENTITY, 5, [c, a, b]) == Ok(s);
    assert Listed(s) == [c] && SortBy([c], RowOrder(ONE_IDENTITY)) == [c];
  }

  lemma FoldOne(row: Row<int>)
    requires RowError(row).None? && Available(row) <= 5
    ensures Fold(ONE_IDENTITY, 5, [row]) == Ok(Selection([0], map[0 := row]))
  {
    var empty: seq<Row<int>> := [row][..0];
    assert empty == [] && Fold(ONE_IDENTITY, 5, empty) == Ok(Selection([], map[]));
    assert ONE_IDENTITY.identity(row) == Some(0);
    assert [] + [0] == [0];
  }

  // ---------------------------------------------------------------- the loop

  lemma {:induction false} FoldFailed<K, B>(naming: Naming<K, B>, asOf: int, rows: seq<Row<B>>, n: nat)
    requires n <= |rows| && Fold(naming, asOf, rows[..n]).Err?
    ensures Fold(naming, asOf, rows) == Fold(naming, asOf, rows[..n])
    decreases |rows| - n
  {
    if n < |rows| {
      assert rows[..n + 1][..n] == rows[..n];
      FoldFailed(naming, asOf, rows, n + 1);
    } else {
      assert rows[..n] == rows;
    }
  }

  /** `_select_latest_revisions`. */
  method SelectLatestRevisions<K(==), B(==)>(naming: Naming<K, B>, asOf: int, rows: seq<Row<B>>) returns (r: Result<seq<Row<B>>, Error>)
    ensures r == Select(naming, asOf, rows)
  {
    if rows == [] {
      return Err(Missing);
    }
    var order: seq<K>, selected: map<K, Row<B>> := [], map[];
    for i := 0 to |rows|
      invariant Fold(naming, asOf, rows[..i]) == Ok(Selection(order, selected))
    {
      assert rows[..i + 1][..i] == rows[..i];
      var raw := rows[i];
      var e := RowError(raw);
      if e.Some? {
        FoldFailed(naming, asOf, rows, i + 1);
        return Err(e.value);
      }
      if Available(raw) <= asOf {
        var key := naming.identity(raw);
        if key.None? {
          FoldFailed(naming, asOf, rows, i + 1);
          return Err(IdentityInvalid);
        }
        if key.value !in selected {
          order, selected := order + [key.value], selected[key.value := raw];
        } else if Available(raw) > Available(selected[key.value]) {
          selected := selected[key.value := raw];
        } else if Available(raw) == Available(selected[key.value]) && raw != selected[key.value] {
          FoldFailed(naming, asOf, rows, i + 1);
          return Err(AmbiguousRevision);
        }
      }
    }
    assert rows[..|rows|] == rows;
    FoldComplete(naming, asOf, rows);
    if order == [] {
      return Err(NoPointInTimeObservation);
    }
    r := Ok(SortBy(Listed(Selection(order, selected)), RowOrder(naming)));
  }
}
