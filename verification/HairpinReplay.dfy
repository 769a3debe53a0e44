/** What an accepted replay means: a chain hash pins the whole history of its cycle, a cycle depends only on
    its own rows, and exactly which cycles pass the sequence guard out of order. */
module HairpinReplay {
  import opened Common
  import opened Sorting
  import opened TextOrder
  import opened HairpinModel
  import opened Serial

  /** No two preimages share a digest and none digests to the genesis value. */
  ghost predicate Collisionless<P(!new)>(digest: Digest<P>) {
    (forall x, y :: digest(x) == digest(y) ==> x == y) && forall x :: digest(x) != Genesis()
  }

  function PutKind(kind: Kind, rest: string): string {
    PutInt(KindIndex(kind), if kind.Unknown? then PutText(kind.text, rest) else rest)
  }

  function PreimageText<P>(text: P -> string, x: Preimage<P>): string {
    match x
    case OfEvent(body) => PutInt(0, PutText(body.cycle, PutKind(body.kind, PutText(body.at, text(body.rest)))))
    case OfLink(previous, event) => PutInt(1, PutText(previous, PutText(event, "")))
  }

  lemma PreimageBack<P>(text: P -> string, x: Preimage<P>, y: Preimage<P>)
    requires forall p, q :: text(p) == text(q) ==> p == q
    requires PreimageText(text, x) == PreimageText(text, y)
    ensures x == y
  {
    hide PutInt, PutText, GetInt, GetText;
  }

  /** Whatever text separates the other fields of events, some digest is collisionless. */
  lemma DigestsExist<P(!new)>(text: P -> string)
    requires forall p, q :: text(p) == text(q) ==> p == q
    ensures Collisionless<P>(x => "d" + PreimageText(text, x))
  {
    var digest: Digest<P> := x => "d" + PreimageText(text, x);
    forall x, y | digest(x) == digest(y) ensures x == y {
      assert digest(x)[1..] == PreimageText(text, x) && digest(y)[1..] == PreimageText(text, y);
      PreimageBack(text, x, y);
    }
    forall x ensures digest(x) != Genesis() {
      assert digest(x)[0] == 'd' && Genesis()[0] == '0';
    }
  }

  ghost predicate AllEvents<P>(rows: seq<Row<P>>) {
    forall i :: 0 <= i < |rows| ==> rows[i].Event?
  }

  function Bodies<P>(rows: seq<Row<P>>): seq<Body<P>>
    requires forall i :: 0 <= i < |rows| ==> rows[i].Event?
  {
    seq(|rows|, i requires 0 <= i < |rows| => rows[i].body)
  }

  // ---------------------------------------------------------------- chains

  lemma {:induction false} AuditEvents<P>(digest: Digest<P>, ordered: seq<Row<P>>)
    requires Audit(digest, ordered).Ok?
    ensures AllEvents(ordered)
  {
    if ordered != [] {
      AuditEvents(digest, ordered[..|ordered| - 1]);
    }
  }

  lemma AuditSnoc<P>(digest: Digest<P>, ordered: seq<Row<P>>)
    requires Audit(digest, ordered).Ok? && ordered != []
    ensures var n := |ordered| - 1;
            && Audit(digest, ordered[..n]).Ok? && ordered[n].Event?
            && Head(Audit(digest, ordered).value)
               == digest(OfLink(Head(Audit(digest, ordered[..n]).value), digest(OfEvent(ordered[n].body))))
  {
  }

  lemma BodiesSnoc<P>(rows: seq<Row<P>>)
    requires AllEvents(rows) && rows != []
    ensures Bodies(rows) == Bodies(rows[..|rows| - 1]) + [rows[|rows| - 1].body]
  {
  }

  /** Equal chain heads stand for equal lists of event bodies. */
  lemma {:induction false} ChainPins<P(!new)>(digest: Digest<P>, a: seq<Row<P>>, b: seq<Row<P>>)
    requires Collisionless(digest) && Audit(digest, a).Ok? && Audit(digest, b).Ok?
    requires Head(Audit(digest, a).value) == Head(Audit(digest, b).value)
    ensures AllEvents(a) && AllEvents(b) && Bodies(a) == Bodies(b)
    decreases |a|
  {
    AuditEvents(digest, a);
    AuditEvents(digest, b);
    if a != [] {
      AuditSnoc(digest, a);
    }
    if b != [] {
      AuditSnoc(digest, b);
    }
    if a != [] && b != [] {
      ChainPins(digest, a[..|a| - 1], b[..|b| - 1]);
      BodiesSnoc(a);
      BodiesSnoc(b);
    }
  }

  /** The audit is a function of the event bodies alone. */
  lemma {:induction false} AuditFromBodies<P>(digest: Digest<P>, a: seq<Row<P>>, b: seq<Row<P>>)
    requires Audit(digest, a).Ok? && Audit(digest, b).Ok? && AllEvents(a) && AllEvents(b) && Bodies(a) == Bodies(b)
    ensures Audit(digest, a) == Audit(digest, b)
  {
    assert |a| == |Bodies(a)| == |b|;
    if a != [] {
      PrefixBodies(a, b);
      AuditFromBodies(digest, a[..|a| - 1], b[..|b| - 1]);
      AuditLast(digest, a);
      AuditLast(digest, b);
      SameLine(digest, Head(Audit(digest, a[..|a| - 1]).value), a[|a| - 1], b[|b| - 1]);
    }
  }

  lemma PrefixBodies<P>(a: seq<Row<P>>, b: seq<Row<P>>)
    requires AllEvents(a) && AllEvents(b) && Bodies(a) == Bodies(b) && a != []
    ensures |a| == |b| && AllEvents(a[..|a| - 1]) && AllEvents(b[..|b| - 1])
    ensures Bodies(a[..|a| - 1]) == Bodies(b[..|b| - 1]) && a[|a| - 1].body == b[|b| - 1].body
  {
    assert |a| == |Bodies(a)| == |b|;
    BodiesSnoc(a);
    BodiesSnoc(b);
    var n := |a| - 1;
    assert Bodies(a)[..n] == Bodies(a[..n]) && Bodies(b)[..n] == Bodies(b[..n]) && Bodies(a)[n] == Bodies(b)[n];
  }

  lemma AuditLast<P>(digest: Digest<P>, ordered: seq<Row<P>>)
    requires Audit(digest, ordered).Ok? && ordered != []
    ensures var n := |ordered| - 1;
            && Audit(digest, ordered[..n]).Ok?
            && var before := Audit(digest, ordered[..n]).value;
               Link(digest, Head(before), ordered[n]).Ok?
               && Audit(digest, ordered) == Ok(before + [Link(digest, Head(before), ordered[n]).value])
  {
  }

  lemma KindsFromBodies<P>(a: seq<Row<P>>, b: seq<Row<P>>)
    requires AllEvents(a) && AllEvents(b) && Bodies(a) == Bodies(b)
    ensures Kinds(a) == Kinds(b)
  {
    assert |a| == |Bodies(a)| == |b|;
    forall i | 0 <= i < |a| ensures KindOf(a[i]) == KindOf(b[i]) {
      assert Bodies(a)[i] == Bodies(b)[i];
    }
  }

  lemma SameLine<P>(digest: Digest<P>, previous: string, x: Row<P>, y: Row<P>)
    requires x.Event? && y.Event? && x.body == y.body && Link(digest, previous, x).Ok? && Link(digest, previous, y).Ok?
    ensures Link(digest, previous, x) == Link(digest, previous, y)
  {
  }

  // ---------------------------------------------------------------- what a replay holds

  lemma {:induction false} RowsOfCount<P>(rows: seq<Row<P>>, cycle: string, x: Row<P>)
    ensures multiset(RowsOf(rows, cycle))[x] == if InCycle(x, cycle) then multiset(rows)[x] else 0
  {
    if rows != [] {
      RowsOfCount(rows[..|rows| - 1], cycle, x);
      assert rows == rows[..|rows| - 1] + [rows[|rows| - 1]];
    }
  }

  lemma RowsOfMembers<P>(rows: seq<Row<P>>, cycle: string, x: Row<P>)
    requires x in RowsOf(rows, cycle)
    ensures x in rows && InCycle(x, cycle)
  {
    RowsOfCount(rows, cycle, x);
    assert x in multiset(RowsOf(rows, cycle));
    assert x in multiset(rows);
  }

  lemma {:induction false} CyclesAre<P>(rows: seq<Row<P>>, cycle: string)
    ensures cycle in CyclesOf(rows) <==> RowsOf(rows, cycle) != []
  {
    if rows != [] {
      CyclesAre(rows[..|rows| - 1], cycle);
    }
  }

  lemma {:induction false} Collected<V>(f: string -> Result<V, Error>, cycles: seq<string>)
    ensures Collect(f, cycles).Ok? <==> forall c :: c in cycles ==> f(c).Ok?
    ensures Collect(f, cycles).Ok?
            ==> var m := Collect(f, cycles).value;
                (forall c :: c in m <==> c in cycles) && (forall c :: c in m ==> f(c) == Ok(m[c]))
  {
    if cycles != [] {
      var init, last := cycles[..|cycles| - 1], cycles[|cycles| - 1];
      Collected(f, init);
      assert cycles == init + [last];
    }
  }

  /** An accepted replay has one entry per cycle present, computed from that cycle's rows alone. */
  lemma ReplayHolds<P>(digest: Digest<P>, rows: seq<Row<P>>, cycle: string)
    requires Replay(digest, rows).Ok?
    ensures cycle in Replay(digest, rows).value <==> RowsOf(rows, cycle) != []
    ensures cycle in Replay(digest, rows).value ==> Project(digest, cycle, RowsOf(rows, cycle)) == Ok(Replay(digest, rows).value[cycle])
  {
    Collected(ByCycle(digest, rows), CyclesOf(rows));
    CyclesAre(rows, cycle);
    assert ByCycle(digest, rows)(cycle) == Project(digest, cycle, RowsOf(rows, cycle));
  }

  /** The rows of a cycle in audit order. */
  function Ordered<P>(rows: seq<Row<P>>, cycle: string): seq<Row<P>> {
    SortBy(RowsOf(rows, cycle), EventBefore)
  }

  lemma ReplayEntry<P>(digest: Digest<P>, rows: seq<Row<P>>, cycle: string)
    requires Replay(digest, rows).Ok? && cycle in Replay(digest, rows).value
    ensures var p, ordered := Replay(digest, rows).value[cycle], Ordered(rows, cycle);
            && ordered != [] && OrderAccepted(Kinds(ordered)) && Audit(digest, ordered).Ok?
            && p == Projection(Kinds(ordered), Kinds(ordered) == EVENTS, Audit(digest, ordered).value, Head(Audit(digest, ordered).value))
  {
    ReplayHolds(digest, rows, cycle);
  }

  lemma OrderedMembers<P>(rows: seq<Row<P>>, cycle: string, i: nat)
    requires i < |Ordered(rows, cycle)|
    ensures Ordered(rows, cycle)[i] in rows && InCycle(Ordered(rows, cycle)[i], cycle)
  {
    var x := Ordered(rows, cycle)[i];
    SameElement(Ordered(rows, cycle), RowsOf(rows, cycle), x);
    RowsOfMembers(rows, cycle, x);
  }

  /** Two accepted replays whose cycles show one chain hash replayed the same event bodies in the same
      order; the cycles have one name and one projection. */
  lemma EqualChainsEqualHistories<P(!new)>(digest: Digest<P>, rows: seq<Row<P>>, other: seq<Row<P>>, c: string, d: string)
    requires Collisionless(digest) && Replay(digest, rows).Ok? && Replay(digest, other).Ok?
    requires c in Replay(digest, rows).value && d in Replay(digest, other).value
    requires Replay(digest, rows).value[c].chain == Replay(digest, other).value[d].chain
    ensures AllEvents(Ordered(rows, c)) && AllEvents(Ordered(other, d)) && Bodies(Ordered(rows, c)) == Bodies(Ordered(other, d))
    ensures c == d && Replay(digest, rows).value[c] == Replay(digest, other).value[d]
  {
    ReplayEntry(digest, rows, c);
    ReplayEntry(digest, other, d);
    var a, b := Ordered(rows, c), Ordered(other, d);
    ChainPins(digest, a, b);
    AuditFromBodies(digest, a, b);
    KindsFromBodies(a, b);
    OrderedMembers(rows, c, 0);
    OrderedMembers(other, d, 0);
    assert a[0].body == Bodies(a)[0] == Bodies(b)[0] == b[0].body;
  }

  /** The stream is accepted and has the cycle. */
  ghost predicate Reported<P>(digest: Digest<P>, rows: seq<Row<P>>, cycle: string) {
    Replay(digest, rows).Ok? && cycle in Replay(digest, rows).value
  }

  /** The last row carries `chain` as its supplied chain hash. */
  ghost predicate ClosedBy<P>(rows: seq<Row<P>>, chain: string) {
    rows != [] && rows[|rows| - 1].Event? && rows[|rows| - 1].chainHash == Some(chain)
  }

  /** A supplied chain hash pins everything before it: a row accepted with the chain hash another replay
      reported closes the same list of bodies. */
  lemma SuppliedChainPins<P(!new)>(digest: Digest<P>, rows: seq<Row<P>>, other: seq<Row<P>>, c: string, d: string)
    requires Collisionless(digest) && Reported(digest, rows, c) && Reported(digest, other, d)
    requires ClosedBy(Ordered(rows, c), Replay(digest, other).value[d].chain)
    ensures AllEvents(Ordered(rows, c)) && AllEvents(Ordered(other, d)) && Bodies(Ordered(rows, c)) == Bodies(Ordered(other, d))
  {
    hide Replay, Ordered, Collisionless;
    ReplayEntry(digest, rows, c);
    EqualChainsEqualHistories(digest, rows, other, c, d);
  }

  // ---------------------------------------------------------------- own rows, any order

  lemma EventBeforeTotal<P(!new)>()
    ensures TotalPreorder<Row<P>>(EventBefore)
  {
    forall x: Row<P>, y: Row<P> ensures EventBefore(x, y) || EventBefore(y, x) {
      if x.Event? && y.Event? {
        Trichotomy(x.body.at, y.body.at);
      }
    }
    forall x: Row<P>, y: Row<P>, z: Row<P> | EventBefore(x, y) && EventBefore(y, z) ensures EventBefore(x, z) {
      if x.Event? && y.Event? && z.Event? && TextLess(x.body.at, y.body.at) && TextLess(y.body.at, z.body.at) {
        LessTransitive(x.body.at, y.body.at, z.body.at);
      }
    }
  }

  /** A cycle's projection does not depend on the input order of its rows when their keys are distinct. */
  lemma ProjectionIgnoresOrder<P(!new)>(digest: Digest<P>, cycle: string, a: seq<Row<P>>, b: seq<Row<P>>)
    requires multiset(a) == multiset(b) && DistinctKeys(a, EventBefore)
    ensures Project(digest, cycle, a) == Project(digest, cycle, b)
  {
    EventBeforeTotal<P>();
    SortPermutation(a, b, EventBefore);
  }

  /** Whatever else two accepted streams contain, a cycle with the same rows has the same projection. */
  lemma ProjectionIsLocal<P(!new)>(digest: Digest<P>, rows: seq<Row<P>>, other: seq<Row<P>>, cycle: string)
    requires Replay(digest, rows).Ok? && Replay(digest, other).Ok? && cycle in Replay(digest, rows).value
    requires multiset(RowsOf(rows, cycle)) == multiset(RowsOf(other, cycle)) && DistinctKeys(RowsOf(rows, cycle), EventBefore)
    ensures cycle in Replay(digest, other).value && Replay(digest, other).value[cycle] == Replay(digest, rows).value[cycle]
  {
    ReplayHolds(digest, rows, cycle);
    ReplayHolds(digest, other, cycle);
    SameElements(RowsOf(rows, cycle), RowsOf(other, cycle));
    ProjectionIgnoresOrder(digest, cycle, RowsOf(rows, cycle), RowsOf(other, cycle));
  }

  // ---------------------------------------------------------------- reordering a whole stream

  ghost predicate Identified<P>(row: Row<P>) {
    row.Event? && !row.body.kind.Unknown? && row.body.cycle != ""
  }

  predicate SameKey<P>(x: Row<P>, y: Row<P>)
    requires x.Event? && y.Event?
  {
    x.body.cycle == y.body.cycle && x.body.kind == y.body.kind
  }

  ghost predicate Admissible<P>(rows: seq<Row<P>>) {
    && (forall i :: 0 <= i < |rows| ==> Identified(rows[i]))
    && forall i, j :: 0 <= i < j < |rows| && SameKey(rows[i], rows[j]) ==> !Singleton(rows[i].body.kind)
  }

  ghost predicate SeenKeys<P>(rows: seq<Row<P>>, seen: set<(string, Kind)>) {
    && (forall i :: 0 <= i < |rows| ==> rows[i].Event? && (rows[i].body.cycle, rows[i].body.kind) in seen)
    && (forall k :: k in seen ==> exists i :: 0 <= i < |rows| && rows[i].Event? && k == (rows[i].body.cycle, rows[i].body.kind))
  }

  lemma {:induction false} SeenAre<P>(rows: seq<Row<P>>)
    requires Seen(rows).Ok?
    ensures SeenKeys(rows, Seen(rows).value)
  {
    if rows != [] {
      var init, last := rows[..|rows| - 1], rows[|rows| - 1];
      SeenAre(init);
      var before, seen := Seen(init).value, Seen(rows).value;
      forall i | 0 <= i < |rows| ensures rows[i].Event? && (rows[i].body.cycle, rows[i].body.kind) in seen {
        if i < |init| {
          assert init[i] == rows[i];
        }
      }
      forall k | k in seen ensures exists i :: 0 <= i < |rows| && rows[i].Event? && k == (rows[i].body.cycle, rows[i].body.kind) {
        if k in before {
          var i :| 0 <= i < |init| && init[i].Event? && k == (init[i].body.cycle, init[i].body.kind);
          assert rows[i] == init[i];
        } else {
          assert rows[|rows| - 1] == last;
        }
      }
    }
  }

  /** The first loop accepts exactly identified rows without a repeated singleton. */
  lemma {:induction false} AdmittedIff<P>(rows: seq<Row<P>>)
    ensures Seen(rows).Ok? <==> Admissible(rows)
  {
    if rows != [] {
      var init := rows[..|rows| - 1];
      AdmittedIff(init);
      if Seen(init).Ok? {
        SeenAre(init);
        AdmitLast(rows, Seen(init).value);
      } else {
        PrefixAdmissible(rows);
      }
    }
  }

  lemma PrefixAdmissible<P>(rows: seq<Row<P>>)
    requires rows != [] && !Admissible(rows[..|rows| - 1])
    ensures !Admissible(rows)
  {
    var init := rows[..|rows| - 1];
    assert forall i :: 0 <= i < |init| ==> init[i] == rows[i];
  }

  lemma AdmitLast<P>(rows: seq<Row<P>>, seen: set<(string, Kind)>)
    requires rows != [] && Admissible(rows[..|rows| - 1]) && SeenKeys(rows[..|rows| - 1], seen)
    ensures AdmitError(rows[|rows| - 1], seen).None? <==> Admissible(rows)
  {
    var n := |rows| - 1;
    var init, last := rows[..n], rows[n];
    assert forall i :: 0 <= i < n ==> init[i] == rows[i];
    if Identified(last) && Singleton(last.body.kind) {
      if (last.body.cycle, last.body.kind) in seen {
        var i :| 0 <= i < n && init[i].Event? && (last.body.cycle, last.body.kind) == (init[i].body.cycle, init[i].body.kind);
        assert rows[i].Event? && SameKey(rows[i], rows[n]) && Singleton(rows[i].body.kind);
      } else {
        forall i | 0 <= i < n ensures rows[i].Event? && !SameKey(rows[i], last) {
          assert init[i].Event?;
        }
      }
    }
  }

  lemma AdmissibleReordered<P>(rows: seq<Row<P>>, other: seq<Row<P>>)
    requires multiset(rows) == multiset(other) && Admissible(rows)
    ensures Admissible(other)
  {
    SameElements(rows, other);
    forall i | 0 <= i < |other| ensures Identified(other[i]) {
      assert other[i] in rows;
    }
    forall i, j | 0 <= i < j < |other| && SameKey(other[i], other[j]) ensures !Singleton(other[i].body.kind) {
      var i', j' := TwoPositions(rows, other, i, j);
      if j' < i' {
        assert SameKey(rows[j'], rows[i']);
      } else {
        assert SameKey(rows[i'], rows[j']);
      }
    }
  }

  lemma RowsOfReordered<P>(rows: seq<Row<P>>, other: seq<Row<P>>, cycle: string)
    requires multiset(rows) == multiset(other)
    ensures multiset(RowsOf(rows, cycle)) == multiset(RowsOf(other, cycle))
  {
    var a, b := multiset(RowsOf(rows, cycle)), multiset(RowsOf(other, cycle));
    forall x ensures a[x] == b[x] {
      RowsOfCount(rows, cycle, x);
      RowsOfCount(other, cycle, x);
    }
    EqualCounts(a, b);
  }

  ghost predicate KeysDistinct<P>(rows: seq<Row<P>>) {
    forall c :: DistinctKeys(RowsOf(rows, c), EventBefore)
  }

  /** Reordering an accepted stream whose cycles have distinct keys is accepted with the same result. */
  lemma StreamOrderIrrelevant<P(!new)>(digest: Digest<P>, rows: seq<Row<P>>, other: seq<Row<P>>)
    requires multiset(rows) == multiset(other) && KeysDistinct(rows) && Replay(digest, rows).Ok?
    ensures Replay(digest, other) == Replay(digest, rows)
  {
    AdmittedIff(rows);
    AdmittedIff(other);
    AdmissibleReordered(rows, other);
    var f, g := ByCycle(digest, rows), ByCycle(digest, other);
    forall c ensures f(c) == g(c) && (c in CyclesOf(other) <==> c in CyclesOf(rows)) {
      RowsOfReordered(rows, other, c);
      assert DistinctKeys(RowsOf(rows, c), EventBefore);
      ProjectionIgnoresOrder(digest, c, RowsOf(rows, c), RowsOf(other, c));
      CyclesAgree(rows, other, c);
    }
    CollectAgrees(f, g, CyclesOf(rows), CyclesOf(other));
  }

  lemma CyclesAgree<P>(rows: seq<Row<P>>, other: seq<Row<P>>, c: string)
    requires multiset(RowsOf(rows, c)) == multiset(RowsOf(other, c))
    ensures c in CyclesOf(other) <==> c in CyclesOf(rows)
  {
    SameElements(RowsOf(rows, c), RowsOf(other, c));
    CyclesAre(rows, c);
    CyclesAre(other, c);
  }

  lemma CollectAgrees<V>(f: string -> Result<V, Error>, g: string -> Result<V, Error>, cycles: seq<string>, others: seq<string>)
    requires Collect(f, cycles).Ok?
    requires forall c :: f(c) == g(c) && (c in others <==> c in cycles)
    ensures Collect(g, others) == Collect(f, cycles)
  {
    Collected(f, cycles);
    Collected(g, others);
    SameMap(Collect(f, cycles).value, Collect(g, others).value);
  }

  // ---------------------------------------------------------------- the sequence guard

  /** The documented order: events follow the positions of `EVENTS`. */
  ghost predicate InSequence(kinds: seq<Kind>) {
    forall i, j :: 0 <= i < j < |kinds| ==> KindIndex(kinds[i]) <= KindIndex(kinds[j])
  }

  lemma PositionsSortedIff(kinds: seq<Kind>)
    ensures Positions(kinds) == SortBy(Positions(kinds), NotLarger) <==> InSequence(kinds)
  {
    var p := Positions(kinds);
    SortBySorted(p, NotLarger);
    if p == SortBy(p, NotLarger) {
      forall i, j | 0 <= i < j < |kinds| ensures KindIndex(kinds[i]) <= KindIndex(kinds[j]) {
        assert NotLarger(p[i], p[j]);
      }
    }
    if InSequence(kinds) {
      SortedUnique(p, SortBy(p, NotLarger), NotLarger);
    }
  }

  /** The guard passes exactly the sequences that are in order or never descend alphabetically. */
  lemma GuardIff(kinds: seq<Kind>)
    ensures OrderAccepted(kinds) <==> InSequence(kinds) || !AnyDescent(kinds)
  {
    PositionsSortedIff(kinds);
  }

  /** The event types in alphabetical order of their names. */
  const ALPHABETICAL: seq<Kind> := [D0Record, D0Card, D1Record, D1Gate, Settlement, Freeze]

  function Rank(kind: Kind): nat {
    match kind
    case D0Record => 0
    case D0Card => 1
    case D1Record => 2
    case D1Gate => 3
    case Settlement => 4
    case _ => 5
  }

  /** Where the names of neighbouring ranks first differ. */
  const FIRST_DIFFERENCE: seq<nat> := [3, 1, 3, 0, 0]

  lemma NextAscends(i: nat)
    requires i < 5
    ensures TextLess(Name(ALPHABETICAL[i]), Name(ALPHABETICAL[i + 1]))
  {
    var a, b, n := Name(ALPHABETICAL[i]), Name(ALPHABETICAL[i + 1]), FIRST_DIFFERENCE[i];
    assert a[..n] == b[..n];
    DiffersAt(a, b, n);
  }

  lemma {:induction false} RanksAscend(i: nat, j: nat)
    requires i < j < 6
    ensures TextLess(Name(ALPHABETICAL[i]), Name(ALPHABETICAL[j]))
    decreases j - i
  {
    NextAscends(i);
    if i + 1 < j {
      RanksAscend(i + 1, j);
      LessTransitive(Name(ALPHABETICAL[i]), Name(ALPHABETICAL[i + 1]), Name(ALPHABETICAL[j]));
    }
  }

  /** Names compare as ranks do. */
  lemma RankDecides(a: Kind, b: Kind)
    requires !a.Unknown? && !b.Unknown?
    ensures TextLess(Name(a), Name(b)) <==> Rank(a) < Rank(b)
  {
    assert ALPHABETICAL[Rank(a)] == a && ALPHABETICAL[Rank(b)] == b;
    if Rank(a) < Rank(b) {
      RanksAscend(Rank(a), Rank(b));
    } else if Rank(b) < Rank(a) {
      RanksAscend(Rank(b), Rank(a));
    }
    Trichotomy(Name(a), Name(b));
  }

  ghost predicate Known(kinds: seq<Kind>) {
    forall i :: 0 <= i < |kinds| ==> !kinds[i].Unknown?
  }

  lemma {:induction false} NoDescentRanks(kinds: seq<Kind>, i: nat, j: nat)
    requires Known(kinds) && !AnyDescent(kinds) && i <= j < |kinds|
    ensures Rank(kinds[i]) <= Rank(kinds[j])
    decreases j
  {
    if i < j {
      NoDescentRanks(kinds, i, j - 1);
      assert !Descends(kinds, j);
      RankDecides(kinds[j], kinds[j - 1]);
    }
  }

  /** Pairs that are alphabetically ascending and yet out of sequence: an execution record before its card
      or gate, and a freeze after anything else. */
  predicate Misplaced(x: Kind, y: Kind) {
    (x == D0Record && y == D0Card) || (x == D1Record && y == D1Gate) || (x != Freeze && y == Freeze)
  }

  lemma MisplacedIff(x: Kind, y: Kind)
    requires !x.Unknown? && !y.Unknown? && Rank(x) <= Rank(y)
    ensures KindIndex(x) > KindIndex(y) <==> Misplaced(x, y)
  {
  }

  ghost predicate AnyMisplaced(kinds: seq<Kind>) {
    exists i, j :: 0 <= i < j < |kinds| && Misplaced(kinds[i], kinds[j])
  }

  /** A cycle that passed the guard is in the documented order exactly when no execution record precedes
      its card or gate and no freeze follows another event. */
  lemma GuardGapIff(kinds: seq<Kind>)
    requires Known(kinds) && OrderAccepted(kinds)
    ensures InSequence(kinds) <==> !AnyMisplaced(kinds)
  {
    GuardIff(kinds);
    if !InSequence(kinds) {
      var i, j :| 0 <= i < j < |kinds| && KindIndex(kinds[i]) > KindIndex(kinds[j]);
      NoDescentRanks(kinds, i, j);
      MisplacedIff(kinds[i], kinds[j]);
      assert Misplaced(kinds[i], kinds[j]);
    } else {
      forall i, j | 0 <= i < j < |kinds| ensures !Misplaced(kinds[i], kinds[j]) {
        assert KindIndex(kinds[i]) <= KindIndex(kinds[j]) && !kinds[i].Unknown?;
      }
    }
  }

  /** Every accepted replay: a cycle is reported in the documented order exactly when nothing is misplaced in
      its rows sorted by time, which a caller can see before the replay. */
  lemma ReplayedSequence<P>(digest: Digest<P>, rows: seq<Row<P>>, cycle: string)
    requires Reported(digest, rows, cycle)
    ensures InSequence(Replay(digest, rows).value[cycle].kinds) <==> !AnyMisplaced(Kinds(Ordered(rows, cycle)))
  {
    ReplayEntry(digest, rows, cycle);
    AdmittedIff(rows);
    var ordered := Ordered(rows, cycle);
    forall i | 0 <= i < |ordered| ensures !KindOf(ordered[i]).Unknown? {
      OrderedMembers(rows, cycle, i);
      var k :| 0 <= k < |rows| && rows[k] == ordered[i];
      assert Identified(rows[k]);
    }
    GuardGapIff(Kinds(ordered));
  }

  // ---------------------------------------------------------------- built events

  ghost predicate Built<P>(digest: Digest<P>, rows: seq<Row<P>>) {
    forall i :: 0 <= i < |rows| ==> rows[i].Event? && BuildEvent(digest, rows[i].body) == Some(rows[i])
  }

  lemma {:induction false} BuiltAudits<P>(digest: Digest<P>, rows: seq<Row<P>>)
    requires Built(digest, rows)
    ensures Audit(digest, rows).Ok?
  {
    if rows != [] {
      BuiltAudits(digest, rows[..|rows| - 1]);
      assert BuildEvent(digest, rows[|rows| - 1].body) == Some(rows[|rows| - 1]);
    }
  }

  /** Events made by the builder never fail a hash check: their stream replays exactly when its rows are
      admissible and every cycle is in order or never descends alphabetically. */
  lemma BuiltReplaysIff<P>(digest: Digest<P>, rows: seq<Row<P>>)
    requires Built(digest, rows)
    ensures Replay(digest, rows).Ok?
            <==> Admissible(rows)
                 && forall c :: c in CyclesOf(rows) ==> InSequence(Kinds(Ordered(rows, c))) || !AnyDescent(Kinds(Ordered(rows, c)))
  {
    AdmittedIff(rows);
    Collected(ByCycle(digest, rows), CyclesOf(rows));
    forall c ensures ByCycle(digest, rows)(c).Ok?
                     <==> InSequence(Kinds(Ordered(rows, c))) || !AnyDescent(Kinds(Ordered(rows, c)))
    {
      OrderedBuilt(digest, rows, c);
      BuiltAudits(digest, Ordered(rows, c));
      GuardIff(Kinds(Ordered(rows, c)));
    }
  }

  lemma OrderedBuilt<P>(digest: Digest<P>, rows: seq<Row<P>>, cycle: string)
    requires Built(digest, rows)
    ensures Built(digest, Ordered(rows, cycle))
  {
    var ordered := Ordered(rows, cycle);
    forall i | 0 <= i < |ordered| ensures ordered[i].Event? && BuildEvent(digest, ordered[i].body) == Some(ordered[i]) {
      OrderedMembers(rows, cycle, i);
      var k :| 0 <= k < |rows| && rows[k] == ordered[i];
    }
  }

  /** An execution record dated before its card is replayed without complaint, against the documented order. */
  lemma RecordBeforeCardAccepted<P>(digest: Digest<P>, rest: P)
    ensures var record, card := Body("c", D0Record, "1", rest), Body("c", D0Card, "2", rest);
            && BuildEvent(digest, record).Some? && BuildEvent(digest, card).Some?
            && var rows := [BuildEvent(digest, record).value, BuildEvent(digest, card).value];
               Replay(digest, rows).Ok? && !InSequence(Kinds(Ordered(rows, "c")))
  {
    var record, card := Body("c", D0Record, "1", rest), Body("c", D0Card, "2", rest);
    var x, y := BuildEvent(digest, record).value, BuildEvent(digest, card).value;
    hide Admissible, Built, Replay, Kinds, InSequence, AnyDescent, Ordered, CyclesOf;
    GapOrdered(x, y);
    GapKinds(x, y);
    GapAdmissible(digest, x, y);
    BuiltReplaysIff(digest, [x, y]);
    GapCycles(x, y);
  }

  lemma GapAdmissible<P>(digest: Digest<P>, x: Row<P>, y: Row<P>)
    requires x.Event? && y.Event? && Identified(x) && Identified(y) && !SameKey(x, y)
    requires BuildEvent(digest, x.body) == Some(x) && BuildEvent(digest, y.body) == Some(y)
    ensures Admissible([x, y]) && Built(digest, [x, y])
  {
  }

  lemma GapOrdered<P>(x: Row<P>, y: Row<P>)
    requires x.Event? && y.Event? && x.body.cycle == y.body.cycle == "c" && x.body.at == "1" && y.body.at == "2"
    ensures Ordered([x, y], "c") == [x, y]
  {
    assert [x, y][..1] == [x] && [x][..0] == [];
    assert RowsOf([x], "c") == [x];
    assert RowsOf([x, y], "c") == [x, y];
    DiffersAt("1", "2", 0);
    assert [x, y][1..] == [y] && [y][1..] == [];
    assert SortBy([y], EventBefore) == [y];
  }

  lemma GapKinds<P>(x: Row<P>, y: Row<P>)
    requires x.Event? && y.Event? && x.body.kind == D0Record && y.body.kind == D0Card
    ensures !AnyDescent(Kinds([x, y])) && !InSequence(Kinds([x, y]))
  {
    var kinds := Kinds([x, y]);
    assert kinds == [D0Record, D0Card];
    RankDecides(D0Card, D0Record);
    assert KindIndex(kinds[0]) > KindIndex(kinds[1]);
  }

  lemma GapCycles<P>(x: Row<P>, y: Row<P>)
    requires x.Event? && y.Event? && x.body.cycle == y.body.cycle == "c"
    ensures CyclesOf([x, y]) == ["c"]
  {
    assert [x, y][..1] == [x] && [x][..0] == [];
    assert CyclesOf([x]) == ["c"];
  }
}
