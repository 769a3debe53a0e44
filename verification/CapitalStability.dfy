/** How a validation reacts when its inputs change: withdrawing a fee row, and reordering the
    source's lists, the items or the legs. */
module CapitalStability {
  import opened Common
  import opened Sorting
  import opened CapitalModel
  import opened CapitalValidation

  // ---------------------------------------------------------------- fee rows

  ghost predicate AtMostOneFee(rows: seq<FeeRow>) {
    forall i, j :: 0 <= i < j < |rows| ==> !(rows[i].asset == rows[j].asset && rows[i].side == rows[j].side)
  }

  lemma {:induction false} FeesForMembers(rows: seq<FeeRow>, a: Asset, side: Side)
    ensures forall r :: r in FeesFor(rows, a, side) <==> r in rows && r.asset == a && r.side == side
  {
    if rows != [] {
      FeesForMembers(rows[1..], a, side);
      assert rows == [rows[0]] + rows[1..];
    }
  }

  lemma {:induction false} NoFees(rows: seq<FeeRow>, a: Asset, side: Side)
    requires forall i :: 0 <= i < |rows| ==> !(rows[i].asset == a && rows[i].side == side)
    ensures FeesFor(rows, a, side) == []
  {
    if rows != [] {
      NoFees(rows[1..], a, side);
    }
  }

  lemma {:induction false} FeesForAtMostOne(rows: seq<FeeRow>, a: Asset, side: Side)
    requires AtMostOneFee(rows)
    ensures |FeesFor(rows, a, side)| <= 1
  {
    if rows != [] {
      if rows[0].asset == a && rows[0].side == side {
        forall i | 0 <= i < |rows[1..]| ensures !(rows[1..][i].asset == a && rows[1..][i].side == side) {
          assert rows[1..][i] == rows[i + 1];
        }
        NoFees(rows[1..], a, side);
      } else {
        FeesForAtMostOne(rows[1..], a, side);
      }
    }
  }

  lemma SameFees(rows: seq<FeeRow>, rows': seq<FeeRow>, a: Asset, side: Side)
    requires AtMostOneFee(rows) && AtMostOneFee(rows')
    requires forall r: FeeRow :: r.asset == a && r.side == side ==> (r in rows <==> r in rows')
    ensures FeesFor(rows, a, side) == FeesFor(rows', a, side)
  {
    FeesForMembers(rows, a, side);
    FeesForMembers(rows', a, side);
    FeesForAtMostOne(rows, a, side);
    FeesForAtMostOne(rows', a, side);
    var x, y := FeesFor(rows, a, side), FeesFor(rows', a, side);
    assert forall r :: r in x <==> r in y;
    if x != [] { assert x[0] in y; }
    if y != [] { assert y[0] in x; }
  }

  lemma AtMostOneFeePermutes(rows: seq<FeeRow>, rows': seq<FeeRow>)
    requires AtMostOneFee(rows) && multiset(rows) == multiset(rows')
    ensures AtMostOneFee(rows')
  {
    forall i, j | 0 <= i < j < |rows'| ensures !(rows'[i].asset == rows'[j].asset && rows'[i].side == rows'[j].side) {
      var i', j' := TwoPositions(rows, rows', i, j);
      if i' < j' {
        assert !(rows[i'].asset == rows[j'].asset && rows[i'].side == rows[j'].side);
      } else {
        assert !(rows[j'].asset == rows[i'].asset && rows[j'].side == rows[i'].side);
      }
    }
  }

  function Without<T>(s: seq<T>, j: nat): seq<T>
    requires j < |s|
  {
    s[..j] + s[j + 1..]
  }

  lemma WithoutFee(rows: seq<FeeRow>, j: nat)
    requires j < |rows| && AtMostOneFee(rows)
    ensures AtMostOneFee(Without(rows, j))
    ensures forall r :: r in Without(rows, j) <==> r in rows && !(r.asset == rows[j].asset && r.side == rows[j].side)
  {
    var rest := Without(rows, j);
    forall r ensures r in rest <==> r in rows && !(r.asset == rows[j].asset && r.side == rows[j].side) {
      if r in rest {
        var i :| 0 <= i < |rest| && rest[i] == r;
        var i' := if i < j then i else i + 1;
        assert rows[i'] == r;
      }
      if r in rows && !(r.asset == rows[j].asset && r.side == rows[j].side) {
        var i :| 0 <= i < |rows| && rows[i] == r;
        assert rest[if i < j then i else i - 1] == r;
      }
    }
  }

  // ---------------------------------------------------------------- withdrawing a fee row

  /** `s'` is `s` without the fee of (a, side). */
  ghost predicate FeeWithdrawn(s: Source, s': Source, a: Asset, side: Side) {
    && s' == s.(fees := s'.fees) && FeesFor(s'.fees, a, side) == []
    && forall b, d :: (b != a || d != side) ==> FeesFor(s'.fees, b, d) == FeesFor(s.fees, b, d)
  }

  /** The effect of the withdrawal on one validated leg. */
  ghost predicate LegEffect(o: LegOut, o': LegOut, a: Asset, side: Side) {
    && o'.leg == o.leg
    && if o.leg.asset != a || o.leg.action != side then o' == o
       else if side == BUY then o'.state == Blocked && o'.spend.None? && o'.proceeds == o.proceeds
       else o'.state == o.state && o'.proceeds.None? && o'.spend == o.spend
  }

  /** Positions and ids are used alike; cash can only be freed. */
  ghost predicate NoMoreUsed(u: Used, u': Used) {
    u'.positions == u.positions && u'.ids == u.ids && u'.cash <= u.cash
  }

  lemma SameFacts(k: Ranks, s: Source, s': Source, at: int)
    requires s' == s.(fees := s'.fees)
    ensures SpendingCap(k, s', at) == SpendingCap(k, s, at)
  {
    assert Qualified(s', at) == Qualified(s, at) && ConfirmedIntent(s', at) == ConfirmedIntent(s, at);
  }

  lemma SamePosition(k: Ranks, s: Source, s': Source, at: int, b: Asset, selling: bool)
    requires s' == s.(fees := s'.fees)
    ensures PositionAvailable(k, s', b, at, selling) == PositionAvailable(k, s, b, at, selling)
  {
  }

  /** `c'` loses at most its fee, and does lose it when `affected`. */
  ghost predicate ChecksLoseFee(c: Checks, c': Checks, affected: bool) {
    c' == (if affected then c.(fee := Err(FeeUpperBoundUnknown)) else c)
  }

  lemma BuyWithdrawn(leg: Leg, c: Checks, c': Checks, cap: Result<Cap, Reason>, u: Used, u': Used, a: Asset, side: Side)
    requires leg.action == BUY && NoMoreUsed(u, u') && ChecksLoseFee(c, c', leg.asset == a && side == BUY)
    requires (c.price.Some? ==> c.price.value > 0.0) && (c.quantity.Ok? ==> c.quantity.value > 0.0) && (c.fee.Ok? ==> c.fee.value >= 0.0)
    ensures var (o, w) := BuyLeg(leg, c, cap, u);
            var (o', w') := BuyLeg(leg, c', cap, u');
            LegEffect(o, o', a, side) && NoMoreUsed(w, w')
  {
    if c.quantity.Ok? && c.price.Some? && c.fee.Ok? {
      assert c.quantity.value * c.price.value > 0.0;
    }
  }

  lemma SellWithdrawn(leg: Leg, c: Checks, c': Checks, available: Result<real, Reason>, u: Used, u': Used, a: Asset, side: Side)
    requires leg.action == SELL && NoMoreUsed(u, u') && ChecksLoseFee(c, c', leg.asset == a && side == SELL)
    requires SellLeg(leg, c, available, u).Ok?
    ensures SellLeg(leg, c', available, u').Ok?
    ensures var (o, w) := SellLeg(leg, c, available, u).value;
            var (o', w') := SellLeg(leg, c', available, u').value;
            LegEffect(o, o', a, side) && NoMoreUsed(w, w')
  {
  }

  lemma LegWithdrawn(k: Ranks, s: Source, s': Source, cap: Result<Cap, Reason>, at: int, blocked: bool, leg: Leg,
                     u: Used, u': Used, a: Asset, side: Side)
    requires FeeWithdrawn(s, s', a, side) && NoMoreUsed(u, u') && EvalLeg(k, s, cap, at, blocked, leg, u).Ok?
    ensures EvalLeg(k, s', cap, at, blocked, leg, u').Ok?
    ensures var (o, w) := EvalLeg(k, s, cap, at, blocked, leg, u).value;
            var (o', w') := EvalLeg(k, s', cap, at, blocked, leg, u').value;
            LegEffect(o, o', a, side) && NoMoreUsed(w, w')
  {
    assert StepMismatch(s', leg, at) == StepMismatch(s, leg, at);
    var price := PriceOf(leg).value;
    var u1, u1' := u.(ids := u.ids + {leg.id}), u'.(ids := u'.ids + {leg.id});
    var c := Checks(QuantityOf(s, leg, at), Fee(s, leg, at), price, blocked);
    var c' := Checks(QuantityOf(s', leg, at), Fee(s', leg, at), price, blocked);
    ChecksWithdrawn(s, s', leg, at, a, side);
    if leg.action == BUY {
      BuyWithdrawn(leg, c, c', cap, u1, u1', a, side);
    } else {
      SamePosition(k, s, s', at, leg.asset, true);
      SellWithdrawn(leg, c, c', PositionAvailable(k, s, leg.asset, at, true), u1, u1', a, side);
    }
  }

  lemma ChecksWithdrawn(s: Source, s': Source, leg: Leg, at: int, a: Asset, side: Side)
    requires FeeWithdrawn(s, s', a, side)
    ensures QuantityOf(s', leg, at) == QuantityOf(s, leg, at)
    ensures Fee(s', leg, at) == if leg.asset == a && leg.action == side then Err(FeeUpperBoundUnknown) else Fee(s, leg, at)
  {
  }

  ghost predicate LegsEffect(outs: seq<LegOut>, outs': seq<LegOut>, a: Asset, side: Side) {
    |outs'| == |outs| && forall i :: 0 <= i < |outs| ==> LegEffect(outs[i], outs'[i], a, side)
  }

  lemma {:induction false} LegsWithdrawn(k: Ranks, s: Source, s': Source, cap: Result<Cap, Reason>, at: int, blocked: bool,
                                         legs: seq<Leg>, u: Used, u': Used, a: Asset, side: Side)
    requires FeeWithdrawn(s, s', a, side) && NoMoreUsed(u, u') && EvalLegs(k, s, cap, at, blocked, legs, u).Ok?
    ensures EvalLegs(k, s', cap, at, blocked, legs, u').Ok?
    ensures var (outs, w) := EvalLegs(k, s, cap, at, blocked, legs, u).value;
            var (outs', w') := EvalLegs(k, s', cap, at, blocked, legs, u').value;
            LegsEffect(outs, outs', a, side) && NoMoreUsed(w, w')
  {
    if legs != [] {
      var init, last := legs[..|legs| - 1], legs[|legs| - 1];
      LegsWithdrawn(k, s, s', cap, at, blocked, init, u, u', a, side);
      var w := EvalLegs(k, s, cap, at, blocked, init, u).value.1;
      var w' := EvalLegs(k, s', cap, at, blocked, init, u').value.1;
      LegWithdrawn(k, s, s', cap, at, blocked, last, w, w', a, side);
    }
  }

  /** The withdrawn row is the only one that can lose a reference. */
  ghost predicate OtherRefsKept(s: Source, s': Source, lost: Ref) {
    && s' == s.(fees := s'.fees)
    && (forall r :: r in s'.fees ==> r in s.fees)
    && (forall r :: r in s.fees && r.clock.ref != lost ==> r in s'.fees)
  }

  lemma {:induction false} StaleRefsKept(s: Source, s': Source, lost: Ref, refs: seq<Ref>, at: int)
    requires OtherRefsKept(s, s', lost) && lost !in refs
    ensures StaleRefs(s', refs, at) == StaleRefs(s, refs, at)
  {
    if refs != [] {
      StaleRefsKept(s, s', lost, refs[..|refs| - 1], at);
      assert refs[|refs| - 1] in refs;
      assert RefFresh(s', refs[|refs| - 1], at) == RefFresh(s, refs[|refs| - 1], at);
    }
  }

  lemma EvidenceKept(s: Source, s': Source, lost: Ref, item: Item)
    requires OtherRefsKept(s, s', lost) && lost !in item.evidence
    ensures EvidenceError(s', item) == EvidenceError(s, item)
  {
    forall ref | ref in item.evidence ensures ref in KnownRefs(s') <==> ref in KnownRefs(s) {
      if ref in KnownRefs(s) && ref != BRIDGE && ref != POSTURE && !exists r :: r in s.instruments && r.clock.ref == ref {
        var r :| r in s.fees && r.clock.ref == ref;
        assert r in s'.fees;
      }
    }
  }

  lemma ActionKept(k: Ranks, s: Source, s': Source, scope: Scope, item: Item, blocked: bool, at: int)
    requires s' == s.(fees := s'.fees)
    ensures ActionError(k, s', scope, item, blocked, at) == ActionError(k, s, scope, item, blocked, at)
  {
    SamePosition(k, s, s', at, item.asset, false);
  }

  lemma ItemKept(k: Ranks, s: Source, s': Source, lost: Ref, item: Item, at: int)
    requires OtherRefsKept(s, s', lost) && lost !in item.evidence
    ensures ItemError(k, s', at, item) == ItemError(k, s, at, item)
    ensures BlockersOf(s', item, at) == BlockersOf(s, item, at)
  {
    StaleRefsKept(s, s', lost, item.evidence, at);
    EvidenceKept(s, s', lost, item);
    assert StepFor(s', item.asset, at) == StepFor(s, item.asset, at);
    var scope := ScopeOf(s.task.scopes, item.scope);
    if scope.Some? {
      ActionKept(k, s, s', scope.value, item, BlockersOf(s, item, at) != [], at);
    }
  }

  ghost predicate SameStates(outs: seq<LegOut>, outs': seq<LegOut>) {
    |outs'| == |outs| && forall i :: 0 <= i < |outs| ==> outs'[i].state == outs[i].state
  }

  lemma StateFromLegs(item: Item, blockers: seq<Blocker>, outs: seq<LegOut>, outs': seq<LegOut>)
    ensures SameStates(outs, outs') ==> ItemStateOf(item, blockers, outs') == ItemStateOf(item, blockers, outs)
  {
  }

  /** An item keeps everything but the affected legs and, through them, its own state. */
  ghost predicate ItemEffect(o: ItemOut, o': ItemOut, a: Asset, side: Side) {
    && o'.scope == o.scope && o'.asset == o.asset && o'.action == o.action && o'.blockers == o.blockers
    && LegsEffect(o.legs, o'.legs, a, side)
    && (SameStates(o.legs, o'.legs) ==> o'.state == o.state)
  }

  lemma ItemWithdrawn(k: Ranks, s: Source, s': Source, cap: Result<Cap, Reason>, at: int, item: Item, u: Used, u': Used,
                      a: Asset, side: Side, lost: Ref)
    requires FeeWithdrawn(s, s', a, side) && OtherRefsKept(s, s', lost) && lost !in item.evidence
    requires NoMoreUsed(u, u') && EvalItem(k, s, cap, at, item, u).Ok?
    ensures EvalItem(k, s', cap, at, item, u').Ok?
    ensures var (o, w) := EvalItem(k, s, cap, at, item, u).value;
            var (o', w') := EvalItem(k, s', cap, at, item, u').value;
            ItemEffect(o, o', a, side) && NoMoreUsed(w, w')
  {
    ItemKept(k, s, s', lost, item, at);
    var blockers, legs := BlockersOf(s, item, at), SortedLegs(item);
    LegsWithdrawn(k, s, s', cap, at, blockers != [], legs, u, u', a, side);
    StateFromLegs(item, blockers, EvalLegs(k, s, cap, at, blockers != [], legs, u).value.0,
                  EvalLegs(k, s', cap, at, blockers != [], legs, u').value.0);
  }

  ghost predicate ItemsEffect(outs: seq<ItemOut>, outs': seq<ItemOut>, a: Asset, side: Side) {
    |outs'| == |outs| && forall i :: 0 <= i < |outs| ==> ItemEffect(outs[i], outs'[i], a, side)
  }

  lemma {:induction false} ItemsWithdrawn(k: Ranks, s: Source, s': Source, cap: Result<Cap, Reason>, at: int, items: seq<Item>,
                                          a: Asset, side: Side, lost: Ref)
    requires FeeWithdrawn(s, s', a, side) && OtherRefsKept(s, s', lost)
    requires (forall i :: i in items ==> lost !in i.evidence) && EvalItems(k, s, cap, at, items).Ok?
    ensures EvalItems(k, s', cap, at, items).Ok?
    ensures var (outs, w) := EvalItems(k, s, cap, at, items).value;
            var (outs', w') := EvalItems(k, s', cap, at, items).value;
            ItemsEffect(outs, outs', a, side) && NoMoreUsed(w, w')
  {
    if items != [] {
      var init, last := items[..|items| - 1], items[|items| - 1];
      ItemsWithdrawn(k, s, s', cap, at, init, a, side, lost);
      var w := EvalItems(k, s, cap, at, init).value.1;
      var w' := EvalItems(k, s', cap, at, init).value.1;
      assert last in items;
      ItemWithdrawn(k, s, s', cap, at, last, w, w', a, side, lost);
    }
  }

  lemma CanonicalWithdrawn(k: Ranks, source: Source, j: nat)
    requires j < |source.fees| && AtMostOneFee(source.fees)
    ensures var row, rest := source.fees[j], source.(fees := Without(source.fees, j));
            && FeeWithdrawn(Canonical(k, source), Canonical(k, rest), row.asset, row.side)
            && OtherRefsKept(Canonical(k, source), Canonical(k, rest), row.clock.ref)
  {
    var row, rest := source.fees[j], Without(source.fees, j);
    var sorted, sorted' := k.SortedFees(source.fees), k.SortedFees(rest);
    WithoutFee(source.fees, j);
    SameElements(source.fees, sorted);
    SameElements(rest, sorted');
    AtMostOneFeePermutes(source.fees, sorted);
    AtMostOneFeePermutes(rest, sorted');
    FeesForMembers(sorted', row.asset, row.side);
    if FeesFor(sorted', row.asset, row.side) != [] {
      assert FeesFor(sorted', row.asset, row.side)[0] in sorted';
    }
    forall b, d | b != row.asset || d != row.side ensures FeesFor(sorted', b, d) == FeesFor(sorted, b, d) {
      SameFees(sorted', sorted, b, d);
    }
    forall r | r in sorted && r.clock.ref != row.clock.ref ensures r in sorted' {
      OnlyRow(source.fees, j, r);
    }
  }

  lemma OnlyRow(rows: seq<FeeRow>, j: nat, r: FeeRow)
    requires j < |rows| && AtMostOneFee(rows) && r in rows && r != rows[j]
    ensures !(r.asset == rows[j].asset && r.side == rows[j].side)
  {
    var i :| 0 <= i < |rows| && rows[i] == r;
  }

  lemma AllocationWithdrawn(k: Ranks, r: Recommendation, s: Source, s': Source, at: int, a: Asset, side: Side, lost: Ref)
    requires FeeWithdrawn(s, s', a, side) && OtherRefsKept(s, s', lost) && Allocate(k, r, s, at).Ok?
    requires forall i :: i in r.items ==> lost !in i.evidence
    ensures var v, v' := Allocate(k, r, s, at), Allocate(k, r, s', at);
            && v'.Ok? && v'.value.cap == v.value.cap && v'.value.spend <= v.value.spend
            && ItemsEffect(v.value.items, v'.value.items, a, side)
  {
    SameFacts(k, s, s', at);
    var items := SortBy(r.items, ItemOrder);
    SameElements(r.items, items);
    ItemsWithdrawn(k, s, s', SpendingCap(k, s, at), at, items, a, side, lost);
  }

  /** With at most one fee row per asset and side, withdrawing a row no item cites never rejects an
      accepted portfolio; it blocks the BUY legs of that asset, takes the proceeds bound of its SELL
      legs, and touches no other leg. */
  lemma FeeWithdrawal(k: Ranks, r: Recommendation, source: Source, at: int, j: nat)
    requires j < |source.fees| && AtMostOneFee(source.fees) && Validate(k, r, source, at).Ok?
    requires forall i :: i in r.items ==> source.fees[j].clock.ref !in i.evidence
    ensures var v, v' := Validate(k, r, source, at), Validate(k, r, source.(fees := Without(source.fees, j)), at);
            && v'.Ok? && v'.value.cap == v.value.cap && v'.value.spend <= v.value.spend
            && ItemsEffect(v.value.items, v'.value.items, source.fees[j].asset, source.fees[j].side)
  {
    var row, rest := source.fees[j], source.(fees := Without(source.fees, j));
    CanonicalWithdrawn(k, source, j);
    AllocationWithdrawn(k, r, Canonical(k, source), Canonical(k, rest), at, row.asset, row.side, row.clock.ref);
  }

  // ---------------------------------------------------------------- reordering the source

  ghost predicate SameOrders(b: Option<Observation>, b': Option<Observation>) {
    if b.None? then b' == None
    else && b'.Some?
         && b'.value == b.value.(body := b.value.body.(holdings := b'.value.body.holdings, orders := b'.value.body.orders))
         && multiset(b'.value.body.holdings) == multiset(b.value.body.holdings)
         && multiset(b'.value.body.orders) == multiset(b.value.body.orders)
  }

  /** `t` lists the instruments, fees, scopes, holdings and open orders of `s` in some other order. */
  ghost predicate Reordered(s: Source, t: Source) {
    && t == s.(broker := t.broker, instruments := t.instruments, fees := t.fees, task := t.task)
    && multiset(t.instruments) == multiset(s.instruments) && multiset(t.fees) == multiset(s.fees)
    && t.task == s.task.(scopes := t.task.scopes) && multiset(t.task.scopes) == multiset(s.task.scopes)
    && SameOrders(s.broker, t.broker)
  }

  lemma DuplicateScopeReordered(a: seq<Scope>, b: seq<Scope>)
    requires multiset(a) == multiset(b) && HasDuplicateScope(b)
    ensures HasDuplicateScope(a)
  {
    var i, j :| 0 <= i < j < |b| && b[i].id == b[j].id;
    var i', j' := TwoPositions(a, b, i, j);
    var low, high := if i' < j' then i' else j', if i' < j' then j' else i';
    assert 0 <= low < high < |a| && a[low].id == a[high].id;
  }

  lemma ScopesReordered(a: seq<Scope>, b: seq<Scope>)
    requires multiset(a) == multiset(b) && !HasDuplicateScope(a)
    ensures SortBy(a, ScopeOrder) == SortBy(b, ScopeOrder)
  {
    forall x, y | x in a && y in a && ScopeOrder(x, y) && ScopeOrder(y, x) ensures x == y {
      var i :| 0 <= i < |a| && a[i] == x;
      var j :| 0 <= j < |a| && a[j] == y;
    }
    SortPermutation(a, b, ScopeOrder);
  }

  lemma BrokerReordered(k: Ranks, b: Observation, b': Observation)
    requires k.Valid() && SameOrders(Some(b), Some(b'))
    ensures k.SortedHoldings(b.body.holdings) == k.SortedHoldings(b'.body.holdings)
    ensures k.SortedOrders(b.body.orders) == k.SortedOrders(b'.body.orders)
  {
    SortPermutation(b.body.holdings, b'.body.holdings, k.holding);
    SortPermutation(b.body.orders, b'.body.orders, k.order);
  }

  /** The digest input of a source does not depend on the order of its lists. */
  lemma SourceHashReordered(k: Ranks, s: Source, t: Source)
    requires k.Valid() && Reordered(s, t) && !HasDuplicateScope(s.task.scopes)
    ensures Canonical(k, s) == Canonical(k, t)
  {
    SortPermutation(s.instruments, t.instruments, k.instrument);
    SortPermutation(s.fees, t.fees, k.fee);
    ScopesReordered(s.task.scopes, t.task.scopes);
    if s.broker.Some? {
      BrokerReordered(k, s.broker.value, t.broker.value);
    }
  }

  /** Reordering a source changes nothing in a validation, accepted or rejected. */
  lemma ValidationReordered(k: Ranks, r: Recommendation, s: Source, t: Source, at: int)
    requires k.Valid() && Reordered(s, t)
    ensures Validate(k, r, s, at) == Validate(k, r, t, at)
  {
    SameElements(s.task.scopes, t.task.scopes);
    if HasDuplicateScope(s.task.scopes) {
      DuplicateScopeReordered(t.task.scopes, s.task.scopes);
    } else {
      if HasDuplicateScope(t.task.scopes) {
        DuplicateScopeReordered(s.task.scopes, t.task.scopes);
      }
      SourceHashReordered(k, s, t);
    }
    assert ValidatedSource(k, s, at) == ValidatedSource(k, t, at);
  }
}
