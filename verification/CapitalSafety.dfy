/** The validation loops and what every accepted portfolio guarantees: cash is never over-committed
    and no position is sold beyond what is confirmed. */
module CapitalSafety {
  import opened Common
  import opened Sorting
  import opened CapitalModel
  import opened CapitalBudgets
  import opened CapitalValidation

  // ---------------------------------------------------------------- the loops

  /** The leg loop of one item. */
  method EvaluateLegs(k: Ranks, s: Source, cap: Result<Cap, Reason>, at: int, blocked: bool, legs: seq<Leg>, start: Used)
    returns (r: Result<(seq<LegOut>, Used), Reason>)
    ensures r == EvalLegs(k, s, cap, at, blocked, legs, start)
  {
    var outs: seq<LegOut>, used := [], start;
    for i := 0 to |legs|
      invariant EvalLegs(k, s, cap, at, blocked, legs[..i], start) == Ok((outs, used))
    {
      assert legs[..i + 1][..i] == legs[..i];
      var leg := EvalLeg(k, s, cap, at, blocked, legs[i], used);
      if leg.Err? {
        LegRejected(k, s, cap, at, blocked, legs, start, i + 1);
        return Err(leg.error);
      }
      outs, used := outs + [leg.value.0], leg.value.1;
    }
    assert legs[..|legs|] == legs;
    r := Ok((outs, used));
  }

  lemma {:induction false} LegRejected(k: Ranks, s: Source, cap: Result<Cap, Reason>, at: int, blocked: bool, legs: seq<Leg>, u: Used, n: nat)
    requires n <= |legs| && EvalLegs(k, s, cap, at, blocked, legs[..n], u).Err?
    ensures EvalLegs(k, s, cap, at, blocked, legs, u) == Err(EvalLegs(k, s, cap, at, blocked, legs[..n], u).error)
    decreases |legs| - n
  {
    if n < |legs| {
      assert legs[..n + 1][..n] == legs[..n];
      LegRejected(k, s, cap, at, blocked, legs, u, n + 1);
    } else {
      assert legs[..n] == legs;
    }
  }

  lemma {:induction false} ItemRejected(k: Ranks, s: Source, cap: Result<Cap, Reason>, at: int, items: seq<Item>, n: nat)
    requires n <= |items| && EvalItems(k, s, cap, at, items[..n]).Err?
    ensures EvalItems(k, s, cap, at, items) == Err(EvalItems(k, s, cap, at, items[..n]).error)
    decreases |items| - n
  {
    if n < |items| {
      assert items[..n + 1][..n] == items[..n];
      ItemRejected(k, s, cap, at, items, n + 1);
    } else {
      assert items[..n] == items;
    }
  }

  /** The body of the item loop. */
  method EvaluateItem(k: Ranks, s: Source, cap: Result<Cap, Reason>, at: int, item: Item, used: Used)
    returns (r: Result<(ItemOut, Used), Reason>)
    ensures r == EvalItem(k, s, cap, at, item, used)
  {
    var e := ItemError(k, s, at, item);
    if e.Some? {
      return Err(e.value);
    }
    var blockers := BlockersOf(s, item, at);
    var legs := EvaluateLegs(k, s, cap, at, blockers != [], SortedLegs(item), used);
    if legs.Err? {
      return Err(legs.error);
    }
    var (outs, used') := legs.value;
    r := Ok((ItemOut(item.scope, item.asset, item.action, blockers, outs, ItemStateOf(item, blockers, outs)), used'));
  }

  /** One more item. */
  lemma ItemsStep(k: Ranks, s: Source, cap: Result<Cap, Reason>, at: int, items: seq<Item>, i: nat, outs: seq<ItemOut>, used: Used)
    requires i < |items| && EvalItems(k, s, cap, at, items[..i]) == Ok((outs, used))
    ensures var r := EvalItem(k, s, cap, at, items[i], used);
            EvalItems(k, s, cap, at, items[..i + 1]) == if r.Err? then Err(r.error) else Ok((outs + [r.value.0], r.value.1))
  {
    assert items[..i + 1][..i] == items[..i];
  }

  /** The item loop, which carries the shared accumulators from item to item. */
  method EvaluateItems(k: Ranks, s: Source, cap: Result<Cap, Reason>, at: int, items: seq<Item>)
    returns (r: Result<(seq<ItemOut>, Used), Reason>)
    ensures r == EvalItems(k, s, cap, at, items)
  {
    var outs: seq<ItemOut>, used := [], Used(0.0, map[], {});
    for i := 0 to |items|
      invariant EvalItems(k, s, cap, at, items[..i]) == Ok((outs, used))
    {
      ItemsStep(k, s, cap, at, items, i, outs, used);
      var item := EvaluateItem(k, s, cap, at, items[i], used);
      if item.Err? {
        ItemRejected(k, s, cap, at, items, i + 1);
        return Err(item.error);
      }
      outs, used := outs + [item.value.0], item.value.1;
    }
    assert items[..|items|] == items;
    r := Ok((outs, used));
  }

  /** `validate_recommendation`. */
  method ValidateRecommendation(k: Ranks, rec: Recommendation, source: Source, at: int) returns (r: Result<Validation, Reason>)
    ensures r == Validate(k, rec, source, at)
  {
    var checked := ValidatedSource(k, source, at);
    if checked.Err? {
      return Err(checked.error);
    }
    var s := checked.value;
    if rec.task != s.task.id {
      return Err(TaskLineageMismatch);
    }
    if !ScopesMatch(s, rec.items) {
      return Err(CompleteUniqueScopesRequired);
    }
    var cap := NormalizeSpendingCap(k, s, at);
    var evaluated := EvaluateItems(k, s, cap, at, SortBy(rec.items, ItemOrder));
    if evaluated.Err? {
      return Err(evaluated.error);
    }
    var (items, used) := evaluated.value;
    if cap.Ok? && used.cash > cap.value.amount {
      return Err(SharedBudgetExceeded);
    }
    r := Ok(Validation(s, cap, used.cash, items));
  }

  // ---------------------------------------------------------------- what validated legs commit

  predicate IndependentBuy(o: LegOut) {
    o.state == Validated && o.leg.action == BUY && o.leg.dependents == []
  }

  predicate ValidatedSell(o: LegOut, a: Asset) {
    o.state == Validated && o.leg.action == SELL && o.leg.asset == a
  }

  function LegSpend(o: LegOut): real {
    if IndependentBuy(o) && o.spend.Some? then o.spend.value else 0.0
  }

  function LegSold(o: LegOut, a: Asset): real {
    if ValidatedSell(o, a) && o.leg.quantity.Some? then o.leg.quantity.value else 0.0
  }

  function LegsSpend(outs: seq<LegOut>): real {
    if outs == [] then 0.0 else LegsSpend(outs[..|outs| - 1]) + LegSpend(outs[|outs| - 1])
  }

  function LegsSold(outs: seq<LegOut>, a: Asset): real {
    if outs == [] then 0.0 else LegsSold(outs[..|outs| - 1], a) + LegSold(outs[|outs| - 1], a)
  }

  /** The summed spend upper bounds of all VALIDATED independent BUY legs. */
  function TotalSpend(items: seq<ItemOut>): real {
    if items == [] then 0.0 else TotalSpend(items[..|items| - 1]) + LegsSpend(items[|items| - 1].legs)
  }

  /** The summed quantities of all VALIDATED SELL legs of one asset. */
  function TotalSold(items: seq<ItemOut>, a: Asset): real {
    if items == [] then 0.0 else TotalSold(items[..|items| - 1], a) + LegsSold(items[|items| - 1].legs, a)
  }

  // ---------------------------------------------------------------- one leg

  lemma BuyCash(leg: Leg, c: Checks, cap: Result<Cap, Reason>, u: Used)
    requires leg.action == BUY && (c.price.Some? ==> c.price.value > 0.0)
    requires (c.quantity.Ok? ==> c.quantity.value > 0.0) && (c.fee.Ok? ==> c.fee.value >= 0.0)
    ensures var (o, u') := BuyLeg(leg, c, cap, u);
            && o.leg == leg && u'.cash == u.cash + LegSpend(o) && u.cash <= u'.cash && u'.positions == u.positions
            && (IndependentBuy(o) ==> cap.Ok? && o.spend.Some? && o.spend.value > 0.0)
  {
    if c.quantity.Ok? && c.price.Some? && c.fee.Ok? {
      assert c.quantity.value * c.price.value > 0.0;
    }
  }

  /** A leg changes used cash by exactly its validated spend, and a validated independent BUY has a
      positive bound backed by an available cap. */
  lemma LegCash(k: Ranks, s: Source, cap: Result<Cap, Reason>, at: int, blocked: bool, leg: Leg, u: Used)
    requires EvalLeg(k, s, cap, at, blocked, leg, u).Ok?
    ensures var (o, u') := EvalLeg(k, s, cap, at, blocked, leg, u).value;
            && o.leg == leg && u'.cash == u.cash + LegSpend(o) && u.cash <= u'.cash
            && (IndependentBuy(o) ==> cap.Ok? && o.spend.Some? && o.spend.value > 0.0)
  {
    if leg.action == BUY {
      BuyCash(leg, Checks(QuantityOf(s, leg, at), Fee(s, leg, at), PriceOf(leg).value, blocked), cap, u.(ids := u.ids + {leg.id}));
    }
  }

  ghost predicate WithinAvailable(k: Ranks, s: Source, at: int, a: Asset, used: real) {
    PositionAvailable(k, s, a, at, true).Ok? && used <= PositionAvailable(k, s, a, at, true).value
  }

  lemma SellPosition(k: Ranks, s: Source, leg: Leg, c: Checks, at: int, u: Used)
    requires leg.action == SELL && SellLeg(leg, c, PositionAvailable(k, s, leg.asset, at, true), u).Ok?
    requires c.quantity.Ok? ==> leg.quantity == Some(c.quantity.value) && c.quantity.value > 0.0
    ensures var (o, u') := SellLeg(leg, c, PositionAvailable(k, s, leg.asset, at, true), u).value;
            && o.leg == leg && u'.cash == u.cash && u.positions.Keys <= u'.positions.Keys
            && (forall b :: b != leg.asset ==> PositionUsed(u', b) == PositionUsed(u, b) && (b in u'.positions <==> b in u.positions))
            && PositionUsed(u', leg.asset) >= PositionUsed(u, leg.asset) + LegSold(o, leg.asset)
            && (u'.positions == u.positions || WithinAvailable(k, s, at, leg.asset, PositionUsed(u', leg.asset)))
            && (o.state == Validated ==> leg.asset in u'.positions && leg.quantity.Some? && leg.quantity.value > 0.0
                                         && WithinAvailable(k, s, at, leg.asset, PositionUsed(u', leg.asset)))
  {
  }

  /** Recorded positions are within what is available. */
  ghost predicate PositionsWithin(k: Ranks, s: Source, at: int, u: Used) {
    forall a :: a in u.positions ==> WithinAvailable(k, s, at, a, u.positions[a])
  }

  /** Used positions cover every validated sale and stay within the available position. */
  lemma LegPosition(k: Ranks, s: Source, cap: Result<Cap, Reason>, at: int, blocked: bool, leg: Leg, u: Used, a: Asset)
    requires EvalLeg(k, s, cap, at, blocked, leg, u).Ok? && PositionsWithin(k, s, at, u)
    ensures var (o, u') := EvalLeg(k, s, cap, at, blocked, leg, u).value;
            && PositionUsed(u', a) >= PositionUsed(u, a) + LegSold(o, a)
            && (a in u.positions ==> a in u'.positions)
            && PositionsWithin(k, s, at, u')
            && (ValidatedSell(o, a) ==> a in u'.positions)
  {
    hide WithinAvailable, PositionAvailable, QuantityOf, Fee, SellLeg, StepMismatch;
    var u1 := u.(ids := u.ids + {leg.id});
    var c := Checks(QuantityOf(s, leg, at), Fee(s, leg, at), PriceOf(leg).value, blocked);
    if leg.action == BUY {
      BuyCash(leg, c, cap, u1);
    } else {
      SellPosition(k, s, leg, c, at, u1);
    }
  }

  // ---------------------------------------------------------------- whole portfolios

  ghost predicate BuysNow(outs: seq<LegOut>) {
    exists o :: o in outs && IndependentBuy(o)
  }

  lemma {:induction false} LegsCash(k: Ranks, s: Source, cap: Result<Cap, Reason>, at: int, blocked: bool, legs: seq<Leg>, u: Used)
    requires EvalLegs(k, s, cap, at, blocked, legs, u).Ok?
    ensures var (outs, u') := EvalLegs(k, s, cap, at, blocked, legs, u).value;
            && u'.cash == u.cash + LegsSpend(outs) && u.cash <= u'.cash
            && (BuysNow(outs) ==> cap.Ok? && u.cash < u'.cash)
  {
    if legs != [] {
      var init, last := legs[..|legs| - 1], legs[|legs| - 1];
      LegsCash(k, s, cap, at, blocked, init, u);
      var (outs1, u1) := EvalLegs(k, s, cap, at, blocked, init, u).value;
      LegCash(k, s, cap, at, blocked, last, u1);
      var (o, u2) := EvalLeg(k, s, cap, at, blocked, last, u1).value;
      assert (outs1 + [o])[..|outs1|] == outs1;
    }
  }

  lemma SpendSnoc(outs: seq<ItemOut>, o: ItemOut)
    ensures TotalSpend(outs + [o]) == TotalSpend(outs) + LegsSpend(o.legs)
    ensures HasIndependentBuy(outs + [o]) ==> HasIndependentBuy(outs) || BuysNow(o.legs)
  {
    var all := outs + [o];
    assert all[..|outs|] == outs;
    if HasIndependentBuy(all) {
      var i :| 0 <= i < |all| && BuysNow(all[i].legs);
      if i < |outs| {
        assert BuysNow(outs[i].legs);
      }
    }
  }

  lemma {:induction false} ItemsCash(k: Ranks, s: Source, cap: Result<Cap, Reason>, at: int, items: seq<Item>)
    requires EvalItems(k, s, cap, at, items).Ok?
    ensures var (outs, u) := EvalItems(k, s, cap, at, items).value;
            && u.cash == TotalSpend(outs) && 0.0 <= u.cash
            && (HasIndependentBuy(outs) ==> cap.Ok? && 0.0 < u.cash)
  {
    if items != [] {
      var init, last := items[..|items| - 1], items[|items| - 1];
      ItemsCash(k, s, cap, at, init);
      var (outs1, u1) := EvalItems(k, s, cap, at, init).value;
      ItemCash(k, s, cap, at, last, u1);
      SpendSnoc(outs1, EvalItem(k, s, cap, at, last, u1).value.0);
    }
  }

  lemma ItemCash(k: Ranks, s: Source, cap: Result<Cap, Reason>, at: int, item: Item, u: Used)
    requires EvalItem(k, s, cap, at, item, u).Ok?
    ensures var (o, u') := EvalItem(k, s, cap, at, item, u).value;
            && u'.cash == u.cash + LegsSpend(o.legs) && u.cash <= u'.cash
            && (BuysNow(o.legs) ==> cap.Ok? && u.cash < u'.cash)
  {
    LegsCash(k, s, cap, at, BlockersOf(s, item, at) != [], SortedLegs(item), u);
  }

  ghost predicate HasIndependentBuy(items: seq<ItemOut>) {
    exists i :: 0 <= i < |items| && BuysNow(items[i].legs)
  }

  /** Cash conservation. In every accepted portfolio with at least one VALIDATED independent BUY leg,
      all spend bounds together with open-order commitments and fees, restricted cash and the user's
      reserve fit in the smaller of cash and settled cash. No sale proceeds enter the sum. */
  lemma CashNeverOvercommitted(k: Ranks, r: Recommendation, source: Source, at: int)
    requires Validate(k, r, source, at).Ok? && HasIndependentBuy(Validate(k, r, source, at).value.items)
    ensures var v := Validate(k, r, source, at).value;
            && CashFactsOf(k, v.source, at).Ok?
            && var f := CashFactsOf(k, v.source, at).value;
               TotalSpend(v.items) + f.commitment + f.fees + f.restricted + f.reserved <= Min(f.cash, f.settled)
  {
    var v := Validate(k, r, source, at).value;
    ItemsCash(k, v.source, v.cap, at, SortBy(r.items, ItemOrder));
    CapBoundsCash(k, v.source, at, TotalSpend(v.items));
  }

  lemma CapBoundsCash(k: Ranks, s: Source, at: int, spend: real)
    requires SpendingCap(k, s, at).Ok? && 0.0 < spend <= SpendingCap(k, s, at).value.amount
    ensures var f := CashFactsOf(k, s, at).value;
            spend + f.commitment + f.fees + f.restricted + f.reserved <= Min(f.cash, f.settled)
  {
    assert CentFloor(0.0) == 0.0;
  }

  lemma {:induction false} LegsPosition(k: Ranks, s: Source, cap: Result<Cap, Reason>, at: int, blocked: bool, legs: seq<Leg>, u: Used, a: Asset)
    requires EvalLegs(k, s, cap, at, blocked, legs, u).Ok? && PositionsWithin(k, s, at, u)
    ensures var (outs, u') := EvalLegs(k, s, cap, at, blocked, legs, u).value;
            && PositionUsed(u', a) >= PositionUsed(u, a) + LegsSold(outs, a)
            && (a in u.positions ==> a in u'.positions)
            && PositionsWithin(k, s, at, u')
            && (Sells(outs, a) ==> a in u'.positions)
  {
    if legs != [] {
      var init, last := legs[..|legs| - 1], legs[|legs| - 1];
      LegsPosition(k, s, cap, at, blocked, init, u, a);
      var (outs1, u1) := EvalLegs(k, s, cap, at, blocked, init, u).value;
      LegPosition(k, s, cap, at, blocked, last, u1, a);
      var (o, u2) := EvalLeg(k, s, cap, at, blocked, last, u1).value;
      assert (outs1 + [o])[..|outs1|] == outs1;
    }
  }

  ghost predicate Sells(outs: seq<LegOut>, a: Asset) {
    exists o :: o in outs && ValidatedSell(o, a)
  }

  ghost predicate HasValidatedSell(items: seq<ItemOut>, a: Asset) {
    exists i :: 0 <= i < |items| && Sells(items[i].legs, a)
  }

  lemma SoldSnoc(outs: seq<ItemOut>, o: ItemOut, a: Asset)
    ensures TotalSold(outs + [o], a) == TotalSold(outs, a) + LegsSold(o.legs, a)
    ensures HasValidatedSell(outs + [o], a) ==> HasValidatedSell(outs, a) || Sells(o.legs, a)
  {
    var all := outs + [o];
    assert all[..|outs|] == outs;
    if HasValidatedSell(all, a) {
      var i :| 0 <= i < |all| && Sells(all[i].legs, a);
      if i < |outs| {
        assert Sells(outs[i].legs, a);
      }
    }
  }

  lemma {:induction false} ItemsPosition(k: Ranks, s: Source, cap: Result<Cap, Reason>, at: int, items: seq<Item>, a: Asset)
    requires EvalItems(k, s, cap, at, items).Ok?
    ensures var (outs, u) := EvalItems(k, s, cap, at, items).value;
            && PositionUsed(u, a) >= TotalSold(outs, a) && PositionsWithin(k, s, at, u)
            && (HasValidatedSell(outs, a) ==> a in u.positions)
  {
    if items != [] {
      var init, last := items[..|items| - 1], items[|items| - 1];
      ItemsPosition(k, s, cap, at, init, a);
      var (outs1, u1) := EvalItems(k, s, cap, at, init).value;
      ItemPosition(k, s, cap, at, last, u1, a);
      SoldSnoc(outs1, EvalItem(k, s, cap, at, last, u1).value.0, a);
    }
  }

  lemma ItemPosition(k: Ranks, s: Source, cap: Result<Cap, Reason>, at: int, item: Item, u: Used, a: Asset)
    requires EvalItem(k, s, cap, at, item, u).Ok? && PositionsWithin(k, s, at, u)
    ensures var (o, u') := EvalItem(k, s, cap, at, item, u).value;
            && PositionUsed(u', a) >= PositionUsed(u, a) + LegsSold(o.legs, a)
            && (a in u.positions ==> a in u'.positions)
            && PositionsWithin(k, s, at, u')
            && (Sells(o.legs, a) ==> a in u'.positions)
  {
    LegsPosition(k, s, cap, at, BlockersOf(s, item, at) != [], SortedLegs(item), u, a);
  }

  /** `sold`, the open SELL remainders and the position restriction fit in the holding. */
  ghost predicate FitsHolding(k: Ranks, s: Source, at: int, a: Asset, sold: real) {
    s.qualification.Some? && Fits(CheckObservation(k, s.broker, at), s.qualification.value.positionRestrictions, a, sold)
  }

  ghost predicate Fits(checked: Checked, restrictions: map<Asset, Option<real>>, a: Asset, sold: real) {
    && checked.Checked? && Held(checked.body.holdings, a).Ok? && OpenSells(checked.body.orders, a).Ok?
    && a in restrictions && restrictions[a].Some?
    && sold + OpenSells(checked.body.orders, a).value + restrictions[a].value <= Held(checked.body.holdings, a).value
  }

  lemma AvailableFits(k: Ranks, s: Source, at: int, a: Asset, used: real)
    requires WithinAvailable(k, s, at, a, used)
    ensures FitsHolding(k, s, at, a, used)
  {
  }

  /** Position conservation. For every asset an accepted portfolio sells, the quantities of all its
      VALIDATED SELL legs in all items, the open SELL remainders and the position restriction fit in
      the confirmed holding. */
  lemma PositionsNeverOversold(k: Ranks, r: Recommendation, source: Source, at: int, a: Asset)
    requires Validate(k, r, source, at).Ok? && HasValidatedSell(Validate(k, r, source, at).value.items, a)
    ensures var v := Validate(k, r, source, at).value;
            FitsHolding(k, v.source, at, a, TotalSold(v.items, a))
  {
    var v := Validate(k, r, source, at).value;
    var items := SortBy(r.items, ItemOrder);
    ItemsPosition(k, v.source, v.cap, at, items, a);
    var u := EvalItems(k, v.source, v.cap, at, items).value.1;
    AvailableFits(k, v.source, at, a, u.positions[a]);
  }

  // ---------------------------------------------------------------- assets that are not sold

  lemma {:induction false} UnsoldLegs(outs: seq<LegOut>, a: Asset)
    requires !Sells(outs, a)
    ensures LegsSold(outs, a) == 0.0
  {
    if outs != [] {
      assert outs[|outs| - 1] in outs;
      assert forall o :: o in outs[..|outs| - 1] ==> o in outs;
      UnsoldLegs(outs[..|outs| - 1], a);
    }
  }

  lemma {:induction false} UnsoldItems(items: seq<ItemOut>, a: Asset)
    requires !HasValidatedSell(items, a)
    ensures TotalSold(items, a) == 0.0
  {
    if items != [] {
      var n := |items| - 1;
      assert !Sells(items[n].legs, a);
      UnsoldLegs(items[n].legs, a);
      forall i | 0 <= i < n ensures !Sells(items[..n][i].legs, a) {
        assert items[..n][i] == items[i];
      }
      UnsoldItems(items[..n], a);
    }
  }

  /** What a sale needs to know of the account: a current observation with complete positions and orders, a
      fresh qualification of that observation, and readable holdings, restriction and open SELL orders. */
  ghost predicate PositionKnown(k: Ranks, s: Source, at: int, a: Asset) {
    s.qualification.Some? && Known(CheckObservation(k, s.broker, at), s.qualification.value, at, a)
  }

  ghost predicate Known(checked: Checked, q: Qualification, at: int, a: Asset) {
    && checked.Checked? && checked.state != Stale && checked.body.positionsComplete && checked.body.ordersComplete
    && Fresh(q.clock, at) && q.observationHash == checked.hash
    && a in q.positionRestrictions && Number(q.positionRestrictions[a], false).Ok?
    && Held(checked.body.holdings, a).Ok? && OpenSells(checked.body.orders, a).Ok?
  }

  lemma SellableIff(checked: Checked, q: Qualification, at: int, a: Asset)
    ensures PositionFrom(checked, Some(q), a, at, true).Ok?
            <==> Known(checked, q, at, a) && Fits(checked, q.positionRestrictions, a, 0.0)
  {
  }

  /** `position_available` answers for a sale exactly when the account is known and not over-committed. */
  lemma AvailableIff(k: Ranks, s: Source, at: int, a: Asset)
    ensures PositionAvailable(k, s, a, at, true).Ok? <==> PositionKnown(k, s, at, a) && FitsHolding(k, s, at, a, 0.0)
  {
    var checked := CheckObservation(k, s.broker, at);
    if s.qualification.Some? {
      SellableIff(checked, s.qualification.value, at, a);
    } else {
      UnqualifiedRefused(checked, at, a);
    }
  }

  lemma UnqualifiedRefused(checked: Checked, at: int, a: Asset)
    ensures PositionFrom(checked, None, a, at, true).Err?
  {
  }

  lemma SellsNeedAvailable(k: Ranks, r: Recommendation, source: Source, at: int, a: Asset)
    requires Validate(k, r, source, at).Ok? && HasValidatedSell(Validate(k, r, source, at).value.items, a)
    ensures PositionAvailable(k, Validate(k, r, source, at).value.source, a, at, true).Ok?
  {
    var v := Validate(k, r, source, at).value;
    ItemsPosition(k, v.source, v.cap, at, SortBy(r.items, ItemOrder), a);
  }

  /** Exactly when the position bound holds for an asset of an accepted portfolio, sold or not: when the
      account met it before any sale, which for a known account is when `position_available` answers. When
      that refuses, for whatever reason, nothing of the asset is sold. */
  lemma PositionBoundIff(k: Ranks, r: Recommendation, source: Source, at: int, a: Asset)
    requires Validate(k, r, source, at).Ok?
    ensures var v := Validate(k, r, source, at).value;
            && (FitsHolding(k, v.source, at, a, TotalSold(v.items, a)) <==> FitsHolding(k, v.source, at, a, 0.0))
            && (PositionKnown(k, v.source, at, a)
                ==> (FitsHolding(k, v.source, at, a, TotalSold(v.items, a)) <==> PositionAvailable(k, v.source, a, at, true).Ok?))
            && (PositionAvailable(k, v.source, a, at, true).Err? ==> !HasValidatedSell(v.items, a) && TotalSold(v.items, a) == 0.0)
  {
    var v := Validate(k, r, source, at).value;
    AvailableIff(k, v.source, at, a);
    if HasValidatedSell(v.items, a) {
      SellsNeedAvailable(k, r, source, at, a);
      PositionsNeverOversold(k, r, source, at, a);
    } else {
      UnsoldItems(v.items, a);
    }
  }

  // ---------------------------------------------------------------- an over-committed asset

  const NOON := Freshness(BRIDGE, 1, 10)
  const SHORT_BODY := ObservationBody(1, 2, true, true, true, true, true, [Holding(7, 1.0)],
                                      Funds(Some(0.0), Some(0.0), Some(0.0)),
                                      [OpenOrder(7, SELL, true, 2.0, Some(0.0), Some(2.0), None)])
  const SHORT_SOURCE := Source(Some(Observation(SHORT_BODY, SealOf(SHORT_BODY))), None,
                               Some(Qualification(NOON, SealOf(SHORT_BODY), true, Included, Some(0.0), map[7 := Some(0.0)], None)),
                               [Instrument(7, true, Some(1.0), NOON)], [], None, Task(1, [Scope(1, 7, ProposedChange)], NOON), NOON)
  const WAITING := Item(1, 7, Wait, Some(EvidenceBlocked), [], [BRIDGE], [9])

  lemma ShortCanonical(k: Ranks)
    ensures ValidatedSource(k, SHORT_SOURCE, 5) == Ok(SHORT_SOURCE)
  {
    assert Canonical(k, SHORT_SOURCE) == SHORT_SOURCE;
  }

  lemma ShortChecked(k: Ranks)
    ensures PositionKnown(k, SHORT_SOURCE, 5, 7) && !FitsHolding(k, SHORT_SOURCE, 5, 7, 0.0)
  {
    assert SealedBody(k, SHORT_BODY) == SHORT_BODY;
    assert SHORT_BODY.holdings[..0] == [] && SHORT_BODY.orders[..0] == [];
    assert Held(SHORT_BODY.holdings, 7) == Ok(1.0) && OpenSells(SHORT_BODY.orders, 7) == Ok(2.0);
  }

  lemma ShortWaits(k: Ranks, cap: Result<Cap, Reason>)
    ensures EvalItems(k, SHORT_SOURCE, cap, 5, [WAITING]).Ok?
    ensures EvalItems(k, SHORT_SOURCE, cap, 5, [WAITING]).value.1.cash == 0.0
  {
    assert [WAITING][..0] == [];
    assert InstrumentsFor(SHORT_SOURCE.instruments, 7) == SHORT_SOURCE.instruments;
    assert StepFor(SHORT_SOURCE, 7, 5) == Ok(1.0);
    assert WAITING.evidence[..0] == [];
    assert ItemError(k, SHORT_SOURCE, 5, WAITING).None?;
  }

  lemma ShortCap(k: Ranks)
    ensures SpendingCap(k, SHORT_SOURCE, 5).Err?
  {
    assert SHORT_SOURCE.intent.None?;
    hide CheckObservation, Qualified, Number, Commitment;
  }

  /** A portfolio that only waits is accepted although the account is known and its open SELL orders exceed
      the holding. */
  lemma OvercommittedWaitAccepted(k: Ranks)
    ensures var r := Recommendation(1, [WAITING]);
            && Validate(k, r, SHORT_SOURCE, 5).Ok?
            && var v := Validate(k, r, SHORT_SOURCE, 5).value;
               PositionKnown(k, v.source, 5, 7) && !FitsHolding(k, v.source, 5, 7, TotalSold(v.items, 7))
  {
    hide PositionKnown, FitsHolding, SpendingCap, ValidatedSource, EvalItems, Canonical;
    var r := Recommendation(1, [WAITING]);
    ShortCanonical(k);
    ShortChecked(k);
    assert SortBy([WAITING], ItemOrder) == [WAITING];
    assert ItemScopes([WAITING]) == [1] && ScopeIds(SHORT_SOURCE.task.scopes) == [1];
    ShortCap(k);
    ShortWaits(k, SpendingCap(k, SHORT_SOURCE, 5));
    PositionBoundIff(k, r, SHORT_SOURCE, 5, 7);
  }
}
