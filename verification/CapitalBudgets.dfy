/** The executable spending cap and the analysis cash budget, computed by different loops over the
    same open orders, and the proof that the executable one is never the larger. */
module CapitalBudgets {
  import opened Common
  import opened CapitalModel

  /** The order loop of `normalize_spending_cap`. */
  method CommitOpenOrders(orders: seq<OpenOrder>) returns (r: Result<real, Reason>)
    ensures r == Commitment(orders)
  {
    var commitment := 0.0;
    for i := 0 to |orders|
      invariant Commitment(orders[..i]) == Ok(commitment)
    {
      assert orders[..i + 1][..i] == orders[..i];
      var o := orders[i];
      var remaining := Remaining(o);
      var priced := OrderCommitment(o);
      if remaining.Err? || priced.Err? {
        CommitmentFails(orders, i + 1);
        return Err(if remaining.Err? then remaining.error else priced.error);
      }
      if o.side == BUY && remaining.value != 0.0 {
        commitment := commitment + priced.value;
      }
    }
    assert orders[..|orders|] == orders;
    r := Ok(commitment);
  }

  /** The first order that cannot be bounded decides the reason. */
  lemma {:induction false} CommitmentFails(orders: seq<OpenOrder>, n: nat)
    requires n <= |orders| && Commitment(orders[..n]).Err?
    ensures Commitment(orders) == Err(Commitment(orders[..n]).error)
    decreases |orders| - n
  {
    if n < |orders| {
      assert orders[..n + 1][..n] == orders[..n];
      CommitmentFails(orders, n + 1);
    } else {
      assert orders[..n] == orders;
    }
  }

  /** `normalize_spending_cap`. */
  method NormalizeSpendingCap(k: Ranks, s: Source, at: int) returns (r: Result<Cap, Reason>)
    ensures r == SpendingCap(k, s, at)
  {
    hide CheckObservation, Qualified, ConfirmedIntent, Number, Commitment, CentFloor;
    var checked := CheckObservation(k, s.broker, at);
    if checked.Unusable? || checked.state != Available {
      return Err(checked.why);
    }
    var q := Qualified(s, at);
    if q.Err? {
      return Err(q.error);
    }
    var intent := ConfirmedIntent(s, at);
    if intent.Err? {
      return Err(intent.error);
    }
    var funds := checked.body.funds;
    var cash, settled, available := Number(funds.cash, false), Number(funds.settled, false), Number(funds.available, false);
    if cash.Err? || settled.Err? || available.Err? {
      return Err(if cash.Err? then cash.error else if settled.Err? then settled.error else available.error);
    }
    var commitment := CommitOpenOrders(checked.body.orders);
    if commitment.Err? {
      return Err(commitment.error);
    }
    var fees := if commitment.value != 0.0 then Number(q.value.openBuyFee, false) else Ok(0.0);
    var restricted, reserved := Number(q.value.restrictedCash, false), Number(intent.value.reserved, false);
    if fees.Err? || restricted.Err? || reserved.Err? {
      return Err(if fees.Err? then fees.error else if restricted.Err? then restricted.error else reserved.error);
    }
    var occupancy := commitment.value + fees.value;
    var freeCash := Min(cash.value, settled.value) - occupancy - restricted.value;
    var ceiling := available.value;
    if q.value.availableFunds == Excluded {
      ceiling := ceiling - occupancy;
    }
    r := Ok(Cap(CentFloor(Max(0.0, Min(freeCash, ceiling) - reserved.value)), commitment.value));
  }

  /** The order loop of `reconcile_capital`, which gives up at the first unresolved order. */
  method CommitForAnalysis(orders: seq<OpenOrder>) returns (r: Option<real>)
    ensures r == AnalysisCommitment(orders)
  {
    var commitment := 0.0;
    for i := 0 to |orders|
      invariant AnalysisCommitment(orders[..i]) == Some(commitment)
    {
      assert orders[..i + 1][..i] == orders[..i];
      var bound := AnalysisOrder(orders[i]);
      if bound.None? {
        AnalysisUnresolved(orders, i + 1);
        return None;
      }
      commitment := commitment + bound.value;
    }
    assert orders[..|orders|] == orders;
    r := Some(commitment);
  }

  lemma {:induction false} AnalysisUnresolved(orders: seq<OpenOrder>, n: nat)
    requires n <= |orders| && AnalysisCommitment(orders[..n]).None?
    ensures AnalysisCommitment(orders).None?
    decreases |orders| - n
  {
    if n < |orders| {
      assert orders[..n + 1][..n] == orders[..n];
      AnalysisUnresolved(orders, n + 1);
    } else {
      assert orders[..n] == orders;
    }
  }

  /** The budget part of `reconcile_capital`. */
  method ReconcileBudget(k: Ranks, o: Option<Observation>, intent: Option<PlanIntent>, at: int) returns (r: Option<real>)
    ensures r == AnalysisBudget(k, o, intent, at)
  {
    r := ReconcileChecked(CheckObservation(k, o, at), PlanReserve(intent, at));
  }

  method ReconcileChecked(checked: Checked, reserve: Option<real>) returns (r: Option<real>)
    ensures r == BudgetFrom(checked, reserve)
  {
    if checked.Unusable? || checked.body.funds.cash.None? || checked.body.funds.available.None? {
      return None;
    }
    var commitment := CommitForAnalysis(checked.body.orders);
    if checked.state != Available || commitment.None? || reserve.None? {
      return None;
    }
    var cash, available := checked.body.funds.cash.value, checked.body.funds.available.value;
    r := Some(CentFloor(Max(0.0, Min(cash - commitment.value, available) - reserve.value)));
  }

  /** When both loops resolve every order they bind the same cash. */
  lemma {:induction false} CommitmentsAgree(orders: seq<OpenOrder>)
    requires Commitment(orders).Ok? && AnalysisCommitment(orders).Some?
    ensures Commitment(orders).value == AnalysisCommitment(orders).value
  {
    if orders != [] {
      CommitmentsAgree(orders[..|orders| - 1]);
      OrdersAgree(orders[|orders| - 1]);
    }
  }

  lemma OrdersAgree(o: OpenOrder)
    requires OrderCommitment(o).Ok? && AnalysisOrder(o).Some?
    ensures OrderCommitment(o).value == AnalysisOrder(o).value
  {
    if o.side == BUY && o.remaining.value == 0.0 {
      assert 0.0 * o.limitPrice.value == 0.0;
    }
  }

  lemma CentFloorMonotone(x: real, y: real)
    requires x <= y
    ensures CentFloor(x) <= CentFloor(y)
  {
    var a, b := (x * 100.0).Floor, (y * 100.0).Floor;
    assert x * 100.0 <= y * 100.0;
    assert a <= b;
    assert a as real / 100.0 <= b as real / 100.0;
  }

  /** What a successful pair of computations read from the shared observation. */
  lemma SharedFacts(checked: Checked, q: Result<Qualification, Reason>, intent: Result<UserIntent, Reason>, reserve: Option<real>)
    requires CashFactsFrom(checked, q, intent).Ok? && BudgetFrom(checked, reserve).Some?
    requires intent.Ok? ==> intent.value.reserved == reserve
    ensures BudgetFrom(checked, reserve) == Some(LooseBudget(CashFactsFrom(checked, q, intent).value))
  {
    CommitmentsAgree(checked.body.orders);
  }

  /** The analysis budget in terms of the facts behind the executable cap. */
  function LooseBudget(f: CashFacts): real {
    CentFloor(Max(0.0, Min(f.cash - f.commitment, f.available) - f.reserved))
  }

  lemma BoundsCompare(f: CashFacts)
    requires f.commitment >= 0.0 && f.fees >= 0.0 && f.restricted >= 0.0
    ensures CapFrom(Ok(f)).value.amount <= LooseBudget(f)
  {
    var occupancy := f.commitment + f.fees;
    var available := if f.excluded then f.available - occupancy else f.available;
    CentFloorMonotone(Max(0.0, Min(Min(f.cash, f.settled) - occupancy - f.restricted, available) - f.reserved),
                      Max(0.0, Min(f.cash - f.commitment, f.available) - f.reserved));
  }

  /** On one observation and reserve the executable cap never exceeds the analysis budget, for every
      open-order list and either AvailableFunds convention. */
  lemma CapWithinAnalysisBudget(k: Ranks, s: Source, plan: Option<PlanIntent>, at: int)
    requires SpendingCap(k, s, at).Ok? && AnalysisBudget(k, s.broker, plan, at).Some?
    requires s.intent.Some? && plan.Some? && s.intent.value.reserved == plan.value.reserved
    ensures SpendingCap(k, s, at).value.amount <= AnalysisBudget(k, s.broker, plan, at).value
  {
    SharedFacts(CheckObservation(k, s.broker, at), Qualified(s, at), ConfirmedIntent(s, at), PlanReserve(plan, at));
    BoundsCompare(CashFactsOf(k, s, at).value);
  }
}
