/** Sealed broker observations, recommendation sources and the cash and position arithmetic
    that both budgets share. Identifiers and text are natural numbers compared only for
    equality and order; `Decimal` values are reals, and an absent or unreadable number is `None`. */
module CapitalModel {
  import opened Common
  import opened Sorting

  type Asset = nat
  type Ref = nat

  const BRIDGE: Ref := 0
  const POSTURE: Ref := 1
  const MAX_AGE_MS := 300_000
  const MAX_SNAPSHOT_SPAN_MS := 30_000

  datatype Reason =
    | NumberRequired | InvalidNumber | FieldSetMismatch | SourceStaleOrMissing
    | ScopesRequired | DuplicateScope | TaskLineageMismatch | CompleteUniqueScopesRequired
    | BrokerObservationMissing | BrokerObservationInvalid | BrokerProofHashInvalid | AccountScopeUnconfirmed
    | AccountNotReady | ObservationClockInvalid | AmbiguousDuplicatePosition
    | ObservationValid | ObservationExpired | SnapshotIncomplete | AnalysisFundsMissing
    | QualificationSnapshotMismatch | CashSemanticsUnproven | AvailableFundsSemanticsUnproven
    | UserIntentUnconfirmed | OpenOrderAlignmentUnknown | OpenOrderPriceBoundUnknown
    | HoldingsIncomplete | OrdersIncomplete | PositionRestrictionsUnknown | PositionOvercommitted
    | InstrumentUnconfirmed | AssetOutsideScope | FeeUpperBoundUnknown | FeeBoundQuantityExceeded
    | ScopeAssetMismatch | EvidenceReferenceUnknown | InvestmentEvidenceRequired | PostureEvidenceMissing
    | HoldScopeInvalid | HoldRequiresPosition | WaitScopeInvalid | WaitBlockersRequired | ActiveWaitHasBlockers
    | TradeWaitKindInvalid | RotationLegsRequired | RotationDependencyInvalid | SingleTradeLegInvalid
    | DuplicateLeg | QuantityStepMismatch | LimitPriceRequired | MarketPriceIsNotABound | PriceUpperBoundUnknown
    | PositionReuseOrExcess | SharedBudgetExceeded

  /** `number(value)` and `number(value, positive=True)`. */
  function Number(x: Option<real>, positive: bool): (r: Result<real, Reason>)
    ensures r.Ok? ==> x == Some(r.value) && r.value >= 0.0 && (positive ==> r.value > 0.0)
  {
    if x.None? then Err(NumberRequired)
    else if (if positive then x.value > 0.0 else x.value >= 0.0) then Ok(x.value)
    else Err(InvalidNumber)
  }

  datatype Freshness = Freshness(ref: Ref, asOf: int, validUntil: int)

  predicate Fresh(f: Freshness, at: int) {
    0 < f.asOf <= at < f.validUntil
  }

  datatype Side = BUY | SELL

  datatype Instrument = Instrument(asset: Asset, inScope: bool, step: Option<real>, clock: Freshness)
  datatype FeeRow = FeeRow(asset: Asset, side: Side, quantityMax: Option<real>, upperBound: Option<real>, clock: Freshness)

  datatype Holding = Holding(asset: Asset, quantity: real)
  datatype OpenOrder = OpenOrder(asset: Asset, side: Side, isLimit: bool, quantity: real,
                                 filled: Option<real>, remaining: Option<real>, limitPrice: Option<real>)
  datatype Funds = Funds(cash: Option<real>, available: Option<real>, settled: Option<real>)
  datatype ObservationBody = ObservationBody(
    startedAt: int, observedAt: int, accountConfirmed: bool, accountReady: bool,
    positionsComplete: bool, fundsComplete: bool, ordersComplete: bool,
    holdings: seq<Holding>, funds: Funds, orders: seq<OpenOrder>)

  /** The observation hash: SHA-256 of a sealed body, or any other text. */
  datatype SealHash = NoSeal | SealOf(body: ObservationBody)
  datatype Observation = Observation(body: ObservationBody, hash: SealHash)

  datatype AvailableFundsOrders = Included | Excluded | Unproven
  datatype Qualification = Qualification(
    clock: Freshness, observationHash: SealHash, cashSemanticsProven: bool, availableFunds: AvailableFundsOrders,
    restrictedCash: Option<real>, positionRestrictions: map<Asset, Option<real>>, openBuyFee: Option<real>)

  datatype UserIntent = UserIntent(confirmed: bool, confirmedAt: int, reserved: Option<real>, noLeverage: bool)

  datatype Exposure = Existing | ProposedChange
  datatype Scope = Scope(id: nat, asset: Asset, exposure: Exposure)
  datatype Task = Task(id: nat, scopes: seq<Scope>, clock: Freshness)

  datatype Source = Source(
    broker: Option<Observation>, intent: Option<UserIntent>, qualification: Option<Qualification>,
    instruments: seq<Instrument>, fees: seq<FeeRow>, posture: Option<Freshness>, task: Task, evidence: Freshness)

  /** A total order: digests and JSON texts separate rows. */
  ghost predicate Separates<T(!new)>(le: (T, T) -> bool) {
    TotalPreorder(le) && forall x, y :: le(x, y) && le(y, x) ==> x == y
  }

  /** The orders in which digests and JSON texts of rows sort. */
  datatype Ranks = Ranks(
    instrument: (Instrument, Instrument) -> bool, fee: (FeeRow, FeeRow) -> bool,
    holding: (Holding, Holding) -> bool, order: (OpenOrder, OpenOrder) -> bool)
  {
    ghost predicate Valid() {
      Separates(instrument) && Separates(fee) && Separates(holding) && Separates(order)
    }

    function SortedInstruments(s: seq<Instrument>): seq<Instrument> {
      SortBy(s, instrument)
    }

    function SortedFees(s: seq<FeeRow>): seq<FeeRow> {
      SortBy(s, fee)
    }

    function SortedHoldings(s: seq<Holding>): seq<Holding> {
      SortBy(s, holding)
    }

    function SortedOrders(s: seq<OpenOrder>): seq<OpenOrder> {
      SortBy(s, order)
    }
  }

  // ---------------------------------------------------------------- broker observation

  /** `seal_broker_observation`: positions sorted by asset, orders by their JSON text. */
  function SealedBody(k: Ranks, b: ObservationBody): ObservationBody {
    b.(holdings := SortBy(b.holdings, (x: Holding, y: Holding) => x.asset <= y.asset), orders := k.SortedOrders(b.orders))
  }

  predicate DuplicatePosition(holdings: seq<Holding>) {
    exists i, j :: 0 <= i < j < |holdings| && holdings[i].asset == holdings[j].asset
  }

  datatype ObservedState = Available | Stale | Partial
  datatype Checked = Unusable(why: Reason) | Checked(state: ObservedState, why: Reason, body: ObservationBody, hash: SealHash)

  /** `validate_broker_observation`. */
  function CheckObservation(k: Ranks, o: Option<Observation>, at: int): (c: Checked)
    ensures c.Checked? && c.state == Available ==> c.body.funds.cash.Some? && c.body.funds.available.Some?
  {
    if o.None? then Unusable(BrokerObservationMissing)
    else
      var clean := SealedBody(k, o.value.body);
      if DuplicatePosition(clean.holdings) then Unusable(AmbiguousDuplicatePosition)
      else if o.value.hash != SealOf(clean) then Unusable(BrokerProofHashInvalid)
      else if !clean.accountConfirmed then Unusable(AccountScopeUnconfirmed)
      else if !clean.accountReady then Unusable(AccountNotReady)
      else if clean.startedAt <= 0 || clean.startedAt > clean.observedAt || clean.observedAt > at
              || clean.observedAt - clean.startedAt > MAX_SNAPSHOT_SPAN_MS then Unusable(ObservationClockInvalid)
      else if at - clean.observedAt > MAX_AGE_MS then Checked(Stale, ObservationExpired, clean, o.value.hash)
      else if !(clean.positionsComplete && clean.fundsComplete && clean.ordersComplete)
      then Checked(Partial, SnapshotIncomplete, clean, o.value.hash)
      else if clean.funds.cash.None? || clean.funds.available.None?
      then Checked(Partial, AnalysisFundsMissing, clean, o.value.hash)
      else Checked(Available, ObservationValid, clean, o.value.hash)
  }

  // ---------------------------------------------------------------- open orders

  const TOLERANCE := 0.00000001

  function Abs(x: real): real {
    if x < 0.0 then -x else x
  }

  /** `_remaining`. */
  function Remaining(o: OpenOrder): (r: Result<real, Reason>)
    ensures r.Ok? ==> o.remaining == Some(r.value) && r.value >= 0.0
  {
    var total :- Number(Some(o.quantity), false);
    var filled :- Number(o.filled, false);
    var remaining :- Number(o.remaining, false);
    if Abs(total - filled - remaining) <= TOLERANCE then Ok(remaining) else Err(OpenOrderAlignmentUnknown)
  }

  /** Cash bound by one open order in `normalize_spending_cap`. */
  function OrderCommitment(o: OpenOrder): (r: Result<real, Reason>)
    ensures r.Ok? ==> r.value >= 0.0
  {
    var remaining :- Remaining(o);
    if o.side == BUY && remaining != 0.0 then
      if !o.isLimit then Err(OpenOrderPriceBoundUnknown)
      else
        var price :- Number(o.limitPrice, true);
        Ok(remaining * price)
    else Ok(0.0)
  }

  /** The commitment accumulated over a list of open orders. */
  function Commitment(orders: seq<OpenOrder>): (r: Result<real, Reason>)
    ensures r.Ok? ==> r.value >= 0.0
  {
    if orders == [] then Ok(0.0)
    else
      var before :- Commitment(orders[..|orders| - 1]);
      var last :- OrderCommitment(orders[|orders| - 1]);
      Ok(before + last)
  }

  /** Open SELL remainders of one asset. */
  function OpenSells(orders: seq<OpenOrder>, a: Asset): (r: Result<real, Reason>)
    ensures r.Ok? ==> r.value >= 0.0
  {
    if orders == [] then Ok(0.0)
    else
      var before :- OpenSells(orders[..|orders| - 1], a);
      var o := orders[|orders| - 1];
      if o.asset == a && o.side == SELL then
        var remaining :- Remaining(o);
        Ok(before + remaining)
      else Ok(before)
  }

  function Held(holdings: seq<Holding>, a: Asset): Result<real, Reason> {
    if holdings == [] then Ok(0.0)
    else
      var before :- Held(holdings[..|holdings| - 1], a);
      var h := holdings[|holdings| - 1];
      if h.asset == a then
        var quantity :- Number(Some(h.quantity), false);
        Ok(before + quantity)
      else Ok(before)
  }

  // ---------------------------------------------------------------- executable spending cap

  function CentFloor(x: real): (r: real)
    ensures r <= x
  {
    (x * 100.0).Floor as real / 100.0
  }

  /** `_qualified`. */
  function Qualified(s: Source, at: int): Result<Qualification, Reason> {
    if s.qualification.None? || s.broker.None? then Err(FieldSetMismatch)
    else
      var q := s.qualification.value;
      if !Fresh(q.clock, at) then Err(SourceStaleOrMissing)
      else if q.observationHash != s.broker.value.hash then Err(QualificationSnapshotMismatch)
      else if !q.cashSemanticsProven then Err(CashSemanticsUnproven)
      else if q.availableFunds == Unproven then Err(AvailableFundsSemanticsUnproven)
      else Ok(q)
  }

  function ConfirmedIntent(s: Source, at: int): Result<UserIntent, Reason> {
    if s.intent.None? then Err(FieldSetMismatch)
    else if s.intent.value.confirmed && s.intent.value.noLeverage && 0 < s.intent.value.confirmedAt <= at
    then Ok(s.intent.value)
    else Err(UserIntentUnconfirmed)
  }

  datatype Cap = Cap(amount: real, commitment: real)

  /** The amounts that bound an executable spend. */
  datatype CashFacts = CashFacts(cash: real, settled: real, available: real, commitment: real, fees: real,
                                 restricted: real, reserved: real, excluded: bool)

  function CashFactsOf(k: Ranks, s: Source, at: int): (r: Result<CashFacts, Reason>)
    ensures r.Ok? ==> r.value.commitment >= 0.0 && r.value.fees >= 0.0 && r.value.restricted >= 0.0 && r.value.reserved >= 0.0
  {
    CashFactsFrom(CheckObservation(k, s.broker, at), Qualified(s, at), ConfirmedIntent(s, at))
  }

  function CashFactsFrom(checked: Checked, qualified: Result<Qualification, Reason>, confirmed: Result<UserIntent, Reason>)
    : (r: Result<CashFacts, Reason>)
    ensures r.Ok? ==> r.value.commitment >= 0.0 && r.value.fees >= 0.0 && r.value.restricted >= 0.0 && r.value.reserved >= 0.0
  {
    match checked
    case Unusable(why) => Err(why)
    case Checked(state, why, body, _) =>
      if state != Available then Err(why)
      else
        var q :- qualified;
        var intent :- confirmed;
        var cash :- Number(body.funds.cash, false);
        var settled :- Number(body.funds.settled, false);
        var available :- Number(body.funds.available, false);
        var commitment :- Commitment(body.orders);
        var fees :- if commitment != 0.0 then Number(q.openBuyFee, false) else Ok(0.0);
        var restricted :- Number(q.restrictedCash, false);
        var reserved :- Number(intent.reserved, false);
        Ok(CashFacts(cash, settled, available, commitment, fees, restricted, reserved, q.availableFunds == Excluded))
  }

  /** `normalize_spending_cap`: `Err` is the BLOCKED state with its reason. */
  function SpendingCap(k: Ranks, s: Source, at: int): Result<Cap, Reason> {
    CapFrom(CashFactsOf(k, s, at))
  }

  function CapFrom(facts: Result<CashFacts, Reason>): Result<Cap, Reason> {
    var f :- facts;
    var occupancy := f.commitment + f.fees;
    var freeCash := Min(f.cash, f.settled) - occupancy - f.restricted;
    var available := if f.excluded then f.available - occupancy else f.available;
    Ok(Cap(CentFloor(Max(0.0, Min(freeCash, available) - f.reserved)), f.commitment))
  }

  // ---------------------------------------------------------------- positions

  /** `position_available`. */
  function PositionAvailable(k: Ranks, s: Source, a: Asset, at: int, selling: bool): Result<real, Reason> {
    PositionFrom(CheckObservation(k, s.broker, at), s.qualification, a, at, selling)
  }

  function PositionFrom(checked: Checked, q: Option<Qualification>, a: Asset, at: int, selling: bool): Result<real, Reason> {
    match checked
    case Unusable(why) => Err(why)
    case Checked(state, why, body, hash) =>
      if state == Stale then Err(why)
      else if !body.positionsComplete then Err(HoldingsIncomplete)
      else
        var held :- Held(body.holdings, a);
        var quantity :- if selling then Sellable(q, body, hash, a, at, held) else Ok(held);
        if quantity >= 0.0 then Ok(quantity) else Err(PositionOvercommitted)
  }

  function Sellable(q: Option<Qualification>, body: ObservationBody, hash: SealHash, a: Asset, at: int, held: real): Result<real, Reason> {
    if !body.ordersComplete then Err(OrdersIncomplete)
    else if q.None? || !Fresh(q.value.clock, at) then Err(SourceStaleOrMissing)
    else if q.value.observationHash != hash then Err(QualificationSnapshotMismatch)
    else if a !in q.value.positionRestrictions then Err(PositionRestrictionsUnknown)
    else
      var restricted :- Number(q.value.positionRestrictions[a], false);
      var selling :- OpenSells(body.orders, a);
      Ok(held - restricted - selling)
  }

  // ---------------------------------------------------------------- analysis budget

  datatype PlanIntent = PlanIntent(confirmed: bool, confirmedAt: int, reserved: Option<real>, cancelAll: bool)

  /** `reconcile_capital` prices every open BUY, even one with nothing remaining. */
  function AnalysisOrder(o: OpenOrder): Option<real> {
    if o.filled.None? || o.remaining.None? || o.filled.value < 0.0 || o.remaining.value < 0.0 || o.quantity < 0.0
       || Abs(o.filled.value + o.remaining.value - o.quantity) > TOLERANCE then None
    else if o.side == SELL then Some(0.0)
    else if !o.isLimit || o.limitPrice.None? || o.limitPrice.value <= 0.0 then None
    else Some(o.remaining.value * o.limitPrice.value)
  }

  function AnalysisCommitment(orders: seq<OpenOrder>): Option<real> {
    if orders == [] then Some(0.0)
    else
      match (AnalysisCommitment(orders[..|orders| - 1]), AnalysisOrder(orders[|orders| - 1]))
      case (Some(before), Some(last)) => Some(before + last)
      case _ => None
  }

  function PlanReserve(intent: Option<PlanIntent>, at: int): Option<real> {
    match intent
    case None => None
    case Some(i) =>
      if i.confirmed && 0 < i.confirmedAt <= at && i.reserved.Some? && i.reserved.value >= 0.0 && i.cancelAll
      then i.reserved else None
  }

  /** `analysis_cash_budget_usd` of `reconcile_capital`. */
  function AnalysisBudget(k: Ranks, o: Option<Observation>, intent: Option<PlanIntent>, at: int): Option<real> {
    BudgetFrom(CheckObservation(k, o, at), PlanReserve(intent, at))
  }

  function BudgetFrom(checked: Checked, reserve: Option<real>): Option<real> {
    match checked
    case Unusable(_) => None
    case Checked(state, _, body, _) =>
      if state != Available || body.funds.cash.None? || body.funds.available.None? then None
      else
        match (AnalysisCommitment(body.orders), reserve)
        case (Some(commitment), Some(held)) =>
          Some(CentFloor(Max(0.0, Min(body.funds.cash.value - commitment, body.funds.available.value) - held)))
        case _ => None
  }
}
