/** `validate_recommendation`: one cash budget and per-asset positions shared by every leg of every
    item, with claim blockers, dependent legs and portfolio rejections. */
module CapitalValidation {
  import opened Common
  import opened Sorting
  import opened CapitalModel

  datatype OrderType = LIMIT | MARKET
  datatype Leg = Leg(id: nat, action: Side, asset: Asset, quantity: Option<real>, orderType: OrderType,
                     limitPrice: Option<real>, dependents: seq<nat>)

  datatype Action = Buy | Sell | Hold | Wait | Rotate
  datatype WaitKind = ActiveWait | ConditionNotMet | EvidenceBlocked
  datatype Item = Item(scope: nat, asset: Asset, action: Action, waitKind: Option<WaitKind>, legs: seq<Leg>,
                       evidence: seq<Ref>, blockers: seq<nat>)
  datatype Recommendation = Recommendation(task: nat, items: seq<Item>)

  datatype Claim = QuantityClaim(why: Reason) | ProceedsClaim(why: Reason)
  datatype Blocker = Declared(text: nat) | Judgment(why: Reason)

  datatype LegState = Validated | DependentConditional | Blocked
  datatype LegOut = LegOut(leg: Leg, claims: seq<Claim>, state: LegState, spend: Option<real>, proceeds: Option<real>)
  datatype ItemState = ItemValidated | ItemBlocked | ItemNonTradingWait
  datatype ItemOut = ItemOut(scope: nat, asset: Asset, action: Action, blockers: seq<Blocker>, legs: seq<LegOut>, state: ItemState)

  /** What the loops accumulate: `used_cash`, `used_positions` and `ids`. */
  datatype Used = Used(cash: real, positions: map<Asset, real>, ids: set<nat>)

  function PositionUsed(u: Used, a: Asset): real {
    if a in u.positions then u.positions[a] else 0.0
  }

  // ---------------------------------------------------------------- instruments and fees

  function InstrumentsFor(rows: seq<Instrument>, a: Asset): seq<Instrument> {
    if rows == [] then []
    else if rows[0].asset == a then [rows[0]] + InstrumentsFor(rows[1..], a)
    else InstrumentsFor(rows[1..], a)
  }

  /** `_instrument`. */
  function StepFor(s: Source, a: Asset, at: int): (r: Result<real, Reason>)
    ensures r.Ok? ==> r.value > 0.0
  {
    var rows := InstrumentsFor(s.instruments, a);
    if |rows| != 1 then Err(InstrumentUnconfirmed)
    else if !Fresh(rows[0].clock, at) then Err(SourceStaleOrMissing)
    else if !rows[0].inScope then Err(AssetOutsideScope)
    else Number(rows[0].step, true)
  }

  function FeesFor(rows: seq<FeeRow>, a: Asset, side: Side): seq<FeeRow> {
    if rows == [] then []
    else if rows[0].asset == a && rows[0].side == side then [rows[0]] + FeesFor(rows[1..], a, side)
    else FeesFor(rows[1..], a, side)
  }

  /** `_fee` on the rows selected for the leg. */
  function FeeOf(rows: seq<FeeRow>, quantity: Option<real>, at: int): (r: Result<real, Reason>)
    ensures r.Ok? ==> r.value >= 0.0
  {
    if |rows| != 1 then Err(FeeUpperBoundUnknown)
    else if !Fresh(rows[0].clock, at) then Err(SourceStaleOrMissing)
    else
      var q :- Number(quantity, true);
      var most :- Number(rows[0].quantityMax, true);
      if q > most then Err(FeeBoundQuantityExceeded) else Number(rows[0].upperBound, false)
  }

  function Fee(s: Source, leg: Leg, at: int): (r: Result<real, Reason>)
    ensures r.Ok? ==> r.value >= 0.0
  {
    FeeOf(FeesFor(s.fees, leg.asset, leg.action), leg.quantity, at)
  }

  predicate MultipleOf(q: real, step: real)
    requires step > 0.0
  {
    (q / step).Floor as real == q / step
  }

  // ---------------------------------------------------------------- one leg

  /** The leg's quantity when it is confirmed, or the claim that blocks it. */
  function QuantityOf(s: Source, leg: Leg, at: int): (r: Result<real, Reason>)
    ensures r.Ok? ==> r.value > 0.0 && leg.quantity == Some(r.value)
  {
    var step :- StepFor(s, leg.asset, at);
    Number(leg.quantity, true)
  }

  /** A size that is not a multiple of the instrument's step rejects the portfolio. */
  predicate StepMismatch(s: Source, leg: Leg, at: int) {
    var step := StepFor(s, leg.asset, at);
    step.Ok? && Number(leg.quantity, true).Ok? && !MultipleOf(leg.quantity.value, step.value)
  }

  /** The limit price of the leg, `None` for a market order, or the rejection it causes. */
  function PriceOf(leg: Leg): (r: Result<Option<real>, Reason>)
    ensures r.Ok? && r.value.Some? ==> r.value.value > 0.0
  {
    if leg.orderType == LIMIT then
      if leg.limitPrice.None? then Err(LimitPriceRequired)
      else
        var p :- Number(leg.limitPrice, true);
        Ok(Some(p))
    else if leg.limitPrice.Some? then Err(MarketPriceIsNotABound)
    else Ok(None)
  }

  function ClaimIf<T>(r: Result<T, Reason>, tag: Reason -> Claim): seq<Claim> {
    if r.Err? then [tag(r.error)] else []
  }

  /** Upper bound of a fully specified purchase. */
  function SpendOf(quantity: Result<real, Reason>, price: Option<real>, fee: Result<real, Reason>): Option<real> {
    if quantity.Ok? && price.Some? && fee.Ok? then Some(quantity.value * price.value + fee.value) else None
  }

  /** The confirmations a leg depends on. */
  datatype Checks = Checks(quantity: Result<real, Reason>, fee: Result<real, Reason>, price: Option<real>, blocked: bool)

  function BuyClaims(c: Checks, cap: Result<Cap, Reason>, independent: bool): seq<Claim> {
    ClaimIf(c.quantity, why => QuantityClaim(why))
    + ClaimIf(c.fee, why => QuantityClaim(why))
    + (if c.price.None? then [QuantityClaim(PriceUpperBoundUnknown)] else [])
    + (if independent then ClaimIf(cap, why => QuantityClaim(why)) else [])
  }

  /** A BUY leg spends from the shared budget only when nothing at all blocks it. */
  function BuyLeg(leg: Leg, c: Checks, cap: Result<Cap, Reason>, u: Used): (LegOut, Used) {
    var claims := BuyClaims(c, cap, leg.dependents == []);
    var spend := SpendOf(c.quantity, c.price, c.fee);
    var state := if claims != [] || c.blocked then Blocked
                 else if leg.dependents != [] then DependentConditional
                 else Validated;
    var counted := leg.dependents == [] && claims == [] && !c.blocked && spend.Some?;
    (LegOut(leg, claims, state, spend, None),
     if counted then u.(cash := u.cash + spend.value) else u)
  }

  function SellClaims(c: Checks, available: Result<real, Reason>): seq<Claim> {
    ClaimIf(c.quantity, why => QuantityClaim(why))
    + ClaimIf(c.fee, why => ProceedsClaim(why))
    + ClaimIf(available, why => QuantityClaim(why))
  }

  function ProceedsOf(c: Checks): Option<real> {
    if c.quantity.Ok? && c.price.Some? && c.fee.Ok? then Some(c.quantity.value * c.price.value - c.fee.value) else None
  }

  /** A SELL leg reserves its quantity from the confirmed position whenever both are known. */
  function SellLeg(leg: Leg, c: Checks, available: Result<real, Reason>, u: Used): Result<(LegOut, Used), Reason> {
    var known := c.quantity.Ok? && available.Ok?;
    var u' := if known then u.(positions := u.positions[leg.asset := PositionUsed(u, leg.asset) + c.quantity.value]) else u;
    if known && PositionUsed(u', leg.asset) > available.value then Err(PositionReuseOrExcess)
    else
      Ok((LegOut(leg, SellClaims(c, available), if known && !c.blocked then Validated else Blocked, None, ProceedsOf(c)), u'))
  }

  function EvalLeg(k: Ranks, s: Source, cap: Result<Cap, Reason>, at: int, blocked: bool, leg: Leg, u: Used): Result<(LegOut, Used), Reason> {
    if leg.id in u.ids then Err(DuplicateLeg)
    else if StepMismatch(s, leg, at) then Err(QuantityStepMismatch)
    else
      var price :- PriceOf(leg);
      var u1 := u.(ids := u.ids + {leg.id});
      var checks := Checks(QuantityOf(s, leg, at), Fee(s, leg, at), price, blocked);
      if leg.action == BUY then Ok(BuyLeg(leg, checks, cap, u1))
      else SellLeg(leg, checks, PositionAvailable(k, s, leg.asset, at, true), u1)
  }

  /** The leg loop, over legs already in `leg_id` order. */
  function EvalLegs(k: Ranks, s: Source, cap: Result<Cap, Reason>, at: int, blocked: bool, legs: seq<Leg>, u: Used)
    : Result<(seq<LegOut>, Used), Reason>
  {
    if legs == [] then Ok(([], u))
    else
      var (before, u1) :- EvalLegs(k, s, cap, at, blocked, legs[..|legs| - 1], u);
      var (last, u2) :- EvalLeg(k, s, cap, at, blocked, legs[|legs| - 1], u1);
      Ok((before + [last], u2))
  }

  // ---------------------------------------------------------------- one item

  function KnownRefs(s: Source): set<Ref> {
    {BRIDGE, POSTURE} + (set r | r in s.fees :: r.clock.ref) + (set r | r in s.instruments :: r.clock.ref)
  }

  /** Every row behind a cited reference is fresh. */
  predicate RefFresh(s: Source, ref: Ref, at: int) {
    if ref == BRIDGE then Fresh(s.evidence, at)
    else if ref == POSTURE then s.posture.Some? && Fresh(s.posture.value, at)
    else && (forall r :: r in s.instruments && r.clock.ref == ref ==> Fresh(r.clock, at))
         && (forall r :: r in s.fees && r.clock.ref == ref ==> Fresh(r.clock, at))
  }

  function StaleRefs(s: Source, refs: seq<Ref>, at: int): seq<Blocker> {
    if refs == [] then []
    else StaleRefs(s, refs[..|refs| - 1], at)
         + (if RefFresh(s, refs[|refs| - 1], at) then [] else [Judgment(SourceStaleOrMissing)])
  }

  function DeclaredBlockers(texts: seq<nat>): seq<Blocker> {
    seq(|texts|, i requires 0 <= i < |texts| => Declared(texts[i]))
  }

  /** Declared blockers followed by the judgments the source checks add. */
  function BlockersOf(s: Source, item: Item, at: int): seq<Blocker> {
    var step := StepFor(s, item.asset, at);
    DeclaredBlockers(item.blockers) + (if step.Err? then [Judgment(step.error)] else []) + StaleRefs(s, item.evidence, at)
  }

  function EvidenceError(s: Source, item: Item): Option<Reason> {
    if item.evidence == [] || exists r :: r in item.evidence && r !in KnownRefs(s) then Some(EvidenceReferenceUnknown)
    else if BRIDGE !in item.evidence && POSTURE !in item.evidence then Some(InvestmentEvidenceRequired)
    else if POSTURE in item.evidence && s.posture.None? then Some(PostureEvidenceMissing)
    else None
  }

  /** The structural rules of each action. */
  function ActionError(k: Ranks, s: Source, scope: Scope, item: Item, blocked: bool, at: int): Option<Reason> {
    match item.action
    case Hold =>
      if scope.exposure != Existing || item.legs != [] || item.waitKind.Some? then Some(HoldScopeInvalid)
      else
        (match PositionAvailable(k, s, item.asset, at, false)
         case Err(e) => Some(e)
         case Ok(q) => if q > 0.0 then None else Some(HoldRequiresPosition))
    case Wait =>
      if scope.exposure != ProposedChange || item.legs != [] || item.waitKind.None? then Some(WaitScopeInvalid)
      else if item.waitKind == Some(EvidenceBlocked) && !blocked then Some(WaitBlockersRequired)
      else if item.waitKind != Some(EvidenceBlocked) && blocked then Some(ActiveWaitHasBlockers)
      else None
    case Rotate =>
      if item.waitKind.Some? then Some(TradeWaitKindInvalid)
      else if |item.legs| != 2 || item.legs[0].action == item.legs[1].action then Some(RotationLegsRequired)
      else
        var sell := if item.legs[0].action == SELL then item.legs[0] else item.legs[1];
        var buy := if item.legs[0].action == SELL then item.legs[1] else item.legs[0];
        if sell.asset == item.asset && buy.asset != sell.asset && sell.dependents == [] && buy.dependents == [sell.id]
        then None else Some(RotationDependencyInvalid)
    case _ =>
      if item.waitKind.Some? then Some(TradeWaitKindInvalid)
      else if |item.legs| != 1 || item.legs[0].action != (if item.action == Buy then BUY else SELL)
              || item.legs[0].asset != item.asset || item.legs[0].dependents != [] then Some(SingleTradeLegInvalid)
      else None
  }

  function ItemStateOf(item: Item, blockers: seq<Blocker>, legs: seq<LegOut>): ItemState {
    if item.action == Wait && item.waitKind == Some(EvidenceBlocked) && blockers == DeclaredBlockers(item.blockers)
    then ItemNonTradingWait
    else if blockers != [] || exists i :: 0 <= i < |legs| && legs[i].state == Blocked then ItemBlocked
    else ItemValidated
  }

  predicate LegOrder(x: Leg, y: Leg) {
    x.id <= y.id
  }

  function SortedLegs(item: Item): seq<Leg> {
    SortBy(item.legs, LegOrder)
  }

  function ScopeOf(scopes: seq<Scope>, id: nat): Option<Scope> {
    if scopes == [] then None
    else if scopes[0].id == id then Some(scopes[0])
    else ScopeOf(scopes[1..], id)
  }

  /** Rejections of an item before its legs are looked at. */
  function ItemError(k: Ranks, s: Source, at: int, item: Item): Option<Reason> {
    match ScopeOf(s.task.scopes, item.scope)
    case None => Some(CompleteUniqueScopesRequired)
    case Some(scope) =>
      if item.asset != scope.asset then Some(ScopeAssetMismatch)
      else if EvidenceError(s, item).Some? then EvidenceError(s, item)
      else if StepFor(s, item.asset, at) == Err(AssetOutsideScope) then Some(AssetOutsideScope)
      else ActionError(k, s, scope, item, BlockersOf(s, item, at) != [], at)
  }

  function EvalItem(k: Ranks, s: Source, cap: Result<Cap, Reason>, at: int, item: Item, u: Used): Result<(ItemOut, Used), Reason> {
    var e := ItemError(k, s, at, item);
    if e.Some? then Err(e.value)
    else
      var blockers := BlockersOf(s, item, at);
      var (legs, u') :- EvalLegs(k, s, cap, at, blockers != [], SortedLegs(item), u);
      Ok((ItemOut(item.scope, item.asset, item.action, blockers, legs, ItemStateOf(item, blockers, legs)), u'))
  }

  /** The item loop, over items already in `decision_scope` order. */
  function EvalItems(k: Ranks, s: Source, cap: Result<Cap, Reason>, at: int, items: seq<Item>): Result<(seq<ItemOut>, Used), Reason> {
    if items == [] then Ok(([], Used(0.0, map[], {})))
    else
      var (before, u) :- EvalItems(k, s, cap, at, items[..|items| - 1]);
      var (last, u') :- EvalItem(k, s, cap, at, items[|items| - 1], u);
      Ok((before + [last], u'))
  }

  // ---------------------------------------------------------------- the portfolio

  predicate ScopeOrder(x: Scope, y: Scope) {
    x.id <= y.id
  }

  /** `_canonical_source`. */
  function Canonical(k: Ranks, s: Source): Source {
    s.(instruments := k.SortedInstruments(s.instruments), fees := k.SortedFees(s.fees),
       task := s.task.(scopes := SortBy(s.task.scopes, ScopeOrder)),
       broker := if s.broker.None? then None
                 else Some(s.broker.value.(body := s.broker.value.body.(
                   holdings := k.SortedHoldings(s.broker.value.body.holdings),
                   orders := k.SortedOrders(s.broker.value.body.orders)))))
  }

  predicate HasDuplicateScope(scopes: seq<Scope>) {
    exists i, j :: 0 <= i < j < |scopes| && scopes[i].id == scopes[j].id
  }

  /** `validate_source`; the shape and privacy checks are typed away. */
  function ValidatedSource(k: Ranks, s: Source, at: int): Result<Source, Reason> {
    if !Fresh(s.task.clock, at) then Err(SourceStaleOrMissing)
    else if s.task.scopes == [] then Err(ScopesRequired)
    else if HasDuplicateScope(s.task.scopes) then Err(DuplicateScope)
    else Ok(Canonical(k, s))
  }

  predicate ItemOrder(x: Item, y: Item) {
    x.scope <= y.scope
  }

  datatype Validation = Validation(source: Source, cap: Result<Cap, Reason>, spend: real, items: seq<ItemOut>)

  /** As many items as scopes, and the same set of scope ids. */
  predicate ScopesMatch(s: Source, items: seq<Item>) {
    |items| == |s.task.scopes| && Elements(ItemScopes(items)) == Elements(ScopeIds(s.task.scopes))
  }

  function ItemScopes(items: seq<Item>): seq<nat> {
    seq(|items|, i requires 0 <= i < |items| => items[i].scope)
  }

  function ScopeIds(scopes: seq<Scope>): seq<nat> {
    seq(|scopes|, i requires 0 <= i < |scopes| => scopes[i].id)
  }

  function Accept(s: Source, cap: Result<Cap, Reason>, items: seq<ItemOut>, u: Used): Result<Validation, Reason> {
    if cap.Ok? && u.cash > cap.value.amount then Err(SharedBudgetExceeded)
    else Ok(Validation(s, cap, u.cash, items))
  }

  /** `validate_recommendation`. */
  function Validate(k: Ranks, r: Recommendation, source: Source, at: int): Result<Validation, Reason> {
    var s :- ValidatedSource(k, source, at);
    Allocate(k, r, s, at)
  }

  function Allocate(k: Ranks, r: Recommendation, s: Source, at: int): Result<Validation, Reason> {
    if r.task != s.task.id then Err(TaskLineageMismatch)
    else if !ScopesMatch(s, r.items) then Err(CompleteUniqueScopesRequired)
    else
      var cap := SpendingCap(k, s, at);
      var (items, u) :- EvalItems(k, s, cap, at, SortBy(r.items, ItemOrder));
      Accept(s, cap, items, u)
  }
}
