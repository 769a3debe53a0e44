/** Orders that separate the rows of a capital source exist, prices and quantities being real numbers. */
module CapitalOrders {
  import opened Common
  import opened Sorting
  import opened CapitalModel

  predicate LexAtMost(a: seq<real>, b: seq<real>) {
    a == [] || (b != [] && (a[0] < b[0] || (a[0] == b[0] && LexAtMost(a[1..], b[1..]))))
  }

  lemma {:induction false} LexTotal(a: seq<real>, b: seq<real>)
    ensures LexAtMost(a, b) || LexAtMost(b, a)
  {
    if a != [] && b != [] {
      LexTotal(a[1..], b[1..]);
    }
  }

  lemma {:induction false} LexTransitive(a: seq<real>, b: seq<real>, c: seq<real>)
    requires LexAtMost(a, b) && LexAtMost(b, c)
    ensures LexAtMost(a, c)
  {
    if a != [] && a[0] == b[0] == c[0] {
      LexTransitive(a[1..], b[1..], c[1..]);
    }
  }

  lemma {:induction false} LexSeparates(a: seq<real>, b: seq<real>)
    requires LexAtMost(a, b) && LexAtMost(b, a)
    ensures a == b
  {
    if a != [] {
      LexSeparates(a[1..], b[1..]);
      assert a == [a[0]] + a[1..] && b == [b[0]] + b[1..];
    }
  }

  /** Rows compared by their codes. */
  function ByCode<T(!new)>(code: T -> seq<real>): (T, T) -> bool {
    (x, y) => LexAtMost(code(x), code(y))
  }

  lemma CodesSeparate<T(!new)>(code: T -> seq<real>)
    requires forall x, y :: code(x) == code(y) ==> x == y
    ensures Separates(ByCode(code))
  {
    var le := ByCode(code);
    forall x, y ensures le(x, y) || le(y, x) {
      LexTotal(code(x), code(y));
    }
    forall x, y, z | le(x, y) && le(y, z) ensures le(x, z) {
      LexTransitive(code(x), code(y), code(z));
    }
    forall x, y | le(x, y) && le(y, x) ensures x == y {
      LexSeparates(code(x), code(y));
    }
  }

  function Flag(b: bool): real {
    if b then 1.0 else 0.0
  }

  function Or0(o: Option<real>): real {
    if o.Some? then o.value else 0.0
  }

  function InstrumentCode(i: Instrument): seq<real> {
    [i.asset as real, Flag(i.inScope), Flag(i.step.Some?), Or0(i.step), i.clock.ref as real, i.clock.asOf as real, i.clock.validUntil as real]
  }

  function FeeCode(f: FeeRow): seq<real> {
    [f.asset as real, Flag(f.side == BUY), Flag(f.quantityMax.Some?), Or0(f.quantityMax), Flag(f.upperBound.Some?), Or0(f.upperBound),
     f.clock.ref as real, f.clock.asOf as real, f.clock.validUntil as real]
  }

  function HoldingCode(h: Holding): seq<real> {
    [h.asset as real, h.quantity]
  }

  function OrderCode(o: OpenOrder): seq<real> {
    [o.asset as real, Flag(o.side == BUY), Flag(o.isLimit), o.quantity, Flag(o.filled.Some?), Or0(o.filled), Flag(o.remaining.Some?),
     Or0(o.remaining), Flag(o.limitPrice.Some?), Or0(o.limitPrice)]
  }

  lemma InstrumentsCoded(x: Instrument, y: Instrument)
    requires InstrumentCode(x) == InstrumentCode(y)
    ensures x == y
  {
    var a, b := InstrumentCode(x), InstrumentCode(y);
    assert a[0] == b[0] && a[1] == b[1] && a[2] == b[2] && a[3] == b[3] && a[4] == b[4] && a[5] == b[5] && a[6] == b[6];
  }

  lemma FeesCoded(x: FeeRow, y: FeeRow)
    requires FeeCode(x) == FeeCode(y)
    ensures x == y
  {
    var a, b := FeeCode(x), FeeCode(y);
    assert a[0] == b[0] && a[1] == b[1] && a[2] == b[2] && a[3] == b[3] && a[4] == b[4] && a[5] == b[5] && a[6] == b[6];
    assert a[7] == b[7] && a[8] == b[8];
  }

  lemma HoldingsCoded(x: Holding, y: Holding)
    requires HoldingCode(x) == HoldingCode(y)
    ensures x == y
  {
    assert HoldingCode(x)[0] == HoldingCode(y)[0] && HoldingCode(x)[1] == HoldingCode(y)[1];
  }

  lemma OrdersCoded(x: OpenOrder, y: OpenOrder)
    requires OrderCode(x) == OrderCode(y)
    ensures x == y
  {
    var a, b := OrderCode(x), OrderCode(y);
    assert a[0] == b[0] && a[1] == b[1] && a[2] == b[2] && a[3] == b[3] && a[4] == b[4] && a[5] == b[5] && a[6] == b[6];
    assert a[7] == b[7] && a[8] == b[8] && a[9] == b[9];
  }

  /** Some orders of instruments, fee rows, holdings and open orders separate all of them. */
  lemma RanksExist()
    ensures Ranks(ByCode(InstrumentCode), ByCode(FeeCode), ByCode(HoldingCode), ByCode(OrderCode)).Valid()
  {
    forall x, y | InstrumentCode(x) == InstrumentCode(y) ensures x == y { InstrumentsCoded(x, y); }
    forall x, y | FeeCode(x) == FeeCode(y) ensures x == y { FeesCoded(x, y); }
    forall x, y | HoldingCode(x) == HoldingCode(y) ensures x == y { HoldingsCoded(x, y); }
    forall x, y | OrderCode(x) == OrderCode(y) ensures x == y { OrdersCoded(x, y); }
    CodesSeparate(InstrumentCode);
    CodesSeparate(FeeCode);
    CodesSeparate(HoldingCode);
    CodesSeparate(OrderCode);
  }
}
