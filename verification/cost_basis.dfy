/** How far the truncating cost basis can stray: average price, price envelope, drift. */
module CostBasis {
  import opened Types
  import opened Accounting
  import opened Arithmetic

  // ---------------------------------------------------------------------------
  // Exact reference: average-cost accounting over the rationals
  // ---------------------------------------------------------------------------

  /** `prices` and `reductions` cover the time since the position was last flat or flipped. */
  datatype Exact = Exact(qty: int, basis: real, prices: seq<int>, reductions: nat)

  const NOTHING := Exact(0, 0.0, [], 0)

  /** Does a fill on this side add to the position? */
  predicate Adds(qty: int, side: Side) {
    qty == 0 || (qty > 0 <==> side == Buy)
  }

  function ExactFill(x: Exact, f: Fill): Exact {
    var rest := if f.side == Buy then x.qty + f.quantity else x.qty - f.quantity;
    if Adds(x.qty, f.side) then
      Exact(rest, x.basis + (f.quantity * f.price) as real, x.prices + [f.price], x.reductions)
    else if f.quantity == Abs(x.qty) then NOTHING
    else if f.quantity < Abs(x.qty) then
      Exact(rest, x.basis * (Abs(rest) as real / Abs(x.qty) as real), x.prices, x.reductions + 1)
    else Exact(rest, (Abs(rest) * f.price) as real, [f.price], 0)
  }

  function ExactLedger(fills: seq<Fill>): Exact {
    if fills == [] then NOTHING
    else
      var prior := ExactLedger(fills[..|fills| - 1]);
      var f := fills[|fills| - 1];
      if f.quantity <= 0 then prior else ExactFill(prior, f)
  }

  ghost predicate PositivePrices(fills: seq<Fill>) {
    forall i :: 0 <= i < |fills| ==> fills[i].price > 0
  }

  /** The cost has the sign of the position. */
  ghost predicate SameSign(a: Account) {
    && (a.netQty > 0 ==> a.openCost >= 0)
    && (a.netQty < 0 ==> a.openCost <= 0)
    && (a.netQty == 0 ==> a.openCost == 0)
  }

  // ---------------------------------------------------------------------------
  // Arithmetic of one truncated reduction
  // ---------------------------------------------------------------------------

  /** One reduction keeps per-unit bounds. */
  lemma ReducedCostBounds(c: int, r: int, q: int, lo: int, hi: int)
    requires 0 < r <= q && 0 <= lo && lo * q <= c <= hi * q
    ensures lo * r <= c * r / q <= hi * r
  {
    var b := c * r / q;
    DivBounds(c * r, q);
    MulLe(lo * q, c, r);
    MulSwap(lo, q, r);
    LtCancel(lo * r, b + 1, q);
    MulLe(c, hi * q, r);
    MulSwap(hi, q, r);
    LtCancel(b, hi * r + 1, q);
  }

  lemma SplitQuotient(k: int, rem: int, q: int)
    requires q > 0
    ensures (k * q + rem) as real / q as real == k as real + rem as real / q as real
  {
    assert (k * q + rem) as real == k as real * q as real + rem as real;
  }

  lemma FractionBelowOne(rem: int, q: int)
    requires 0 <= rem < q
    ensures 0.0 <= rem as real / q as real < 1.0
  {
  }

  /** The fraction one truncation discards. */
  lemma TruncationLoss(n: int, q: int)
    requires n >= 0 && q > 0
    ensures 0.0 <= n as real / q as real - (n / q) as real < 1.0
  {
    DivBounds(n, q);
    var k, rem := n / q, n - (n / q) * q;
    SplitQuotient(k, rem, q);
    FractionBelowOne(rem, q);
  }

  lemma RatioInUnit(r: int, q: int)
    requires 0 < r <= q
    ensures 0.0 <= r as real / q as real <= 1.0
  {
  }

  lemma ScaleDown(x: real, t: real)
    requires x >= 0.0 && 0.0 <= t <= 1.0
    ensures 0.0 <= x * t <= x
  {
  }

  lemma Distribute(x: real, y: real, t: real)
    ensures (x + y) * t == x * t + y * t
  {
  }

  lemma RatioOfProduct(c: int, r: int, q: int)
    requires q > 0
    ensures (c * r) as real / q as real == c as real * (r as real / q as real)
  {
    assert (c * r) as real == c as real * r as real;
  }

  lemma ReductionLoss(c: int, r: int, q: int)
    requires c >= 0 && 0 < r <= q
    ensures 0.0 <= c as real * (r as real / q as real) - (c * r / q) as real < 1.0
  {
    ProductSign(c, r);
    TruncationLoss(c * r, q);
    RatioOfProduct(c, r, q);
  }

  /** A reduction scales the existing shortfall down and adds less than one unit to it. */
  lemma DriftStep(cost: real, gap: real, t: real, kept: real)
    requires 0.0 <= t <= 1.0 && 0.0 <= gap
    requires 0.0 <= cost * t - kept < 1.0
    ensures 0.0 <= (cost + gap) * t - kept < gap + 1.0
  {
    ScaleDown(gap, t);
    Distribute(cost, gap, t);
  }

  // ---------------------------------------------------------------------------
  // Main results
  // ---------------------------------------------------------------------------

  /** A fill that closes part of a position. */
  predicate PartialClose(qty: int, f: Fill) {
    !Adds(qty, f.side) && 0 < f.quantity < Abs(qty)
  }

  lemma AbsProduct(c: int, r: int)
    requires r >= 0
    ensures Abs(c * r) == Abs(c) * r
  {
  }

  /** A partial close leaves the displayed average exactly as it was, on every account. */
  lemma ReductionKeepsAverage(a: Account, f: Fill)
    requires Derived(a) && PartialClose(a.netQty, f)
    ensures Filled(a, f).avgPrice == a.avgPrice
    ensures Filled(a, f).netQty != 0
  {
    var r := Abs(a.netQty + Signed(f));
    var q := Abs(a.netQty);
    AbsProduct(a.openCost, r);
    NestedFloor(Abs(a.openCost), r, q);
  }

  /** The magnitude of the cost after a fill, whatever the sign of the position. */
  function CostMagnitude(cost: int, net: int, f: Fill): int {
    match EffectOf(net, Signed(f))
    case Opens => cost + f.quantity * f.price
    case Closes => 0
    case Reduces => cost * Abs(net + Signed(f)) / Abs(net)
    case Flips => Abs(net + Signed(f)) * f.price
  }

  lemma SignedProduct(q: int, side: Side, price: int)
    ensures Sign(side) * q * price == Sign(side) * (q * price)
  {
  }

  lemma OpenedCost(cost: int, net: int, f: Fill)
    requires f.quantity > 0 && f.price > 0 && EffectOf(net, Signed(f)) == Opens
    requires (net > 0 ==> cost >= 0) && (net < 0 ==> cost <= 0) && (net == 0 ==> cost == 0)
    ensures var c := NextCost(cost, net, Signed(f), f.price);
      Abs(c) == Abs(cost) + f.quantity * f.price && (if net + Signed(f) > 0 then c >= 0 else c <= 0)
  {
    ProductSign(f.quantity, f.price);
    SignedProduct(f.quantity, f.side, f.price);
  }

  lemma ReducedCost(cost: int, net: int, f: Fill)
    requires f.quantity > 0 && EffectOf(net, Signed(f)) == Reduces
    ensures var c := NextCost(cost, net, Signed(f), f.price);
      && Abs(c) == Abs(cost) * Abs(net + Signed(f)) / Abs(net)
      && (cost >= 0 ==> c >= 0) && (cost <= 0 ==> c <= 0)
  {
    AbsProduct(cost, Abs(net + Signed(f)));
    ProductSign(cost, Abs(net + Signed(f)));
  }

  lemma FlippedCost(cost: int, net: int, f: Fill)
    requires f.price > 0 && EffectOf(net, Signed(f)) == Flips
    ensures var c := NextCost(cost, net, Signed(f), f.price);
      && Abs(c) == Abs(net + Signed(f)) * f.price
      && (net + Signed(f) >= 0 ==> c >= 0) && (net + Signed(f) <= 0 ==> c <= 0)
  {
    AbsProduct(net + Signed(f), f.price);
    ProductSign(net + Signed(f), f.price);
  }

  lemma CostAfter(a: Account, f: Fill)
    requires SameSign(a) && f.quantity > 0 && f.price > 0
    ensures SameSign(Filled(a, f)) && Filled(a, f).netQty == a.netQty + Signed(f)
    ensures Abs(Filled(a, f).openCost) == CostMagnitude(Abs(a.openCost), a.netQty, f)
  {
    hide NextCost;
    assert Signed(f) == f.quantity || Signed(f) == -f.quantity;
    match EffectOf(a.netQty, Signed(f))
    case Opens => OpenedCost(a.openCost, a.netQty, f);
    case Closes =>
    case Reduces => ReducedCost(a.openCost, a.netQty, f);
    case Flips => FlippedCost(a.openCost, a.netQty, f);
  }

  ghost predicate Bounded(prices: seq<int>, lo: int, hi: int) {
    forall i :: 0 <= i < |prices| ==> lo <= prices[i] <= hi
  }

  ghost predicate PerUnit(cost: int, qty: int, lo: int, hi: int) {
    lo * qty <= cost <= hi * qty
  }

  lemma OpenKeepsPerUnit(cost: int, qty: int, more: int, price: int, lo: int, hi: int)
    requires PerUnit(cost, qty, lo, hi) && more >= 0 && lo <= price <= hi
    ensures PerUnit(cost + more * price, qty + more, lo, hi)
  {
    MulLe(lo, price, more);
    MulLe(price, hi, more);
  }

  lemma FlipPerUnit(qty: int, price: int, lo: int, hi: int)
    requires qty >= 0 && lo <= price <= hi
    ensures PerUnit(qty * price, qty, lo, hi)
  {
    MulLe(lo, price, qty);
    MulLe(price, hi, qty);
  }

  lemma {:induction false} SidesAgree(fills: seq<Fill>)
    requires PositivePrices(fills)
    ensures SameSign(Replayed(fills)) && ExactLedger(fills).qty == Replayed(fills).netQty
  {
    if fills == [] {
    } else {
      var prior, f := fills[..|fills| - 1], fills[|fills| - 1];
      SidesAgree(prior);
      if f.quantity > 0 {
        CostAfter(Replayed(prior), f);
      }
    }
  }

  lemma EnvelopeStep(cost: int, x: Exact, f: Fill, lo: int, hi: int)
    requires cost >= 0 && f.quantity > 0 && f.price > 0 && 0 <= lo
    requires Bounded(x.prices, lo, hi) ==> PerUnit(cost, Abs(x.qty), lo, hi)
    requires Bounded(ExactFill(x, f).prices, lo, hi)
    ensures PerUnit(CostMagnitude(cost, x.qty, f), Abs(x.qty + Signed(f)), lo, hi)
  {
    var rest := x.qty + Signed(f);
    match EffectOf(x.qty, Signed(f))
    case Opens =>
      assert (x.prices + [f.price])[|x.prices|] == f.price;
      assert forall i :: 0 <= i < |x.prices| ==> (x.prices + [f.price])[i] == x.prices[i];
      OpenKeepsPerUnit(cost, Abs(x.qty), f.quantity, f.price, lo, hi);
    case Closes =>
    case Reduces => ReducedCostBounds(cost, Abs(rest), Abs(x.qty), lo, hi);
    case Flips =>
      assert [f.price][0] == f.price;
      FlipPerUnit(Abs(rest), f.price, lo, hi);
  }

  /** Cost per unit stays between the extreme prices paid since the position was last flat or flipped. */
  lemma {:induction false} PriceEnvelope(fills: seq<Fill>, lo: int, hi: int)
    requires PositivePrices(fills)
    requires 0 <= lo && Bounded(ExactLedger(fills).prices, lo, hi)
    ensures PerUnit(Abs(Replayed(fills).openCost), Abs(Replayed(fills).netQty), lo, hi)
  {
    if fills == [] {
    } else {
      var prior, f := fills[..|fills| - 1], fills[|fills| - 1];
      if Bounded(ExactLedger(prior).prices, lo, hi) {
        PriceEnvelope(prior, lo, hi);
      }
      if f.quantity > 0 {
        SidesAgree(prior);
        CostAfter(Replayed(prior), f);
        EnvelopeStep(Abs(Replayed(prior).openCost), ExactLedger(prior), f, lo, hi);
      }
    }
  }

  lemma AverageBetween(avg: int, cost: int, q: int, lo: int, hi: int)
    requires q > 0 && avg * q <= cost < (avg + 1) * q && lo * q <= cost <= hi * q
    ensures lo <= avg <= hi
  {
    LtCancel(lo, avg + 1, q);
    MulLt(hi, hi + 1, q);
    LtCancel(avg, hi + 1, q);
  }

  /** So the displayed average lies between the extreme prices paid. */
  lemma AverageWithinPrices(fills: seq<Fill>, lo: int, hi: int)
    requires PositivePrices(fills) && Replayed(fills).netQty != 0
    requires 0 <= lo && Bounded(ExactLedger(fills).prices, lo, hi)
    ensures lo <= Replayed(fills).avgPrice <= hi
  {
    hide Replayed, ExactLedger, Bounded;
    var a := Replayed(fills);
    PriceEnvelope(fills, lo, hi);
    FiguresAreStated(fills);
    AverageBetween(a.avgPrice, Abs(a.openCost), Abs(a.netQty), lo, hi);
  }

  /** How far the kept cost may be below the exact basis after `n` reductions. */
  ghost predicate ShortBy(cost: int, basis: real, n: nat) {
    && 0.0 <= basis - cost as real
    && (if n == 0 then basis == cost as real else basis - cost as real < n as real)
  }

  lemma OpenKeepsShort(cost: int, basis: real, n: nat, more: int)
    requires ShortBy(cost, basis, n)
    ensures ShortBy(cost + more, basis + more as real, n)
  {
  }

  lemma ReduceKeepsShort(cost: int, basis: real, n: nat, r: int, q: int)
    requires ShortBy(cost, basis, n) && cost >= 0 && 0 < r <= q
    ensures ShortBy(cost * r / q, basis * (r as real / q as real), n + 1)
  {
    RatioInUnit(r, q);
    ReductionLoss(cost, r, q);
    DriftStep(cost as real, basis - cost as real, r as real / q as real, (cost * r / q) as real);
  }

  lemma DriftFill(cost: int, x: Exact, f: Fill)
    requires cost >= 0 && f.quantity > 0 && f.price > 0
    requires ShortBy(cost, x.basis, x.reductions)
    ensures ShortBy(CostMagnitude(cost, x.qty, f), ExactFill(x, f).basis, ExactFill(x, f).reductions)
  {
    match EffectOf(x.qty, Signed(f))
    case Opens => OpenKeepsShort(cost, x.basis, x.reductions, f.quantity * f.price);
    case Closes =>
    case Reduces => ReduceKeepsShort(cost, x.basis, x.reductions, Abs(x.qty + Signed(f)), Abs(x.qty));
    case Flips =>
  }

  /** The kept cost never exceeds the exact basis and is short of it by less than one unit per reduction. */
  lemma {:induction false} TruncationDrift(fills: seq<Fill>)
    requires PositivePrices(fills)
    ensures ShortBy(Abs(Replayed(fills).openCost), ExactLedger(fills).basis, ExactLedger(fills).reductions)
  {
    if fills == [] {
    } else {
      var prior, f := fills[..|fills| - 1], fills[|fills| - 1];
      TruncationDrift(prior);
      if f.quantity > 0 {
        SidesAgree(prior);
        CostAfter(Replayed(prior), f);
        DriftFill(Abs(Replayed(prior).openCost), ExactLedger(prior), f);
      }
    }
  }

  /** What closing `closed` of `qty` units at `price` earns a long whose exact average is cost/qty. */
  function ExactGain(cost: int, qty: int, closed: int, price: int): real
    requires qty > 0
  {
    (closed * price) as real - cost as real * (closed as real / qty as real)
  }

  lemma SplitShare(c: int, r: int, s: int, q: int)
    requires q > 0 && r + s == q
    ensures c as real * (r as real / q as real) + c as real * (s as real / q as real) == c as real
  {
    assert r as real / q as real + s as real / q as real == 1.0;
    Distribute(r as real / q as real, s as real / q as real, c as real);
  }

  lemma GainRounding(cost: int, r: int, closed: int, price: int)
    requires cost >= 0 && r > 0 && closed > 0
    ensures var gain := closed * price - (cost - cost * r / (r + closed));
      -1.0 < gain as real - ExactGain(cost, r + closed, closed, price) <= 0.0
  {
    ReductionLoss(cost, r, r + closed);
    SplitShare(cost, r, closed, r + closed);
  }

  /** Proceeds less the cost released, seen from the side of the position. */
  lemma RealizedChange(a: Account, f: Fill)
    requires Derived(a) && SameSign(a) && PartialClose(a.netQty, f) && f.price > 0
    ensures var change := f.quantity * f.price - (Abs(a.openCost) - Abs(Filled(a, f).openCost));
      Filled(a, f).realized - a.realized == if a.netQty > 0 then change else -change
  {
    CostAfter(a, f);
  }

  /** A partial close realizes the exact amount rounded down for a long, up for a short. */
  lemma RealizedRounding(a: Account, f: Fill)
    requires Derived(a) && SameSign(a) && PartialClose(a.netQty, f) && f.price > 0
    ensures var exact := ExactGain(Abs(a.openCost), Abs(a.netQty), f.quantity, f.price);
      var realized := (Filled(a, f).realized - a.realized) as real;
      if a.netQty > 0 then -1.0 < realized - exact <= 0.0 else 0.0 <= realized + exact < 1.0
  {
    RealizedChange(a, f);
    CostAfter(a, f);
    GainRounding(Abs(a.openCost), Abs(a.netQty + Signed(f)), f.quantity, f.price);
  }
}
