/** Position, cash and cost basis as src/accounting_engine.cpp keeps them. */
module Accounting {
  import opened Types
  import opened Arithmetic

  datatype Account = Account(
    netQty: int, avgPrice: int, realized: int, unrealized: int,
    cash: int, openCost: int, mark: int)

  const FLAT := Account(0, 0, 0, 0, 0, 0, 0)

  function Signed(f: Fill): int {
    Sign(f.side) * f.quantity
  }

  /** The four ways a fill can meet a position. */
  datatype Effect = Opens | Closes | Reduces | Flips

  function EffectOf(net: int, delta: int): Effect {
    if net == 0 || ((net > 0) == (delta > 0)) then Opens
    else if net + delta == 0 then Closes
    else if (net + delta > 0) == (net > 0) then Reduces
    else Flips
  }

  function Refreshed(a: Account): Account {
    if a.netQty == 0 then a.(openCost := 0, avgPrice := 0, unrealized := 0, realized := a.cash)
    else a.(avgPrice := Abs(a.openCost) / Abs(a.netQty),
            unrealized := a.netQty * a.mark - a.openCost,
            realized := a.cash + a.openCost)
  }

  function NextCost(cost: int, net: int, delta: int, price: int): int {
    match EffectOf(net, delta)
    case Opens => cost + delta * price
    case Closes => 0
    case Reduces => TruncDiv(cost * Abs(net + delta), Abs(net))
    case Flips => (net + delta) * price
  }

  function Filled(a: Account, f: Fill): Account {
    if f.quantity <= 0 then a
    else Refreshed(a.(netQty := a.netQty + Signed(f),
                      cash := a.cash - Signed(f) * f.price,
                      openCost := NextCost(a.openCost, a.netQty, Signed(f), f.price)))
  }

  function Marked(a: Account, mid: int): Account {
    Refreshed(a.(mark := mid))
  }

  class AccountingEngine {
    var netQty: int
    var avgPrice: int
    var realizedPnl: int
    var unrealizedPnl: int
    var cash: int
    var openCost: int
    var markPrice: int

    function State(): Account
      reads this
    {
      Account(netQty, avgPrice, realizedPnl, unrealizedPnl, cash, openCost, markPrice)
    }

    constructor ()
      ensures State() == FLAT
    {
      netQty, avgPrice, realizedPnl, unrealizedPnl := 0, 0, 0, 0;
      cash, openCost, markPrice := 0, 0, 0;
    }

    method ApplyFill(f: Fill) returns (ok: bool)
      modifies this
      ensures ok == (f.quantity > 0)
      ensures State() == Filled(old(State()), f)
    {
      if f.quantity <= 0 {
        return false;
      }
      var signedQty := Sign(f.side) * f.quantity;
      var currentQty := netQty;
      cash := cash - signedQty * f.price;
      var residual := currentQty + signedQty;
      if currentQty == 0 || ((currentQty > 0) == (signedQty > 0)) {
        openCost := openCost + signedQty * f.price;
      } else if residual == 0 {
        openCost := 0;
      } else if (residual > 0) == (currentQty > 0) {
        openCost := TruncDiv(openCost * Abs(residual), Abs(currentQty));
      } else {
        openCost := residual * f.price;
      }
      netQty := residual;
      RefreshDerived();
      return true;
    }

    method MarkToMarket(mid: int)
      modifies this
      ensures State() == Marked(old(State()), mid)
    {
      markPrice := mid;
      RefreshDerived();
    }

    method RefreshDerived()
      modifies this
      ensures State() == Refreshed(old(State()))
    {
      if netQty == 0 {
        openCost := 0;
        avgPrice := 0;
        unrealizedPnl := 0;
      } else {
        avgPrice := Abs(openCost) / Abs(netQty);
        unrealizedPnl := netQty * markPrice - openCost;
      }
      realizedPnl := cash + openCost;
    }
  }

  // ---------------------------------------------------------------------------
  // What fills and marks keep
  // ---------------------------------------------------------------------------

  /** The derived fields are up to date. */
  ghost predicate Derived(a: Account) {
    a == Refreshed(a)
  }

  /** The documented rule: realized and unrealized PnL together are cash plus the marked position. */
  lemma Reconciles(a: Account)
    requires Derived(a)
    ensures a.realized + a.unrealized == a.cash + a.netQty * a.mark
    ensures a.netQty == 0 ==> a.openCost == a.avgPrice == a.unrealized == 0 && a.realized == a.cash
  {
    if a.netQty == 0 {
      assert a.netQty * a.mark == 0;
    }
  }

  /** What the displayed figures mean: PnL splits at the open cost, and the average price is the cost per
      unit held, rounded down. */
  ghost predicate Stated(a: Account) {
    && a.realized == a.cash + a.openCost
    && a.unrealized == a.netQty * a.mark - a.openCost
    && (a.netQty == 0 ==> a.openCost == 0 && a.avgPrice == 0)
    && (a.netQty != 0 ==> a.avgPrice * Abs(a.netQty) <= Abs(a.openCost) < (a.avgPrice + 1) * Abs(a.netQty))
  }

  lemma DerivedIsStated(a: Account)
    requires Derived(a)
    ensures Stated(a)
  {
    if a.netQty == 0 {
      assert a.netQty * a.mark == 0;
    } else {
      DivBounds(Abs(a.openCost), Abs(a.netQty));
    }
  }

  lemma StepsKeepDerived(a: Account, f: Fill, mid: int)
    requires Derived(a)
    ensures Derived(Filled(a, f)) && Derived(Marked(a, mid))
  {
  }

  /** Everything a mark leaves alone: position, cost, cash, average price and realized PnL. */
  function Core(a: Account): (int, int, int, int, int) {
    (a.netQty, a.openCost, a.cash, a.avgPrice, a.realized)
  }

  lemma MarkKeepsCore(a: Account, mid: int)
    requires Derived(a)
    ensures Core(Marked(a, mid)) == Core(a)
  {
  }

  lemma FillRespectsCore(a: Account, b: Account, f: Fill)
    requires Core(a) == Core(b)
    ensures Core(Filled(a, f)) == Core(Filled(b, f))
  {
  }

  /** Folding the engine over a list of fills. */
  function Replayed(fills: seq<Fill>): Account {
    if fills == [] then FLAT else Filled(Replayed(fills[..|fills| - 1]), fills[|fills| - 1])
  }

  /** The figures after any fills. */
  lemma {:induction false} FiguresAreStated(fills: seq<Fill>)
    ensures Derived(Replayed(fills)) && Stated(Replayed(fills))
  {
    if fills == [] {
    } else {
      FiguresAreStated(fills[..|fills| - 1]);
      StepsKeepDerived(Replayed(fills[..|fills| - 1]), fills[|fills| - 1], 0);
      DerivedIsStated(Replayed(fills));
    }
  }

  /** Units bought less units sold, and the money paid for them, over the accepted fills. */
  function Bought(fills: seq<Fill>): (int, int) {
    if fills == [] then (0, 0)
    else
      var (units, paid) := Bought(fills[..|fills| - 1]);
      var f := fills[|fills| - 1];
      if f.quantity <= 0 then (units, paid) else (units + Signed(f), paid + Signed(f) * f.price)
  }

  /** Position and cash are plain sums of the fills, whatever opening, closing and flipping did to the cost. */
  lemma {:induction false} PositionAndCashAreSums(fills: seq<Fill>)
    ensures Replayed(fills).netQty == Bought(fills).0
    ensures Replayed(fills).cash == -Bought(fills).1
  {
    if fills == [] {
    } else {
      PositionAndCashAreSums(fills[..|fills| - 1]);
    }
  }
}
