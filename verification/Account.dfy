/** The paper account: what one index holds, and the CALL/PUT fills that change it. */
module Account {
  import opened Common
  import opened Strategy

  /** A validated option contract; the account only carries it. */
  datatype Contract = Contract(tradingSymbol: string, strike: int, expiry: int)

  datatype AccountState = AccountState(
    cash: real, quantity: int, averagePrice: Option<real>, indexId: Option<string>, side: Option<Side>,
    lastEventAt: Option<int>, squareOffDate: Option<int>, stop: Option<real>, target: Option<real>,
    contract: Option<Contract>)

  const FRESH_ACCOUNT := AccountState(1000000.0, 0, None, None, None, None, None, None, None, None)

  /** Refused is the program's refusal; Crash is the division by a zero total quantity. */
  datatype FillResult = Filled(pnl: real) | Refused | Crash

  datatype OrderResult = Placed(pnl: real, price: real) | Failed | Crashed

  function EntrySide(k: Kind): Side
    requires k.EntryCall? || k.EntryPut?
  {
    if k.EntryCall? then Call else Put
  }

  /** The entry price of the open position, or the given price when there is none (or it is 0). */
  function PriceOr(a: AccountState, price: real): real {
    if a.averagePrice.Some? && a.averagePrice.value != 0.0 then a.averagePrice.value else price
  }

  /** The average price of q units at p and n units at price. */
  function Average(q: int, p: real, n: int, price: real): real
    requires q + n != 0
  {
    (q as real * p + n as real * price) / (q + n) as real
  }

  function Direction(s: Side): real { if s.Call? then 1.0 else -1.0 }

  /** P&L of closing n units entered at average. */
  function ExitPnl(side: Side, average: real, price: real, n: int): real {
    (price - average) * n as real * Direction(side)
  }

  function OpenFill(
      a: AccountState, side: Side, price: real, quantity: int, indexId: string, contract: Option<Contract>)
    : (AccountState, FillResult)
  {
    if a.quantity > 0 && a.side != Some(side) then (a, Refused)
    else if a.quantity + quantity == 0 then (a, Crash)
    else
      var cost := quantity as real * price;
      (a.(averagePrice := Some(Average(a.quantity, PriceOr(a, price), quantity, price)), side := Some(side),
          indexId := if a.quantity == 0 then Some(indexId) else a.indexId,
          contract := if a.quantity == 0 then contract else a.contract,
          quantity := a.quantity + quantity, cash := a.cash - cost), Filled(0.0))
  }

  function CloseFill(a: AccountState, price: real, quantity: int): (AccountState, FillResult) {
    if a.quantity == 0 || a.side.None? then (a, Refused)
    else
      var closed := if quantity < a.quantity then quantity else a.quantity;
      var pnl := ExitPnl(a.side.value, PriceOr(a, price), price, closed);
      var rest := a.(quantity := a.quantity - closed, cash := a.cash + closed as real * price);
      (if rest.quantity != 0 then rest
       else rest.(averagePrice := None, side := None, indexId := None, contract := None, stop := None, target := None),
       Filled(pnl))
  }

  function FillEvent(
      a: AccountState, kind: Kind, price: real, quantity: int, indexId: string, contract: Option<Contract>)
    : (AccountState, FillResult)
  {
    if kind.EntryCall? || kind.EntryPut? then OpenFill(a, EntrySide(kind), price, quantity, indexId, contract)
    else CloseFill(a, price, quantity)
  }

  /** Only a refusal becomes a failed order; a crash passes through. */
  function PlaceEvent(
      a: AccountState, kind: Kind, price: real, quantity: int, indexId: string, contract: Option<Contract>)
    : (AccountState, OrderResult)
  {
    var (next, r) := FillEvent(a, kind, price, quantity, indexId, contract);
    (next, match r case Filled(pnl) => Placed(pnl, price) case Refused => Failed case Crash => Crashed)
  }

  class SimulatedAccount {
    var cash: real
    var quantity: int
    var averagePrice: Option<real>
    var indexId: Option<string>
    var side: Option<Side>
    var lastEventAt: Option<int>
    var squareOffDate: Option<int>
    var stop: Option<real>
    var target: Option<real>
    var contract: Option<Contract>

    function View(): AccountState
      reads this
    {
      AccountState(cash, quantity, averagePrice, indexId, side, lastEventAt, squareOffDate, stop, target, contract)
    }

    constructor ()
      ensures View() == FRESH_ACCOUNT
    {
      cash, quantity := 1000000.0, 0;
      averagePrice, indexId, side := None, None, None;
      lastEventAt, squareOffDate, stop, target, contract := None, None, None, None, None;
    }

    method Fill(kind: Kind, price: real, amount: int, index: string, chosen: Option<Contract>) returns (r: FillResult)
      modifies this
      ensures (View(), r) == FillEvent(old(View()), kind, price, amount, index, chosen)
    {
      if kind.EntryCall? || kind.EntryPut? {
        var opening := EntrySide(kind);
        if quantity > 0 && side != Some(opening) {
          return Refused;
        }
        if quantity + amount == 0 {
          return Crash;
        }
        var cost := amount as real * price;
        averagePrice := Some(Average(quantity, PriceOr(View(), price), amount, price));
        side := Some(opening);
        if quantity == 0 {
          indexId, contract := Some(index), chosen;
        }
        quantity := quantity + amount;
        cash := cash - cost;
        return Filled(0.0);
      }
      if quantity == 0 || side.None? {
        return Refused;
      }
      var closed := if amount < quantity then amount else quantity;
      var pnl := ExitPnl(side.value, PriceOr(View(), price), price, closed);
      quantity := quantity - closed;
      cash := cash + closed as real * price;
      if quantity == 0 {
        averagePrice, side, indexId, contract, stop, target := None, None, None, None, None, None;
      }
      assert View() == CloseFill(old(View()), price, amount).0;
      return Filled(pnl);
    }

    method Place(kind: Kind, price: real, amount: int, index: string, chosen: Option<Contract>) returns (r: OrderResult)
      modifies this
      ensures (View(), r) == PlaceEvent(old(View()), kind, price, amount, index, chosen)
    {
      var f := Fill(kind, price, amount, index, chosen);
      match f
      case Filled(pnl) => r := Placed(pnl, price);
      case Refused => r := Failed;
      case Crash => r := Crashed;
    }
  }

  // ---------------------------------------------------------------- what a fill keeps

  /** A held account has a side and a positive entry price; a flat one carries nothing. */
  ghost predicate WellFormed(a: AccountState) {
    && a.quantity >= 0
    && (a.quantity > 0 <==> a.side.Some?)
    && (a.quantity > 0 <==> a.averagePrice.Some?)
    && (a.averagePrice.Some? ==> a.averagePrice.value > 0.0)
    && (a.quantity == 0 ==> a.indexId.None? && a.contract.None? && a.stop.None? && a.target.None?)
  }

  /** What the account is worth at its own entry price. */
  ghost function Book(a: AccountState): real {
    a.cash + (if a.averagePrice.Some? then a.quantity as real * a.averagePrice.value else 0.0)
  }

  /** A fill of a positive quantity (an entry at a positive price) keeps the account well formed
      and is refused exactly for an entry against the other side or an exit of nothing. An entry does
      not change the book value. An exit closes at most the position, keeps the price of the rest,
      realises the move from it on the closed part, and changes the book value by that P&L for a
      CALL and by its opposite for a PUT. */
  lemma FillLaws(a: AccountState, kind: Kind, price: real, quantity: int, indexId: string, contract: Option<Contract>)
    requires WellFormed(a) && quantity > 0
    requires kind.EntryCall? || kind.EntryPut? ==> price > 0.0
    ensures
      var (next, r) := FillEvent(a, kind, price, quantity, indexId, contract);
      var entry := kind.EntryCall? || kind.EntryPut?;
      && WellFormed(next)
      && !r.Crash?
      && (r.Refused? <==> if entry then a.side.Some? && a.side.value != EntrySide(kind) else a.quantity == 0)
      && (r.Refused? ==> next == a)
      && (r.Filled? && entry ==> r.pnl == 0.0 && Book(next) == Book(a) && next.quantity == a.quantity + quantity)
      && (r.Filled? && !entry ==>
            && next.quantity == (if quantity < a.quantity then a.quantity - quantity else 0)
            && (next.quantity > 0 ==> next.averagePrice == a.averagePrice && next.side == a.side)
            && r.pnl ==
                 Direction(a.side.value) * ((price - a.averagePrice.value) * (a.quantity - next.quantity) as real)
            && Book(next) - Book(a) == Direction(a.side.value) * r.pnl)
    ensures
      var (next, r) := FillEvent(a, kind, price, quantity, indexId, contract);
      var entry := kind.EntryCall? || kind.EntryPut?;
      && next.lastEventAt == a.lastEventAt && next.squareOffDate == a.squareOffDate
      && (r.Filled? && entry ==>
            && next.side == Some(if kind.EntryCall? then Call else Put)
            && next.stop == a.stop && next.target == a.target
            && next.indexId == (if a.quantity == 0 then Some(indexId) else a.indexId)
            && next.contract == (if a.quantity == 0 then contract else a.contract))
      && (r.Filled? && !entry && next.quantity > 0 ==>
            && next.indexId == a.indexId && next.contract == a.contract
            && next.stop == a.stop && next.target == a.target)
  {
  }

  lemma OpenLaws(
      a: AccountState, side: Side, price: real, quantity: int, indexId: string, contract: Option<Contract>)
    requires WellFormed(a) && price > 0.0 && quantity > 0 && (a.quantity == 0 || a.side == Some(side))
    ensures
      var (next, r) := OpenFill(a, side, price, quantity, indexId, contract);
      r == Filled(0.0) && WellFormed(next) && Book(next) == Book(a)
      && next.quantity == a.quantity + quantity && (a.quantity == 0 ==> next.averagePrice == Some(price))
  {
  }

  /** Over a round trip the cash gained is the realised P&L exactly for a CALL or at an
      unchanged price: a PUT's cash moves opposite to its P&L. */
  lemma RoundTripCash(
      a: AccountState, side: Side, entry: real, exit: real, quantity: int, indexId: string, contract: Option<Contract>)
    requires WellFormed(a) && a.quantity == 0 && quantity > 0 && entry > 0.0
    ensures
      var held := OpenFill(a, side, entry, quantity, indexId, contract).0;
      var (closed, r) := CloseFill(held, exit, quantity);
      && r.Filled? && closed.quantity == 0
      && r.pnl == (exit - entry) * quantity as real * Direction(side)
      && (closed.cash - a.cash == r.pnl <==> side.Call? || exit == entry)
  {
  }
}
