/** FIFO matching of confirmed live fills into round trips and open lots, symbol by symbol.
    Quantities are whole units, for which the program's 1e-9 threshold is exactly zero. */
module Pnl {
  import opened Common

  datatype OrderSide = Buy | Sell | NoSide

  datatype OrderOutcome = Success | Partial | Failed | Cancelled | Timeout | Unknown

  /** A recorded order; the empty symbol stands for a missing one. */
  datatype Order = Order(
    live: bool, outcome: OrderOutcome, symbol: string, side: OrderSide, quantity: int, filledQuantity: int,
    price: Option<real>, createdAt: int)

  datatype Lot = Lot(side: OrderSide, quantity: int, price: real, openedAt: int)

  datatype Matched = Matched(
    symbol: string, quantity: int, entryPrice: real, exitPrice: real, pnl: real, long: bool, entryTime: int,
    closedAt: int)

  datatype Book = Book(trades: seq<Matched>, lots: map<string, seq<Lot>>)

  /** The fills that are matched; an order without a known price is skipped, not guessed. */
  predicate Counts(o: Order) {
    o.live && o.outcome.Success? && o.symbol != "" && (o.side.Buy? || o.side.Sell?) && o.quantity > 0 && o.price.Some?
  }

  function LotsOf(b: Book, symbol: string): seq<Lot> { if symbol in b.lots then b.lots[symbol] else [] }

  ghost predicate Positive(lots: seq<Lot>) {
    forall i :: 0 <= i < |lots| ==> lots[i].quantity > 0 && (lots[i].side.Buy? || lots[i].side.Sell?)
  }

  /** Open lots never offset each other: all are on one side. */
  ghost predicate OneSided(lots: seq<Lot>) {
    Positive(lots) && forall i, j :: 0 <= i < j < |lots| ==> lots[i].side == lots[j].side
  }

  function Profit(lot: Lot, price: real, n: int): real {
    (if lot.side.Buy? then price - lot.price else lot.price - price) * n as real
  }

  function TradeFrom(lot: Lot, o: Order, n: int): Matched
    requires o.price.Some?
  {
    Matched(o.symbol, n, lot.price, o.price.value, Profit(lot, o.price.value, n), lot.side.Buy?, lot.openedAt,
            o.createdAt)
  }

  /** The matches of an order against the queue, what is left of the queue and of the order. */
  datatype Match = Match(trades: seq<Matched>, lots: seq<Lot>, remaining: int)

  function MinInt(a: int, b: int): int { if a <= b then a else b }

  function AfterHead(lots: seq<Lot>, n: int): seq<Lot>
    requires lots != []
  {
    var rest := lots[0].quantity - n;
    if rest <= 0 then lots[1..] else [lots[0].(quantity := rest)] + lots[1..]
  }

  function MatchOrder(lots: seq<Lot>, o: Order, remaining: int): Match
    requires Positive(lots) && o.price.Some? && remaining >= 0
    decreases |lots| + remaining
  {
    if remaining > 0 && lots != [] && lots[0].side != o.side then
      var n := MinInt(lots[0].quantity, remaining);
      var m := MatchOrder(AfterHead(lots, n), o, remaining - n);
      Match([TradeFrom(lots[0], o, n)] + m.trades, m.lots, m.remaining)
    else Match([], lots, remaining)
  }

  function WithRest(m: Match, o: Order): seq<Lot>
    requires o.price.Some?
  {
    if m.remaining > 0 then m.lots + [Lot(o.side, m.remaining, o.price.value, o.createdAt)] else m.lots
  }

  ghost predicate ValidBook(b: Book) { forall s :: s in b.lots ==> OneSided(b.lots[s]) }

  function ApplyOrder(b: Book, o: Order): Book
    requires ValidBook(b)
  {
    if !Counts(o) then b
    else
      var m := MatchOrder(LotsOf(b, o.symbol), o, o.quantity);
      Book(b.trades + m.trades, b.lots[o.symbol := WithRest(m, o)])
  }

  /** A quantity with its sign: bought units count positive, sold ones negative. */
  function Signed(side: OrderSide, n: int): int { if side.Buy? then n else if side.Sell? then -n else 0 }

  /** A signed quantity at a price. */
  function Amount(side: OrderSide, n: int, price: real): real { Signed(side, n) as real * price }

  function SignedQuantity(lots: seq<Lot>): int {
    if |lots| == 0 then 0 else Signed(lots[0].side, lots[0].quantity) + SignedQuantity(lots[1..])
  }

  function LotCost(lot: Lot): real { Amount(lot.side, lot.quantity, lot.price) }

  function Cost(lots: seq<Lot>): real { if |lots| == 0 then 0.0 else LotCost(lots[0]) + Cost(lots[1..]) }

  function Earned(trades: seq<Matched>): real { if |trades| == 0 then 0.0 else trades[0].pnl + Earned(trades[1..]) }

  function Volume(trades: seq<Matched>): int {
    if |trades| == 0 then 0 else trades[0].quantity + Volume(trades[1..])
  }

  /** Closing n units of a lot at a price moves its cost into profit and cash. */
  lemma HeadBalance(lot: Lot, price: real, n: int, side: OrderSide)
    requires (lot.side.Buy? && side.Sell?) || (lot.side.Sell? && side.Buy?)
    ensures Profit(lot, price, n)
      == LotCost(lot.(quantity := lot.quantity - n)) - LotCost(lot) - Amount(side, n, price)
  {
  }

  lemma AmountAdds(side: OrderSide, a: int, b: int, price: real)
    ensures Amount(side, a + b, price) == Amount(side, a, price) + Amount(side, b, price)
    ensures Amount(side, 0, price) == 0.0
  {
  }

  lemma AfterHeadBalance(lots: seq<Lot>, price: real, n: int, side: OrderSide)
    requires OneSided(lots) && lots != [] && 0 < n <= lots[0].quantity
    requires (side.Buy? || side.Sell?) && lots[0].side != side
    ensures OneSided(AfterHead(lots, n))
    ensures SignedQuantity(AfterHead(lots, n)) == SignedQuantity(lots) + Signed(side, n)
    ensures Profit(lots[0], price, n) == Cost(AfterHead(lots, n)) - Cost(lots) - Amount(side, n, price)
    ensures forall i :: 0 <= i < |AfterHead(lots, n)| ==> AfterHead(lots, n)[i].side == lots[0].side
  {
    hide Profit, Amount;
    HeadBalance(lots[0], price, n, side);
    var next := AfterHead(lots, n);
    if n == lots[0].quantity {
      AmountAdds(lots[0].side, 0, 0, lots[0].price);
    } else {
      assert next[0] == lots[0].(quantity := lots[0].quantity - n) && next[1..] == lots[1..];
    }
  }

  /** One order against the queue: the lots stay on one side, quantity is conserved, and the
      profit is the change of the lots' cost less the signed cash of the matched part. */
  ghost predicate Balanced(lots: seq<Lot>, o: Order, remaining: int, m: Match)
    requires o.price.Some?
  {
    && OneSided(m.lots) && 0 <= m.remaining <= remaining
    && (m.remaining > 0 ==> forall i :: 0 <= i < |m.lots| ==> m.lots[i].side == o.side)
    && SignedQuantity(m.lots) == SignedQuantity(lots) + Signed(o.side, remaining - m.remaining)
    && Volume(m.trades) == remaining - m.remaining
    && Earned(m.trades) == Cost(m.lots) - Cost(lots) - Amount(o.side, remaining - m.remaining, o.price.value)
  }

  lemma EarnedCons(t: Matched, ts: seq<Matched>)
    ensures Earned([t] + ts) == t.pnl + Earned(ts)
    ensures Volume([t] + ts) == t.quantity + Volume(ts)
  {
  }

  lemma BalanceStep(lots: seq<Lot>, o: Order, remaining: int, n: int, m: Match)
    requires OneSided(lots) && lots != [] && 0 < n <= lots[0].quantity && n <= remaining
    requires o.price.Some? && (o.side.Buy? || o.side.Sell?) && lots[0].side != o.side
    requires Balanced(AfterHead(lots, n), o, remaining - n, m)
    ensures Balanced(lots, o, remaining, Match([TradeFrom(lots[0], o, n)] + m.trades, m.lots, m.remaining))
  {
    hide Cost, LotCost, Profit, SignedQuantity, Amount, Earned, Volume, AfterHead;
    AfterHeadBalance(lots, o.price.value, n, o.side);
    EarnedCons(TradeFrom(lots[0], o, n), m.trades);
    AmountAdds(o.side, n, remaining - n - m.remaining, o.price.value);
  }

  lemma {:induction false} MatchLaws(lots: seq<Lot>, o: Order, remaining: int)
    requires OneSided(lots) && o.price.Some? && remaining >= 0 && (o.side.Buy? || o.side.Sell?)
    ensures Balanced(lots, o, remaining, MatchOrder(lots, o, remaining))
    decreases |lots| + remaining
  {
    if remaining > 0 && lots != [] && lots[0].side != o.side {
      hide Balanced, Profit;
      var n := MinInt(lots[0].quantity, remaining);
      AfterHeadBalance(lots, o.price.value, n, o.side);
      MatchLaws(AfterHead(lots, n), o, remaining - n);
      BalanceStep(lots, o, remaining, n, MatchOrder(AfterHead(lots, n), o, remaining - n));
    } else {
      AmountAdds(o.side, 0, 0, o.price.value);
    }
  }

  lemma {:induction false} SignedSnoc(lots: seq<Lot>, x: Lot)
    ensures SignedQuantity(lots + [x]) == SignedQuantity(lots) + Signed(x.side, x.quantity)
    ensures Cost(lots + [x]) == Cost(lots) + LotCost(x)
  {
    hide LotCost;
    if |lots| == 0 {
      assert lots + [x] == [x];
      assert [x][1..] == [];
    } else {
      assert (lots + [x])[1..] == lots[1..] + [x];
      SignedSnoc(lots[1..], x);
    }
  }

  /** The whole order: matched part and rest together. */
  lemma OrderLaws(lots: seq<Lot>, o: Order)
    requires OneSided(lots) && Counts(o)
    ensures
      var m := MatchOrder(lots, o, o.quantity);
      var next := WithRest(m, o);
      && OneSided(next)
      && SignedQuantity(next) == SignedQuantity(lots) + Signed(o.side, o.quantity)
      && Earned(m.trades) == Cost(next) - Cost(lots) - Amount(o.side, o.quantity, o.price.value)
  {
    hide Cost, SignedQuantity, Amount, Earned, MatchOrder;
    MatchLaws(lots, o, o.quantity);
    var m := MatchOrder(lots, o, o.quantity);
    if m.remaining > 0 {
      SignedSnoc(m.lots, Lot(o.side, m.remaining, o.price.value, o.createdAt));
      AmountAdds(o.side, o.quantity - m.remaining, m.remaining, o.price.value);
    }
  }

  lemma ApplyValid(b: Book, o: Order)
    requires ValidBook(b)
    ensures ValidBook(ApplyOrder(b, o))
  {
    if Counts(o) {
      OrderLaws(LotsOf(b, o.symbol), o);
    }
  }

  function Replay(orders: seq<Order>): (b: Book)
    ensures ValidBook(b)
  {
    if |orders| == 0 then Book([], map[])
    else
      var before := Replay(orders[..|orders| - 1]);
      ApplyValid(before, orders[|orders| - 1]);
      ApplyOrder(before, orders[|orders| - 1])
  }

  /** One unfolding of the matching, with the trades so far in front. */
  lemma MatchStep(trades: seq<Matched>, lots: seq<Lot>, o: Order, remaining: int)
    requires Positive(lots) && o.price.Some? && remaining > 0 && lots != [] && lots[0].side != o.side
    ensures
      var n := MinInt(lots[0].quantity, remaining);
      var m, rest := MatchOrder(lots, o, remaining), MatchOrder(AfterHead(lots, n), o, remaining - n);
      && m.trades == [TradeFrom(lots[0], o, n)] + rest.trades && m.trades[1..] == rest.trades
      && trades + m.trades == trades + [TradeFrom(lots[0], o, n)] + rest.trades
      && m.lots == rest.lots && m.remaining == rest.remaining
  {
  }

  lemma HeadCases(lots: seq<Lot>, n: int)
    requires lots != []
    ensures AfterHead(lots, n) ==
      if lots[0].quantity - n <= 0 then lots[1..] else [lots[0].(quantity := lots[0].quantity - n)] + lots[1..]
    ensures |AfterHead(lots, n)| <= |lots|
  {
  }

  lemma MatchDone(trades: seq<Matched>, lots: seq<Lot>, o: Order, remaining: int)
    requires Positive(lots) && o.price.Some? && remaining >= 0
    requires remaining == 0 || lots == [] || lots[0].side == o.side
    ensures MatchOrder(lots, o, remaining) == Match([], lots, remaining) && trades + [] == trades
  {
  }

  // ---------------------------------------------------------------- the program's loops

  /** The inner loop: close the queue's head until the order is used up or the sides agree. */
  method MatchLoop(lots0: seq<Lot>, o: Order) returns (m: Match)
    requires OneSided(lots0) && Counts(o)
    ensures m == MatchOrder(lots0, o, o.quantity)
  {
    hide MatchOrder, TradeFrom, AfterHead, SignedQuantity, Cost, Amount, Profit;
    var lots, remaining, trades := lots0, o.quantity, [];
    assert trades + MatchOrder(lots, o, remaining).trades == MatchOrder(lots, o, remaining).trades;
    while remaining > 0 && lots != [] && lots[0].side != o.side
      invariant OneSided(lots) && remaining >= 0
      invariant MatchOrder(lots0, o, o.quantity) ==
        var m := MatchOrder(lots, o, remaining); Match(trades + m.trades, m.lots, m.remaining)
      decreases |lots| + remaining
    {
      var n := MinInt(lots[0].quantity, remaining);
      AfterHeadBalance(lots, o.price.value, n, o.side);
      MatchStep(trades, lots, o, remaining);
      HeadCases(lots, n);
      trades := trades + [TradeFrom(lots[0], o, n)];
      var left := lots[0].quantity - n;
      remaining := remaining - n;
      lots := if left <= 0 then lots[1..] else [lots[0].(quantity := left)] + lots[1..];
    }
    m := Match(trades, lots, remaining);
    MatchDone(trades, lots, o, remaining);
  }

  method FifoMatch(orders: seq<Order>) returns (trades: seq<Matched>, lots: map<string, seq<Lot>>)
    ensures Book(trades, lots) == Replay(orders)
  {
    trades, lots := [], map[];
    for i := 0 to |orders|
      invariant Book(trades, lots) == Replay(orders[..i])
    {
      var o := orders[i];
      assert orders[..i + 1][..i] == orders[..i];
      if Counts(o) {
        assert ValidBook(Book(trades, lots));
        var queue := if o.symbol in lots then lots[o.symbol] else [];
        var m := MatchLoop(queue, o);
        trades := trades + m.trades;
        lots := lots[o.symbol := if m.remaining > 0 then m.lots + [Lot(o.side, m.remaining, o.price.value, o.createdAt)]
                                 else m.lots];
      }
    }
    assert orders[..|orders|] == orders;
  }

  // ---------------------------------------------------------------- conservation over a history

  function Net(orders: seq<Order>, symbol: string): int {
    if |orders| == 0 then 0
    else
      var o := orders[|orders| - 1];
      Net(orders[..|orders| - 1], symbol) + (if Counts(o) && o.symbol == symbol then Signed(o.side, o.quantity) else 0)
  }

  /** Cash paid for buys is negative, cash received for sells positive. */
  function CashFlow(orders: seq<Order>, symbol: string): real {
    if |orders| == 0 then 0.0
    else
      var o := orders[|orders| - 1];
      CashFlow(orders[..|orders| - 1], symbol) -
      (if Counts(o) && o.symbol == symbol then Amount(o.side, o.quantity, o.price.value) else 0.0)
  }

  /** Realised P&L of one symbol. */
  function EarnedOn(trades: seq<Matched>, symbol: string): real {
    if |trades| == 0 then 0.0
    else (if trades[0].symbol == symbol then trades[0].pnl else 0.0) + EarnedOn(trades[1..], symbol)
  }

  lemma {:induction false} EarnedOnConcat(a: seq<Matched>, b: seq<Matched>, symbol: string)
    ensures EarnedOn(a + b, symbol) == EarnedOn(a, symbol) + EarnedOn(b, symbol)
  {
    if |a| == 0 {
      assert a + b == b;
    } else {
      assert (a + b)[1..] == a[1..] + b;
      EarnedOnConcat(a[1..], b, symbol);
    }
  }

  lemma {:induction false} EarnedOnMatch(lots: seq<Lot>, o: Order, remaining: int, symbol: string)
    requires Positive(lots) && o.price.Some? && remaining >= 0
    ensures EarnedOn(MatchOrder(lots, o, remaining).trades, symbol)
         == if o.symbol == symbol then Earned(MatchOrder(lots, o, remaining).trades) else 0.0
    decreases |lots| + remaining
  {
    hide Profit;
    if remaining > 0 && lots != [] && lots[0].side != o.side {
      var n := MinInt(lots[0].quantity, remaining);
      EarnedOnMatch(AfterHead(lots, n), o, remaining - n, symbol);
      var all := MatchOrder(lots, o, remaining).trades;
      assert all[1..] == MatchOrder(AfterHead(lots, n), o, remaining - n).trades;
    }
  }

  /** FIFO conservation, for every history and every symbol: the open lots are on one side with
      positive quantities, their signed sum is the net filled quantity, and the realised P&L is
      the net cash flow plus the signed cost of what is still open. */
  lemma {:induction false} FifoConservation(orders: seq<Order>, symbol: string)
    ensures
      var b := Replay(orders);
      var lots := LotsOf(b, symbol);
      && OneSided(lots)
      && SignedQuantity(lots) == Net(orders, symbol)
      && EarnedOn(b.trades, symbol) == CashFlow(orders, symbol) + Cost(lots)
  {
    hide ApplyOrder, SignedQuantity, Cost, EarnedOn, Amount;
    if |orders| == 0 {
      NothingOpen(symbol);
    } else {
      var n := |orders| - 1;
      FifoConservation(orders[..n], symbol);
      ConservationStep(Replay(orders[..n]), orders[n], symbol);
    }
  }

  lemma NothingOpen(symbol: string)
    ensures LotsOf(Book([], map[]), symbol) == []
    ensures SignedQuantity([]) == 0 && Cost([]) == 0.0 && EarnedOn([], symbol) == 0.0
  {
  }

  lemma ConservationStep(b: Book, o: Order, symbol: string)
    requires ValidBook(b)
    ensures
      var next := ApplyOrder(b, o);
      var mine := Counts(o) && o.symbol == symbol;
      && ValidBook(next)
      && SignedQuantity(LotsOf(next, symbol))
           == SignedQuantity(LotsOf(b, symbol)) + (if mine then Signed(o.side, o.quantity) else 0)
      && EarnedOn(next.trades, symbol) - Cost(LotsOf(next, symbol))
           == EarnedOn(b.trades, symbol) - Cost(LotsOf(b, symbol))
              - (if mine then Amount(o.side, o.quantity, o.price.value) else 0.0)
  {
    hide SignedQuantity, Cost, Earned, EarnedOn, MatchOrder, WithRest, Amount;
    ApplyValid(b, o);
    if Counts(o) {
      var lots := LotsOf(b, o.symbol);
      OrderLaws(lots, o);
      EarnedOnMatch(lots, o, o.quantity, symbol);
      EarnedOnConcat(b.trades, MatchOrder(lots, o, o.quantity).trades, symbol);
    }
  }

  // ---------------------------------------------------------------- where a round trip comes from

  /** A real order, filled in full at a known price. */
  predicate Confirmed(o: Order) {
    o.live && o.outcome == Success && o.symbol != "" && o.side != NoSide && o.price != None && 0 < o.quantity
  }

  /** A lot opened by order j. */
  ghost predicate OpenedBy(lot: Lot, o: Order) {
    && Confirmed(o) && lot.side == o.side && Some(lot.price) == o.price && lot.openedAt == o.createdAt
    && 0 < lot.quantity <= o.quantity
  }

  /** A round trip opened by one order and closed by a later one of the other side: its prices and times are
      theirs, and its P&L is its own price difference, in its own direction, times its quantity. */
  ghost predicate TripOf(t: Matched, opening: Order, closing: Order) {
    && Confirmed(opening) && Confirmed(closing) && opening.symbol == closing.symbol == t.symbol
    && opening.side != closing.side && (t.long <==> opening.side.Buy?)
    && Some(t.entryPrice) == opening.price && t.entryTime == opening.createdAt
    && Some(t.exitPrice) == closing.price && t.closedAt == closing.createdAt
    && 0 < t.quantity <= opening.quantity && t.quantity <= closing.quantity
    && t.pnl == (if t.long then t.exitPrice - t.entryPrice else t.entryPrice - t.exitPrice) * t.quantity as real
  }

  ghost predicate LotsFrom(lots: seq<Lot>, orders: seq<Order>, symbol: string) {
    forall i :: 0 <= i < |lots| ==> LotFrom(lots[i], orders, symbol)
  }

  ghost predicate LotFrom(lot: Lot, orders: seq<Order>, symbol: string) {
    exists j :: 0 <= j < |orders| && orders[j].symbol == symbol && OpenedBy(lot, orders[j])
  }

  ghost predicate TripFrom(t: Matched, orders: seq<Order>) {
    exists j, k :: 0 <= j < k < |orders| && TripOf(t, orders[j], orders[k])
  }

  lemma HeadLeft(lots: seq<Lot>, n: int, orders: seq<Order>, symbol: string)
    requires lots != [] && LotsFrom(lots, orders, symbol) && 0 < n <= lots[0].quantity
    ensures LotsFrom(AfterHead(lots, n), orders, symbol)
  {
    var next := AfterHead(lots, n);
    if lots[0].quantity - n > 0 {
      var j :| 0 <= j < |orders| && orders[j].symbol == symbol && OpenedBy(lots[0], orders[j]);
      assert OpenedBy(next[0], orders[j]);
      assert forall i :: 0 < i < |next| ==> next[i] == lots[i];
    } else {
      assert forall i :: 0 <= i < |next| ==> next[i] == lots[i + 1];
    }
  }

  lemma TripMade(lot: Lot, opening: Order, o: Order, n: int)
    requires OpenedBy(lot, opening) && Counts(o) && lot.side != o.side && opening.symbol == o.symbol
    requires 0 < n <= lot.quantity && n <= o.quantity
    ensures TripOf(TradeFrom(lot, o, n), opening, o)
  {
  }

  lemma {:induction false} MatchTrips(lots: seq<Lot>, orders: seq<Order>, remaining: int)
    requires |orders| > 0 && Positive(lots)
    requires
      var n := |orders| - 1;
      Counts(orders[n]) && 0 <= remaining <= orders[n].quantity && LotsFrom(lots, orders[..n], orders[n].symbol)
    ensures
      var n := |orders| - 1;
      var m := MatchOrder(lots, orders[n], remaining);
      && m.remaining <= remaining && LotsFrom(m.lots, orders[..n], orders[n].symbol)
      && forall i :: 0 <= i < |m.trades| ==> TripFrom(m.trades[i], orders)
    decreases |lots| + remaining
  {
    hide TradeFrom, OpenedBy, TripOf;
    var n := |orders| - 1;
    var o := orders[n];
    if remaining > 0 && lots != [] && lots[0].side != o.side {
      var q := MinInt(lots[0].quantity, remaining);
      HeadPositive(lots, q);
      HeadLeft(lots, q, orders[..n], o.symbol);
      MatchTrips(AfterHead(lots, q), orders, remaining - q);
      MatchStep([], lots, o, remaining);
      var j :| 0 <= j < n && orders[..n][j].symbol == o.symbol && OpenedBy(lots[0], orders[..n][j]);
      TripMade(lots[0], orders[j], o, q);
      assert TripFrom(TradeFrom(lots[0], o, q), orders);
    } else {
      MatchDone([], lots, o, remaining);
    }
  }

  lemma LotsStay(lots: seq<Lot>, orders: seq<Order>, o: Order, symbol: string)
    requires LotsFrom(lots, orders, symbol)
    ensures LotsFrom(lots, orders + [o], symbol)
  {
    forall i | 0 <= i < |lots|
      ensures LotFrom(lots[i], orders + [o], symbol)
    {
      assert LotFrom(lots[i], orders, symbol);
      var j :| 0 <= j < |orders| && orders[j].symbol == symbol && OpenedBy(lots[i], orders[j]);
      assert (orders + [o])[j] == orders[j];
    }
  }

  lemma TripStays(t: Matched, orders: seq<Order>, o: Order)
    requires TripFrom(t, orders)
    ensures TripFrom(t, orders + [o])
  {
    var j, k :| 0 <= j < k < |orders| && TripOf(t, orders[j], orders[k]);
    assert (orders + [o])[j] == orders[j] && (orders + [o])[k] == orders[k];
  }

  lemma RestOpened(m: Match, orders: seq<Order>)
    requires |orders| > 0 && Counts(orders[|orders| - 1]) && m.remaining <= orders[|orders| - 1].quantity
    requires LotsFrom(m.lots, orders, orders[|orders| - 1].symbol)
    ensures LotsFrom(WithRest(m, orders[|orders| - 1]), orders, orders[|orders| - 1].symbol)
  {
    var o := orders[|orders| - 1];
    if m.remaining > 0 {
      var lots := WithRest(m, o);
      assert OpenedBy(lots[|m.lots|], o);
      forall i | 0 <= i < |lots|
        ensures LotFrom(lots[i], orders, o.symbol)
      {
        if i < |m.lots| {
          assert lots[i] == m.lots[i];
        } else {
          assert orders[|orders| - 1] == o;
        }
      }
    }
  }

  /** Every round trip of every history is made of one of its orders and a later one; every open lot is what is
      left of one of its orders. */
  lemma {:induction false} TripsFromOrders(orders: seq<Order>)
    ensures forall i :: 0 <= i < |Replay(orders).trades| ==> TripFrom(Replay(orders).trades[i], orders)
    ensures forall s :: s in Replay(orders).lots ==> LotsFrom(Replay(orders).lots[s], orders, s)
  {
    hide MatchOrder, WithRest, LotsFrom, TripFrom;
    if |orders| > 0 {
      var n := |orders| - 1;
      var o, before, after := orders[n], Replay(orders[..n]), Replay(orders);
      TripsFromOrders(orders[..n]);
      assert orders == orders[..n] + [o];
      forall i | 0 <= i < |before.trades|
        ensures TripFrom(before.trades[i], orders)
      {
        TripStays(before.trades[i], orders[..n], o);
      }
      forall s | s in before.lots
        ensures LotsFrom(before.lots[s], orders, s)
      {
        LotsStay(before.lots[s], orders[..n], o, s);
      }
      if Counts(o) {
        var lots := LotsOf(before, o.symbol);
        NoLots(orders[..n], o.symbol);
        MatchTrips(lots, orders, o.quantity);
        var m := MatchOrder(lots, o, o.quantity);
        LotsStay(m.lots, orders[..n], o, o.symbol);
        RestOpened(m, orders);
      }
    }
  }

  lemma NoLots(orders: seq<Order>, symbol: string)
    ensures LotsFrom([], orders, symbol)
  {
  }

  // ---------------------------------------------------------------- costs

  /** Rates in percent, but the flat brokerage per leg. */
  datatype CostModel = CostModel(brokerage: real, sttOnSell: real, exchange: real, gst: real, stampOnBuy: real)

  function Percent(value: real, rate: real): real { value * rate / 100.0 }

  /** The costs of a round trip bought and sold at these values. */
  function TradeCosts(buyValue: real, sellValue: real, c: CostModel): real {
    var brokerage := c.brokerage * 2.0;
    var exchange := Percent(buyValue + sellValue, c.exchange);
    brokerage + Percent(sellValue, c.sttOnSell) + exchange + Percent(buyValue, c.stampOnBuy) +
    Percent(brokerage + exchange, c.gst)
  }

  /** The buy leg is the entry of a long round trip and the exit of a short one. */
  function CostsOf(t: Matched, c: Option<CostModel>): real {
    var entryValue, exitValue := t.entryPrice * t.quantity as real, t.exitPrice * t.quantity as real;
    if c.None? then 0.0
    else if t.long then TradeCosts(entryValue, exitValue, c.value)
    else TradeCosts(exitValue, entryValue, c.value)
  }

  function NetPnl(t: Matched, c: Option<CostModel>): real { t.pnl - CostsOf(t, c) }

  function TotalCosts(trades: seq<Matched>, c: Option<CostModel>): real {
    if |trades| == 0 then 0.0 else CostsOf(trades[0], c) + TotalCosts(trades[1..], c)
  }

  function NetTotal(trades: seq<Matched>, c: Option<CostModel>): real {
    if |trades| == 0 then 0.0 else NetPnl(trades[0], c) + NetTotal(trades[1..], c)
  }

  /** The net total is what was earned less the costs; without a cost model it is what was earned. */
  lemma {:induction false} NetIsEarnedLessCosts(trades: seq<Matched>, c: Option<CostModel>)
    ensures NetTotal(trades, c) == Earned(trades) - TotalCosts(trades, c)
    ensures c.None? ==> NetTotal(trades, c) == Earned(trades)
  {
    hide TradeCosts;
    if |trades| > 0 {
      NetIsEarnedLessCosts(trades[1..], c);
    }
  }

  /** Which leg pays what: the transaction tax is on what was sold, the stamp duty on what was bought, each
      exchange charge on both, and the flat brokerage on each leg; the service tax on brokerage and charges. What
      was sold is the exit of a long round trip and the entry of a short one. */
  lemma LegsTaxed(t: Matched, c: CostModel)
    ensures
      var bought := (if t.long then t.entryPrice else t.exitPrice) * t.quantity as real;
      var sold := (if t.long then t.exitPrice else t.entryPrice) * t.quantity as real;
      var charged := c.brokerage + c.brokerage + (bought + sold) * c.exchange / 100.0;
      CostsOf(t, Some(c)) ==
        charged + charged * c.gst / 100.0 + sold * c.sttOnSell / 100.0 + bought * c.stampOnBuy / 100.0
  {
  }

  lemma PercentAdds(x: real, y: real, rate: real)
    ensures Percent(x + y, rate) == Percent(x, rate) + Percent(y, rate)
  {
  }

  /** Costs by value add up, but each match pays its own two legs: splitting a round trip over two lots
      costs exactly one more brokerage for two legs, with its tax. */
  lemma SplitCosts(buy1: real, sell1: real, buy2: real, sell2: real, c: CostModel)
    ensures TradeCosts(buy1, sell1, c) + TradeCosts(buy2, sell2, c)
      == TradeCosts(buy1 + buy2, sell1 + sell2, c) + c.brokerage * 2.0 + Percent(c.brokerage * 2.0, c.gst)
  {
    hide Percent;
    var b := c.brokerage * 2.0;
    var e1, e2 := Percent(buy1 + sell1, c.exchange), Percent(buy2 + sell2, c.exchange);
    PercentAdds(sell1, sell2, c.sttOnSell);
    PercentAdds(buy1, buy2, c.stampOnBuy);
    PercentAdds(buy1 + sell1, buy2 + sell2, c.exchange);
    assert buy1 + buy2 + (sell1 + sell2) == buy1 + sell1 + (buy2 + sell2);
    PercentAdds(b, e1, c.gst);
    PercentAdds(b, e2, c.gst);
    PercentAdds(b, e1 + e2, c.gst);
    PercentAdds(e1, e2, c.gst);
  }

  // ---------------------------------------------------------------- first in, first out

  ghost predicate Ordered(times: seq<int>) { forall i, j :: 0 <= i < j < |times| ==> times[i] <= times[j] }

  function OpenTimes(lots: seq<Lot>): (r: seq<int>) { seq(|lots|, i requires 0 <= i < |lots| => lots[i].openedAt) }

  function EntryTimes(trades: seq<Matched>, symbol: string): seq<int> {
    if |trades| == 0 then []
    else (if trades[0].symbol == symbol then [trades[0].entryTime] else []) + EntryTimes(trades[1..], symbol)
  }

  lemma {:induction false} EntryTimesConcat(a: seq<Matched>, b: seq<Matched>, symbol: string)
    ensures EntryTimes(a + b, symbol) == EntryTimes(a, symbol) + EntryTimes(b, symbol)
  {
    if |a| == 0 {
      assert a + b == b;
    } else {
      assert (a + b)[1..] == a[1..] + b;
      EntryTimesConcat(a[1..], b, symbol);
      var head := if a[0].symbol == symbol then [a[0].entryTime] else [];
      Associates(head, EntryTimes(a[1..], symbol), EntryTimes(b, symbol));
    }
  }

  lemma Associates(x: seq<int>, y: seq<int>, z: seq<int>)
    ensures x + (y + z) == x + y + z
  {
  }

  /** Matching takes lots from the front: what was closed opened no later than what remains. */
  lemma {:induction false} MatchTakesOldest(past: seq<int>, lots: seq<Lot>, o: Order, remaining: int)
    requires Positive(lots) && o.price.Some? && remaining >= 0
    requires Ordered(past + OpenTimes(lots))
    ensures
      var m := MatchOrder(lots, o, remaining);
      Ordered(past + EntryTimes(m.trades, o.symbol) + OpenTimes(m.lots))
    decreases |lots| + remaining
  {
    hide Profit;
    if remaining > 0 && lots != [] && lots[0].side != o.side {
      var n := MinInt(lots[0].quantity, remaining);
      var next := AfterHead(lots, n);
      var head := lots[0].openedAt;
      HeadTimes(past, lots, n);
      MatchTakesOldest(past + [head], next, o, remaining - n);
      var m := MatchOrder(next, o, remaining - n);
      var all := MatchOrder(lots, o, remaining);
      assert all.trades[1..] == m.trades;
      assert past + ([head] + EntryTimes(m.trades, o.symbol)) == past + [head] + EntryTimes(m.trades, o.symbol);
    } else {
      assert past + [] == past;
    }
  }

  lemma HeadTimes(past: seq<int>, lots: seq<Lot>, n: int)
    requires lots != [] && Ordered(past + OpenTimes(lots))
    ensures Ordered(past + [lots[0].openedAt] + OpenTimes(AfterHead(lots, n)))
  {
    var all := past + OpenTimes(lots);
    var next := past + [lots[0].openedAt] + OpenTimes(AfterHead(lots, n));
    assert all[|past|] == lots[0].openedAt;
    forall i, j | 0 <= i < j < |next|
      ensures next[i] <= next[j]
    {
      var shift := if |AfterHead(lots, n)| == |lots| then 1 else 0;
      var a, b := if i <= |past| then i else i - shift, if j <= |past| then j else j - shift;
      assert next[i] == all[a] && next[j] == all[b];
    }
  }

  ghost predicate Chronological(orders: seq<Order>) {
    forall i, j :: 0 <= i < j < |orders| ==> orders[i].createdAt <= orders[j].createdAt
  }

  /** First in, first out: over any chronological history, a symbol's closed entries followed by
      its open lots are in opening order, so nothing newer is ever closed before something older. */
  lemma {:induction false} ClosedInOrder(orders: seq<Order>, symbol: string)
    requires Chronological(orders)
    ensures
      var b := Replay(orders);
      var times := EntryTimes(b.trades, symbol) + OpenTimes(LotsOf(b, symbol));
      Ordered(times) && (|orders| > 0 ==> NoneAfter(times, orders[|orders| - 1].createdAt))
  {
    if |orders| > 0 {
      var n := |orders| - 1;
      var init, o := orders[..n], orders[n];
      ClosedInOrder(init, symbol);
      var b := Replay(init);
      if n > 0 {
        assert init[n - 1].createdAt <= o.createdAt;
      }
      OrderStep(b, o, symbol);
    }
  }

  lemma OrderStep(b: Book, o: Order, symbol: string)
    requires ValidBook(b)
    requires
      var times := EntryTimes(b.trades, symbol) + OpenTimes(LotsOf(b, symbol));
      Ordered(times) && NoneAfter(times, o.createdAt)
    ensures
      var next := ApplyOrder(b, o);
      var times := EntryTimes(next.trades, symbol) + OpenTimes(LotsOf(next, symbol));
      Ordered(times) && NoneAfter(times, o.createdAt)
  {
    if Counts(o) {
      var lots := LotsOf(b, o.symbol);
      var m := MatchOrder(lots, o, o.quantity);
      EntryTimesConcat(b.trades, m.trades, symbol);
      if symbol == o.symbol {
        var past := EntryTimes(b.trades, symbol);
        MatchTakesOldest(past, lots, o, o.quantity);
        TimesBounded(past, lots, o, o.quantity);
        RestLast(past + EntryTimes(m.trades, symbol), m, o);
      } else {
        OtherEntries(lots, o, o.quantity, symbol);
        assert EntryTimes(b.trades, symbol) + [] == EntryTimes(b.trades, symbol);
      }
    }
  }

  lemma RestLast(past: seq<int>, m: Match, o: Order)
    requires o.price.Some? && Ordered(past + OpenTimes(m.lots))
    requires NoneAfter(past + OpenTimes(m.lots), o.createdAt)
    ensures Ordered(past + OpenTimes(WithRest(m, o)))
    ensures NoneAfter(past + OpenTimes(WithRest(m, o)), o.createdAt)
  {
    if m.remaining > 0 {
      assert past + OpenTimes(WithRest(m, o)) == past + OpenTimes(m.lots) + [o.createdAt];
    }
  }

  ghost predicate NoneAfter(times: seq<int>, t: int) { forall i :: 0 <= i < |times| ==> times[i] <= t }

  lemma {:induction false} TimesBounded(past: seq<int>, lots: seq<Lot>, o: Order, remaining: int)
    requires Positive(lots) && o.price.Some? && remaining >= 0
    requires NoneAfter(past + OpenTimes(lots), o.createdAt)
    ensures
      var m := MatchOrder(lots, o, remaining);
      NoneAfter(past + EntryTimes(m.trades, o.symbol) + OpenTimes(m.lots), o.createdAt)
    decreases |lots| + remaining
  {
    hide Profit, NoneAfter, MatchOrder, AfterHead, TradeFrom;
    if remaining > 0 && lots != [] && lots[0].side != o.side {
      var n := MinInt(lots[0].quantity, remaining);
      var head := lots[0].openedAt;
      HeadBounded(past, lots, n, o.createdAt);
      HeadPositive(lots, n);
      TimesBounded(past + [head], AfterHead(lots, n), o, remaining - n);
      var m := MatchOrder(AfterHead(lots, n), o, remaining - n);
      var all := MatchOrder(lots, o, remaining);
      MatchStep([], lots, o, remaining);
      HeadEntry(lots[0], o, n, o.symbol, all.trades);
      assert EntryTimes(all.trades, o.symbol) == [head] + EntryTimes(m.trades, o.symbol);
      assert past + ([head] + EntryTimes(m.trades, o.symbol)) == past + [head] + EntryTimes(m.trades, o.symbol);
    } else {
      MatchDone([], lots, o, remaining);
      assert past + [] == past;
    }
  }

  lemma HeadBounded(past: seq<int>, lots: seq<Lot>, n: int, t: int)
    requires lots != [] && NoneAfter(past + OpenTimes(lots), t)
    ensures NoneAfter(past + [lots[0].openedAt] + OpenTimes(AfterHead(lots, n)), t)
  {
    var all := past + OpenTimes(lots);
    var next := past + [lots[0].openedAt] + OpenTimes(AfterHead(lots, n));
    var shift := if |AfterHead(lots, n)| == |lots| then 1 else 0;
    forall i | 0 <= i < |next|
      ensures next[i] <= t
    {
      assert next[i] == all[if i <= |past| then i else i - shift];
    }
  }

  lemma {:induction false} OtherEntries(lots: seq<Lot>, o: Order, remaining: int, symbol: string)
    requires Positive(lots) && o.price.Some? && remaining >= 0 && o.symbol != symbol
    ensures EntryTimes(MatchOrder(lots, o, remaining).trades, symbol) == []
    decreases |lots| + remaining
  {
    if remaining > 0 && lots != [] && lots[0].side != o.side {
      hide TradeFrom, AfterHead, MatchOrder;
      var n := MinInt(lots[0].quantity, remaining);
      HeadPositive(lots, n);
      MatchStep([], lots, o, remaining);
      OtherEntries(AfterHead(lots, n), o, remaining - n, symbol);
      HeadEntry(lots[0], o, n, symbol, MatchOrder(lots, o, remaining).trades);
    }
  }

  lemma HeadPositive(lots: seq<Lot>, n: int)
    requires Positive(lots) && lots != [] && 0 < n <= lots[0].quantity
    ensures Positive(AfterHead(lots, n)) && |AfterHead(lots, n)| <= |lots|
  {
  }

  lemma HeadEntry(lot: Lot, o: Order, n: int, symbol: string, trades: seq<Matched>)
    requires o.price.Some? && |trades| > 0 && trades[0] == TradeFrom(lot, o, n)
    ensures EntryTimes(trades, symbol)
      == (if o.symbol == symbol then [lot.openedAt] else []) + EntryTimes(trades[1..], symbol)
  {
  }
}
