/** The expected-position ledger that is compared with the broker, and its agreement with the
    FIFO book. */
module Reconciliation {
  import opened Common
  import opened Pnl

  predicate Expects(o: Order) { o.live && (o.outcome.Success? || o.outcome.Partial?) && o.symbol != "" }

  /** The position an order should have left; a partial fill counts what was filled. */
  function ExpectedFrom(o: Order): int {
    if !Expects(o) then 0 else Signed(o.side, if o.outcome.Partial? then o.filledQuantity else o.quantity)
  }

  function ExpectedSum(orders: seq<Order>, symbol: string): int {
    if |orders| == 0 then 0
    else
      var o := orders[|orders| - 1];
      ExpectedSum(orders[..|orders| - 1], symbol) + (if o.symbol == symbol then ExpectedFrom(o) else 0)
  }

  /** Net expected quantity per symbol, zeros dropped. */
  method ComputeExpectedPositions(orders: seq<Order>) returns (r: map<string, int>)
    ensures forall s :: s in r <==> ExpectedSum(orders, s) != 0
    ensures forall s :: s in r ==> r[s] == ExpectedSum(orders, s)
  {
    var expected: map<string, int> := map[];
    for i := 0 to |orders|
      invariant forall s :: s in expected ==> expected[s] == ExpectedSum(orders[..i], s)
      invariant forall s :: s !in expected ==> ExpectedSum(orders[..i], s) == 0
    {
      var o := orders[i];
      assert orders[..i + 1][..i] == orders[..i];
      if Expects(o) {
        var quantity := if o.outcome.Partial? then o.filledQuantity else o.quantity;
        var signed := if o.side.Buy? then quantity else if o.side.Sell? then -quantity else 0;
        expected := expected[o.symbol := (if o.symbol in expected then expected[o.symbol] else 0) + signed];
      }
    }
    assert orders[..|orders|] == orders;
    r := map s | s in expected && expected[s] != 0 :: expected[s];
  }

  /** What reconciliation counts and FIFO matching skips: partial fills, and fills without a
      price, a side or a positive quantity. */
  function Unmatched(orders: seq<Order>, symbol: string): int {
    if |orders| == 0 then 0
    else
      var o := orders[|orders| - 1];
      Unmatched(orders[..|orders| - 1], symbol) + (if o.symbol == symbol && !Counts(o) then ExpectedFrom(o) else 0)
  }

  lemma {:induction false} ExpectedSplits(orders: seq<Order>, symbol: string)
    ensures ExpectedSum(orders, symbol) == Net(orders, symbol) + Unmatched(orders, symbol)
  {
    if |orders| > 0 {
      ExpectedSplits(orders[..|orders| - 1], symbol);
    }
  }

  /** On every history the two ledgers agree on a symbol exactly when what FIFO skipped of it
      nets to zero. */
  lemma LedgersAgreeIff(orders: seq<Order>, symbol: string)
    ensures ExpectedSum(orders, symbol) == SignedQuantity(LotsOf(Replay(orders), symbol))
      <==> Unmatched(orders, symbol) == 0
  {
    ExpectedSplits(orders, symbol);
    FifoConservation(orders, symbol);
  }

  /** Every order that creates an expected position is a full, priced, positive fill. */
  ghost predicate AllConfirmed(orders: seq<Order>) {
    forall i :: 0 <= i < |orders| && ExpectedFrom(orders[i]) != 0 ==> Counts(orders[i])
  }

  lemma {:induction false} ConfirmedLeavesNothing(orders: seq<Order>, symbol: string)
    requires AllConfirmed(orders)
    ensures Unmatched(orders, symbol) == 0
  {
    if |orders| > 0 {
      ConfirmedLeavesNothing(orders[..|orders| - 1], symbol);
      assert orders[|orders| - 1] == orders[|orders| - 1];
    }
  }

  /** The open positions of the FIFO book, zeros dropped. */
  function OpenPositions(b: Book): map<string, int> {
    map s | s in b.lots && SignedQuantity(b.lots[s]) != 0 :: SignedQuantity(b.lots[s])
  }

  /** For confirmed histories the map compared with the broker is exactly the FIFO book's. */
  method ExpectedIsOpen(orders: seq<Order>) returns (r: map<string, int>)
    requires AllConfirmed(orders)
    ensures r == OpenPositions(Replay(orders))
  {
    r := ComputeExpectedPositions(orders);
    ghost var open := OpenPositions(Replay(orders));
    forall s
      ensures s in r <==> s in open
      ensures s in r ==> r[s] == open[s]
    {
      LedgersAgreeIff(orders, s);
      ConfirmedLeavesNothing(orders, s);
    }
    assert r.Keys == open.Keys;
  }

  // ---------------------------------------------------------------- partial fills

  /** A partial fill as the full fill of what was filled. */
  function AsFilled(o: Order): Order {
    if o.outcome.Partial? then o.(outcome := Success, quantity := o.filledQuantity) else o
  }

  function AllFilled(orders: seq<Order>): (r: seq<Order>) {
    seq(|orders|, i requires 0 <= i < |orders| => AsFilled(orders[i]))
  }

  lemma FilledInit(orders: seq<Order>)
    requires |orders| > 0
    ensures
      var n := |orders| - 1;
      |AllFilled(orders)| == n + 1 && AllFilled(orders)[..n] == AllFilled(orders[..n])
      && AllFilled(orders)[n] == AsFilled(orders[n])
  {
  }

  /** A partial fill counts exactly as a full order of its filled quantity would, on every history. */
  lemma {:induction false} PartialCountsFilled(orders: seq<Order>, symbol: string)
    ensures ExpectedSum(orders, symbol) == ExpectedSum(AllFilled(orders), symbol)
  {
    if |orders| > 0 {
      FilledInit(orders);
      PartialCountsFilled(orders[..|orders| - 1], symbol);
    }
  }

  /** Every confirmed fill, full or partial, has a symbol, a side, a price and a positive filled quantity. */
  ghost predicate FillsComplete(orders: seq<Order>) {
    forall i :: 0 <= i < |orders| && orders[i].live && (orders[i].outcome.Success? || orders[i].outcome.Partial?) ==>
      var o := orders[i];
      && o.symbol != "" && (o.side.Buy? || o.side.Sell?) && o.price.Some?
      && (if o.outcome.Partial? then o.filledQuantity else o.quantity) > 0
  }

  lemma FilledConfirmed(orders: seq<Order>)
    requires FillsComplete(orders)
    ensures AllConfirmed(AllFilled(orders))
  {
    var filled := AllFilled(orders);
    forall i | 0 <= i < |filled| && ExpectedFrom(filled[i]) != 0
      ensures Counts(filled[i])
    {
      assert filled[i] == AsFilled(orders[i]);
    }
  }

  /** So for histories of complete fills the map compared with the broker is exactly what the FIFO book has open
      once every partial fill is taken for what it filled. */
  method ExpectedIsOpenOfFilled(orders: seq<Order>) returns (r: map<string, int>)
    requires FillsComplete(orders)
    ensures r == OpenPositions(Replay(AllFilled(orders)))
  {
    r := ComputeExpectedPositions(orders);
    ghost var filled := AllFilled(orders);
    ghost var open := OpenPositions(Replay(filled));
    FilledConfirmed(orders);
    forall s
      ensures s in r <==> s in open
      ensures s in r ==> r[s] == open[s]
    {
      PartialCountsFilled(orders, s);
      LedgersAgreeIff(filled, s);
      ConfirmedLeavesNothing(filled, s);
    }
    assert r.Keys == open.Keys;
  }
}
