/** Paper trading against the backtest, in money: on any polling schedule the driver realises the
    traded quantity times the points of its own round trips, and these are the points the backtest
    reports as soon as the fills are the batch's. */
module Parity {
  import opened Common
  import opened Indicators
  import opened Strategy
  import opened StrategyTheorems
  import opened Account
  import opened Risk
  import opened AutoTrader
  import opened CycleTheorems
  import opened RunTheorems
  import opened Incremental
  import opened Backtest

  function OrderPnl(r: OrderResult): real { if r.Placed? then r.pnl else 0.0 }

  /** What one cycle realises. */
  function PnlOf(o: Outcome): real {
    match o
    case Acted(_, _, order) => OrderPnl(order)
    case ForcedClose(_, _, order) => OrderPnl(order)
    case _ => 0.0
  }

  ghost function Realized(m: Market, ticks: seq<Tick>, a: AccountState): real
    requires Polled(ticks)
  {
    if |ticks| == 0 then 0.0
    else
      var init := ticks[..|ticks| - 1];
      Realized(m, init, a) + PnlOf(CycleOf(m, ticks[|ticks| - 1], AccountAfter(m, init, a)).2)
  }

  /** The net points of the backtest's trades, without slippage. */
  function NetPoints(es: seq<Event>): real { Sum(Points(PairAll(es, 0.0, false).trades)) }

  // ---------------------------------------------------------------- one cycle's money

  function MinQuantity(q: int, held: int): int { if q < held then q else held }

  /** An entry sets the side and the average price to its fill; an exit realises the move from the
      average price; nothing else changes any of them. */
  ghost predicate Pays(a: AccountState, q: int, next: AccountState, o: Outcome) {
    && (o.Acted? && IsEntry(o.event) ==>
          && o.order.Placed? && o.order.pnl == 0.0
          && next.averagePrice == Some(o.order.price) && next.side == Some(EntrySide(o.event.kind)))
    && (o.Acted? && IsExit(o.event) ==>
          && o.order.Placed? && a.side.Some? && a.averagePrice.Some?
          && o.order.pnl == ExitPnl(a.side.value, a.averagePrice.value, o.order.price, MinQuantity(q, a.quantity)))
    && (o.Acted? ==> IsEntry(o.event) || IsExit(o.event))
    && (o.ForcedClose? ==>
          && o.order.Placed? && a.side.Some? && a.averagePrice.Some? && next.quantity == 0
          && o.order.pnl == ExitPnl(a.side.value, a.averagePrice.value, o.order.price, a.quantity))
    && (!o.Acted? && !o.ForcedClose? ==>
          next.averagePrice == a.averagePrice && next.side == a.side && next.quantity == a.quantity && PnlOf(o) == 0.0)
  }

  lemma CommitPays(m: Market, l: RiskLimits, p: Poll, plan: Plan, risk: RiskState, openPositions: int)
    requires Suits(plan)
    ensures
      var (next, _, o) := Commit(m, l, p, plan, risk, openPositions);
      Pays(plan.account, p.quantity, next, o)
  {
    hide ExitPnl, Average;
    CommitLaws(m, l, p, plan, risk, openPositions);
    if IsEntry(plan.event) && Decide(l, NewDay(risk, p.now), Ask(plan.event, p, openPositions)).allowed {
      OpenLaws(plan.account, EntrySide(plan.event.kind), plan.event.price, p.quantity, m.indexId, plan.contract);
    }
  }

  lemma SettlePays(m: Market, l: RiskLimits, p: Poll, a: AccountState, risk: RiskState, plan: Plan)
    requires Judged(p, a, risk, plan)
    ensures
      var (next, _, o) := Settle(m, l, p, plan, risk, a.quantity);
      Pays(a, p.quantity, next, o)
  {
    hide Commit;
    if plan.Ready? {
      CommitPays(m, l, p, plan, risk, CountSeen(p, plan.event, a.quantity));
    }
  }

  /** A forced close realises the move of the whole position to the latest close. */
  lemma ForcePays(
      m: Market, l: RiskLimits, bars: seq<Bar>, now: int, a: AccountState, risk: RiskState, missedDay: Option<int>,
      markSquareOff: bool, q: int)
    requires bars != [] && InStep(a) && a.quantity > 0
    ensures
      var f := ForceClose(m, l, bars, now, a, risk, missedDay, markSquareOff);
      f.Finished? && f.outcome.ForcedClose? && Pays(a, q, f.account, f.outcome)
  {
    hide RecordTrade, ExitPnl, Average;
  }

  lemma CyclePays(m: Market, l: RiskLimits, p: Poll, a: AccountState, risk: RiskState)
    requires AscendingRaw(p.data) && InStep(a)
    ensures
      var (next, _, o) := Cycle(m, l, p, a, risk);
      Pays(a, p.quantity, next, o)
  {
    hide Cycle, Settle, FollowSignals, Rows, Judged, StaleDay, SquareOffDue, Pays, InStep, AscendingRows;
    var bars := DropInvalid(p.data);
    PrepareCases(m, l, p, a, risk);
    if bars == [] {
      IdlePays(a, p.quantity, NoMarketData);
    } else if StaleDay(a, p.now).None? && !SquareOffDue(l, a, p.now) {
      UsableCloses(p.data);
      FollowLaws(m, p, bars, a, risk);
      SettlePays(m, l, p, a, risk, FollowSignals(m, p, bars, a, risk));
    } else {
      ForcedPays(m, l, p, a, risk);
    }
  }

  lemma IdlePays(a: AccountState, q: int, o: Outcome)
    requires !o.Acted? && !o.ForcedClose?
    ensures Pays(a, q, a, o)
  {
  }

  lemma ForcedPays(m: Market, l: RiskLimits, p: Poll, a: AccountState, risk: RiskState)
    requires AscendingRaw(p.data) && InStep(a) && DropInvalid(p.data) != []
    requires StaleDay(a, p.now).Some? || SquareOffDue(l, a, p.now)
    ensures
      var (next, _, o) := Cycle(m, l, p, a, risk);
      Pays(a, p.quantity, next, o)
  {
    hide FollowSignals, Rows, Pays, ForceClose, DropInvalid, InStep;
    var bars := DropInvalid(p.data);
    ForcePays(m, l, bars, p.now, a, risk, StaleDay(a, p.now), false, p.quantity);
    ForcePays(m, l, bars, p.now, a, risk, None, true, p.quantity);
    if StaleDay(a, p.now).Some? {
      IdlePays(a, p.quantity, WaitingToClose(StaleDay(a, p.now).value));
    }
  }

  lemma RestartedPays(a: AccountState, q: int, next: AccountState, o: Outcome)
    requires Pays(Restarted(a), q, next, o)
    ensures Pays(a, q, next, o)
  {
  }

  lemma TickPays(m: Market, t: Tick, a: AccountState)
    requires AscendingRaw(t.poll.data) && InStep(a)
    ensures
      var (next, _, o) := CycleOf(m, t, a);
      Pays(a, t.poll.quantity, next, o)
  {
    hide Cycle, Pays, WellFormed;
    RestartedInStep(a);
    CyclePays(m, t.limits, t.poll, if t.restart then Restarted(a) else a, t.risk);
    if t.restart {
      var (next, _, o) := CycleOf(m, t, a);
      RestartedPays(a, t.poll.quantity, next, o);
    }
  }

  // ---------------------------------------------------------------- the driver's own round trips

  predicate IsOpening(f: Fill) { f.kind.EntryCall? || f.kind.EntryPut? }

  /** The points of a closing fill against the opening one before it. */
  function TripPoints(opening: Fill, closing: Fill): real {
    if opening.kind.EntryCall? then closing.price - opening.price else opening.price - closing.price
  }

  function FillPoints(fills: seq<Fill>): real {
    if |fills| == 0 then 0.0
    else
      var n := |fills| - 1;
      FillPoints(fills[..n]) +
      if n > 0 && IsOpening(fills[n - 1]) && !IsOpening(fills[n]) then TripPoints(fills[n - 1], fills[n]) else 0.0
  }

  /** What the account carries after its fills. */
  ghost predicate Carries(fills: seq<Fill>, q: int, a: AccountState) {
    if |fills| > 0 && IsOpening(fills[|fills| - 1])
    then
      var opening := fills[|fills| - 1];
      a.quantity == q && a.side == Some(EntrySide(opening.kind)) && a.averagePrice == Some(opening.price)
    else a.quantity == 0
  }

  /** What a cycle of a schedule does to the quantity: an entry from flat buys all of it, an exit sells all of
      it. */
  ghost predicate Whole(q: int, a: AccountState, next: AccountState, o: Outcome) {
    && !o.ForcedClose?
    && (o.Acted? ==> o.order.Placed? && q > 0)
    && (o.Acted? && IsEntry(o.event) ==> a.quantity == 0 && next.quantity == q)
    && (o.Acted? && IsExit(o.event) ==> a.quantity == q && next.quantity == 0)
  }

  lemma TripPaid(opening: Fill, a: AccountState, price: real, q: int, closing: Fill)
    requires IsOpening(opening) && closing.price == price
    requires a.side == Some(EntrySide(opening.kind)) && a.averagePrice == Some(opening.price)
    ensures ExitPnl(a.side.value, a.averagePrice.value, price, q) == q as real * TripPoints(opening, closing)
  {
    var move := price - opening.price;
    if opening.kind.EntryCall? {
      assert move * q as real * 1.0 == q as real * move;
    } else {
      assert move * q as real * -1.0 == q as real * -move;
    }
  }

  lemma FillPointsSnoc(fills: seq<Fill>, f: Fill)
    ensures FillPoints(fills + [f]) == FillPoints(fills) +
      if |fills| > 0 && IsOpening(fills[|fills| - 1]) && !IsOpening(f) then TripPoints(fills[|fills| - 1], f) else 0.0
  {
    assert (fills + [f])[..|fills|] == fills;
  }

  /** One cycle pays for its fill and carries the rest. */
  lemma CarryStep(fills: seq<Fill>, q: int, a: AccountState, next: AccountState, o: Outcome, paid: real)
    requires Carries(fills, q, a) && Pays(a, q, next, o) && Whole(q, a, next, o)
    requires paid == q as real * FillPoints(fills)
    ensures Carries(fills + NewFill(o), q, next)
    ensures paid + PnlOf(o) == q as real * FillPoints(fills + NewFill(o))
  {
    hide FillPoints, TripPoints, ExitPnl;
    if o.Acted? {
      var f := FillIn(o);
      FillPointsSnoc(fills, f);
      if IsExit(o.event) {
        var opening := fills[|fills| - 1];
        TripPaid(opening, a, o.order.price, q, f);
        Distribute(q as real, FillPoints(fills), TripPoints(opening, f));
      }
    } else {
      assert fills + [] == fills;
    }
  }

  lemma Distribute(x: real, y: real, z: real)
    ensures x * y + x * z == x * (y + z)
  {
  }

  lemma AdvancesWhole(
      m: Market, bars: seq<Bar>, v: Shown, f: nat, q: int, a: AccountState, next: AccountState, o: Outcome, n: nat)
    requires v.n <= |bars| && n <= |bars| && Ascending(bars)
    requires Advances(m, bars, v, f, q, a, next, o) && Caught(m, bars, n, f, a, q)
    requires o.Acted? ==> IsEntry(o.event) || IsExit(o.event)
    ensures Whole(q, a, next, o)
  {
    hide Batch, Agrees, FillOf, FillIn, Early;
    if o.Acted? {
      BatchAlternates(m, bars, |bars|);
      SyncedQuantity(All(m, bars), f, q, a);
      SyncedQuantity(All(m, bars), f + 1, q, next);
    }
  }

  /** In sync, held exactly when the batch's next event is an exit, flat when it is an entry. */
  lemma SyncedQuantity(all: seq<Event>, f: nat, q: int, a: AccountState)
    requires Alternates(all, Flat) && InSync(all, f, a, q)
    ensures f < |all| ==> (IsEntry(all[f]) ==> a.quantity == 0) && (IsExit(all[f]) ==> a.quantity == q)
    ensures f < |all| && IsExit(all[f]) ==> q > 0
    ensures f > 0 ==> (IsEntry(all[f - 1]) ==> a.quantity == q > 0) && (IsExit(all[f - 1]) ==> a.quantity == 0)
  {
    if f < |all| {
      assert Follows(all[f], Before(all, f, Flat));
    }
  }

  lemma BatchAlternates(m: Market, bars: seq<Bar>, n: nat)
    requires n <= |bars|
    ensures Alternates(Batch(m, bars, n), Flat)
  {
    EventsAlternate(Rows(bars[..n], m.cfg), Flat);
  }

  /** On any polling schedule, forming bars, restarts and blocked cycles included: what the driver
      realises is the quantity times the points of its own round trips. */
  lemma {:induction false} RealizedIsOwnTrips(
      m: Market, ticks: seq<Tick>, shown: seq<Shown>, bars: seq<Bar>, q: int, a: AccountState)
    requires Ascending(bars) && Schedule(m, ticks, shown, bars, q, a) && InSync([], 0, a, q)
    ensures Carries(Fills(m, ticks, a), q, AccountAfter(m, ticks, a))
    ensures Realized(m, ticks, a) == q as real * FillPoints(Fills(m, ticks, a))
  {
    hide AscendingRaw, Ascending, CycleOf, InSync, All, NewFill, Advances, Carries, FillPoints, Pays, Whole, PnlOf,
         Schedule, Caught, Sees, Batch;
    ScheduleShape(m, ticks, shown, bars, q, a);
    if |ticks| == 0 {
      NothingCarried(q, a);
    } else {
      var k := |ticks| - 1;
      ScheduleInit(m, ticks, shown, bars, q, a);
      RealizedIsOwnTrips(m, ticks[..k], shown[..k], bars, q, a);
      LastTick(m, ticks, shown, bars, q, a);
      StaysCaught(m, ticks[..k], shown[..k], bars, q, a);
      var done, before := Fills(m, ticks[..k], a), AccountAfter(m, ticks[..k], a);
      var (next, _, o) := CycleOf(m, ticks[k], before);
      CaughtStep(m, bars, LastSeen(shown[..k]), |done|, before, q);
      TickPays(m, ticks[k], before);
      PaidSort(before, ticks[k].poll.quantity, next, o);
      ScheduledQuantity(m, ticks, shown, bars, q, a);
      AdvancesWhole(m, bars, shown[k], |done|, q, before, next, o, LastSeen(shown[..k]));
      CarryStep(done, q, before, next, o, Realized(m, ticks[..k], a));
    }
  }

  lemma ScheduledQuantity(m: Market, ticks: seq<Tick>, shown: seq<Shown>, bars: seq<Bar>, q: int, a: AccountState)
    requires |ticks| > 0 && Schedule(m, ticks, shown, bars, q, a)
    ensures ticks[|ticks| - 1].poll.quantity == q
  {
    hide OutcomeAt, PendingFresh, AscendingRaw;
    assert Sees(m, ticks[|ticks| - 1].poll, bars, shown[|ticks| - 1], q);
  }

  lemma PaidSort(a: AccountState, q: int, next: AccountState, o: Outcome)
    requires Pays(a, q, next, o)
    ensures o.Acted? ==> IsEntry(o.event) || IsExit(o.event)
  {
  }

  lemma CaughtStep(m: Market, bars: seq<Bar>, n: nat, f: nat, a: AccountState, q: int)
    requires n <= |bars| && Caught(m, bars, n, f, a, q)
    ensures InStep(a)
  {
    hide All, Batch, Early;
  }

  lemma NothingCarried(q: int, a: AccountState)
    requires InSync([], 0, a, q)
    ensures Carries([], q, a) && q as real * FillPoints([]) == 0.0
  {
  }

  // ---------------------------------------------------------------- the backtest's side

  /** One more event of an alternating list adds its round trip's points, if it closes one. */
  lemma NetStep(es: seq<Event>, f: nat)
    requires f < |es| && Alternates(es, Flat)
    ensures IsExit(es[f]) ==> f > 0 && IsEntry(es[f - 1]) && es[f].exitLevel.Some?
    ensures IsEntry(es[f]) || IsExit(es[f])
    ensures IsEntry(es[f]) ==> f == 0 || IsExit(es[f - 1])
    ensures NetPoints(es[..f + 1]) == NetPoints(es[..f]) +
      if IsExit(es[f]) then TradeOf(es[f - 1], es[f], 0.0).points else 0.0
  {
    hide Sum, Points, TradeOf;
    assert Follows(es[f], Before(es, f, Flat));
    assert es[..f + 1][..f] == es[..f];
    if f > 0 {
      assert Follows(es[f - 1], Before(es, f - 1, Flat));
    }
    if IsExit(es[f]) {
      assert es[..f][f - 1] == es[f - 1];
      PointsSnoc(PairAll(es[..f], 0.0, false).trades, TradeOf(es[f - 1], es[f], 0.0));
    }
  }

  lemma NoPoints()
    ensures NetPoints([]) == 0.0
  {
    EmptySum();
  }

  /** Fills that are a prefix of the batch's events earn what the backtest books for those events. */
  lemma {:induction false} PrefixPoints(fills: seq<Fill>, es: seq<Event>)
    requires Alternates(es, Flat) && IsPrefix(fills, es)
    ensures FillPoints(fills) == NetPoints(es[..|fills|])
  {
    hide NetPoints;
    if |fills| == 0 {
      NoPoints();
      assert es[..0] == [];
    } else {
      var n := |fills| - 1;
      PrefixPoints(fills[..n], es);
      NetStep(es, n);
      if n > 0 && IsExit(es[n]) {
        assert fills[n - 1] == FillOf(es[n - 1]) && fills[n] == FillOf(es[n]);
      }
    }
  }

  /** Paper equals backtest as far as the fills are the batch's: on any polling schedule whose early
      exits agree with their finished bars, the realised paper P&L is the quantity times the backtest's
      net points over the events filled so far. */
  lemma RealizedIsBacktest(
      m: Market, ticks: seq<Tick>, shown: seq<Shown>, bars: seq<Bar>, q: int, a: AccountState)
    requires Ascending(bars) && Schedule(m, ticks, shown, bars, q, a) && InSync([], 0, a, q)
    requires forall k :: 0 <= k < |ticks| ==> shown[k].n <= |bars| && AgreesAt(m, ticks, shown[k], bars, a, k)
    ensures
      var f := |Fills(m, ticks, a)|;
      f <= |All(m, bars)| && Realized(m, ticks, a) == q as real * NetPoints(All(m, bars)[..f])
  {
    hide CycleOf, InSync, Batch, Schedule, AgreesAt, Realized, Fills, FillPoints, NetPoints;
    ScheduleShape(m, ticks, shown, bars, q, a);
    FillsArePrefixIff(m, ticks, shown, bars, q, a);
    RealizedIsOwnTrips(m, ticks, shown, bars, q, a);
    BatchAlternates(m, bars, |bars|);
    PrefixPoints(Fills(m, ticks, a), All(m, bars));
  }

  /** Paper equals backtest: polled once at each bar close, the paper account realises exactly the
      quantity times the net points of the backtest of the whole series, trade for trade. */
  lemma PaperEqualsBacktest(m: Market, ticks: seq<Tick>, bars: seq<Bar>, q: int, a: AccountState)
    requires Ascending(bars) && EveryBarClose(m, ticks, bars, q, a) && InSync([], 0, a, q)
    ensures Realized(m, ticks, a) == q as real * NetPoints(Batch(m, bars, |ticks|))
  {
    hide CycleOf, InSync, Batch, Schedule, Realized, Fills, FillPoints, NetPoints, FillOf, Sees, AscendingRaw, FillsOf,
         IsPrefix, Alternates;
    var es := Batch(m, bars, |ticks|);
    EveryBarKeepsUp(m, ticks, bars, q, a);
    IncrementalIsBatch(m, ticks, bars, q, a);
    RealizedIsOwnTrips(m, ticks, EveryShown(|ticks|), bars, q, a);
    BatchAlternates(m, bars, |ticks|);
    WholePrefix(es);
    PrefixPoints(FillsOf(es), es);
  }

  lemma WholePrefix(es: seq<Event>)
    ensures IsPrefix(FillsOf(es), es) && |FillsOf(es)| == |es| && es[..|es|] == es
  {
  }
}
