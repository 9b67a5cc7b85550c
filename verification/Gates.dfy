/** What a paper cycle asks before it fills and at what price it then fills, field by field. */
module Gates {
  import opened Common
  import opened Indicators
  import opened Strategy
  import opened StrategyTheorems
  import opened Account
  import opened Risk
  import opened AutoTrader
  import opened CycleTheorems
  import opened Incremental

  /** What stands between an entry and its fill: trading is on and neither switched off nor halted, the time lies
      in hours and not past the cutoff, the cooldown is over, the day's entries and loss are within their
      limits, quantity and value too, and fewer positions are open than allowed, by the count taken inside the
      guard if there is one, else by the one read before the cycle. */
  ghost predicate EntryClear(l: RiskLimits, risk: RiskState, p: Poll, price: real) {
    var clock, sameDay := TimeOfDay(p.now), risk.tradeDay == Some(Day(p.now));
    var value := p.quantity as real * price;
    && risk.autoTrading && !risk.killSwitch && !risk.halted
    && l.tradingStart <= clock && clock <= l.tradingEnd && clock <= l.entryCutoff
    && (risk.lastExitAt.Some? ==> risk.lastExitAt.value + l.cooldown <= p.now)
    && (if sameDay then risk.entriesToday else 0) < l.maxTradesPerDay
    && (if sameDay then risk.pnlToday else 0.0) > -Abs(l.dailyLossLimit)
    && 0 < p.quantity && p.quantity <= l.maxQuantity && value <= l.maxOrderValue && value <= l.maxPremiumExposure
    && (if p.openFresh.Some? then p.openFresh.value else if p.openBefore.Some? then p.openBefore.value else 0)
         < l.maxOpenPositions
  }

  /** What stands between the exit of a held position and its fill: hours, quantity and value, and a count that
      saw a position. */
  ghost predicate ExitClear(l: RiskLimits, p: Poll, price: real) {
    var clock, value := TimeOfDay(p.now), p.quantity as real * price;
    && l.tradingStart <= clock && clock <= l.tradingEnd
    && 0 < p.quantity && p.quantity <= l.maxQuantity && value <= l.maxOrderValue && value <= l.maxPremiumExposure
    && (p.openBefore.Some? ==> p.openBefore.value > 0)
  }

  /** Three bar lengths after its bar began an event is no longer fresh. */
  ghost predicate Late(m: Market, p: Poll, e: Event) { p.now > e.ts + 3 * m.barLength }

  /** What filling an event comes to: an entry at its bar's close, a fresh exit at its level, a late one at the
      latest close; and it is filled exactly if everything is clear. */
  ghost predicate FilledAs(
      m: Market, l: RiskLimits, p: Poll, risk: RiskState, lastPrice: real, next: AccountState, o: Outcome)
  {
    && (o.Acted? ==>
          && o.order.Placed? && (IsEntry(o.event) || IsExit(o.event))
          && (IsEntry(o.event) ==>
                && EntryClear(l, risk, p, o.event.price) && !Late(m, p, o.event)
                && o.order.price == o.event.price && next.quantity == p.quantity)
          && (IsExit(o.event) ==>
                && ExitClear(l, p, o.event.price)
                && (if Late(m, p, o.event) then o.order.price == lastPrice
                    else o.event.exitLevel == Some(o.order.price))))
    && (o.RiskBlocked? ==>
          && (IsEntry(o.event) ==> !EntryClear(l, risk, p, o.event.price))
          && (IsExit(o.event) ==> !ExitClear(l, p, o.event.price)))
  }

  lemma EntryClearIff(l: RiskLimits, risk: RiskState, p: Poll, e: Event, own: int)
    requires IsEntry(e) && own <= 0
    ensures EntryClear(l, risk, p, e.price) <==>
      Decide(l, NewDay(risk, p.now), Ask(e, p, CountSeen(p, e, own))).allowed
  {
    hide Decide;
    EntryAllowedIff(l, NewDay(risk, p.now), Ask(e, p, CountSeen(p, e, own)));
  }

  lemma ExitClearIff(l: RiskLimits, risk: RiskState, p: Poll, e: Event, own: int)
    requires IsExit(e) && own > 0
    ensures ExitClear(l, p, e.price) <==>
      Decide(l, NewDay(risk, p.now), Ask(e, p, CountSeen(p, e, own))).allowed
  {
    hide Decide;
    ExitAllowedIff(l, NewDay(risk, p.now), Ask(e, p, CountSeen(p, e, own)));
  }

  /** A plan's lateness is that of its event, and an entry is never late. */
  ghost predicate Timed(m: Market, p: Poll, plan: Plan) {
    plan.Ready? ==> (plan.late <==> Late(m, p, plan.event)) && (IsEntry(plan.event) ==> !plan.late)
  }

  lemma CommitFilledAs(m: Market, l: RiskLimits, p: Poll, plan: Plan, risk: RiskState, own: int)
    requires Suits(plan) && Timed(m, p, plan) && plan.account.quantity == own
    ensures
      var (next, _, o) := Commit(m, l, p, plan, risk, CountSeen(p, plan.event, own));
      FilledAs(m, l, p, risk, plan.lastPrice, next, o)
  {
    hide EntryClear, ExitClear, Late, Decide, Commit, Ask, CountSeen;
    CommitLaws(m, l, p, plan, risk, CountSeen(p, plan.event, own));
    if IsEntry(plan.event) {
      EntryClearIff(l, risk, p, plan.event, own);
    } else {
      ExitClearIff(l, risk, p, plan.event, own);
    }
  }

  lemma JudgeTimed(m: Market, p: Poll, s: Scanned, risk: RiskState, lastPrice: real)
    requires s.Found? ==> (s.late <==> Late(m, p, s.event)) && (IsEntry(s.event) ==> !s.late)
    ensures Timed(m, p, Judge(p, s, risk, lastPrice))
    ensures Judge(p, s, risk, lastPrice).Ready? ==> Judge(p, s, risk, lastPrice).lastPrice == lastPrice
  {
    hide Late;
  }

  lemma {:induction false} ScanTimed(rows: seq<Row>, m: Market, p: Poll, a: AccountState)
    requires AscendingRows(rows)
    ensures
      var s := Scan(rows, m.barLength, p.now, a);
      s.Found? ==> (s.late <==> Late(m, p, s.event)) && (s.late ==> IsExit(s.event))
    decreases Ahead(rows, a.lastEventAt)
  {
    hide First;
    ScanStep(rows, m.barLength, p.now, a);
    if First(rows, a).Some? {
      var e := First(rows, a).value;
      if !IsFresh(e, p.now, m.barLength) && !(IsExit(e) && a.quantity > 0) {
        ScanTimed(rows, m, p, a.(lastEventAt := Some(e.ts)));
      }
    }
  }

  lemma FollowFilledAs(m: Market, l: RiskLimits, p: Poll, bars: seq<Bar>, a: AccountState, risk: RiskState)
    requires bars != [] && AscendingRows(WindowRows(m, bars, p.now, a.quantity > 0)) && InStep(a)
    requires forall i :: 0 <= i < |bars| ==> bars[i].close > 0.0
    ensures
      var (next, _, o) := Settle(m, l, p, FollowSignals(m, p, bars, a, risk), risk, a.quantity);
      FilledAs(m, l, p, risk, bars[|bars| - 1].close, next, o)
  {
    hide Rows, Scan, Judge, Commit, FilledAs, Timed, AscendingRows, InStep, Suits, Late;
    var rows, lastPrice := WindowRows(m, bars, p.now, a.quantity > 0), bars[|bars| - 1].close;
    var s := Scan(rows, m.barLength, p.now, a);
    FollowLaws(m, p, bars, a, risk);
    ScanTimed(rows, m, p, a);
    JudgeTimed(m, p, s, risk, lastPrice);
    var plan := Judge(p, s, risk, lastPrice);
    if plan.Ready? {
      CommitFilledAs(m, l, p, plan, risk, a.quantity);
    } else {
      QuietFilledAs(m, l, p, risk, lastPrice, plan.account, plan.outcome);
    }
  }

  lemma QuietFilledAs(
      m: Market, l: RiskLimits, p: Poll, risk: RiskState, lastPrice: real, next: AccountState, o: Outcome)
    requires !o.Acted? && !o.RiskBlocked?
    ensures FilledAs(m, l, p, risk, lastPrice, next, o)
  {
  }

  /** Every cycle of an account in step: what it fills it fills at the stated price with every gate clear, and
      what the risk manager blocks had one closed. */
  lemma CycleFillsAt(m: Market, l: RiskLimits, p: Poll, a: AccountState, risk: RiskState)
    requires AscendingRaw(p.data) && InStep(a)
    ensures
      var bars := DropInvalid(p.data);
      var (next, _, o) := Cycle(m, l, p, a, risk);
      FilledAs(m, l, p, risk, if bars == [] then 0.0 else bars[|bars| - 1].close, next, o)
  {
    hide Cycle, Settle, FollowSignals, Rows, StaleDay, SquareOffDue, InStep, AscendingRows, FilledAs;
    var bars := DropInvalid(p.data);
    PrepareCases(m, l, p, a, risk);
    var (next, _, o) := Cycle(m, l, p, a, risk);
    if bars != [] && StaleDay(a, p.now).None? && !SquareOffDue(l, a, p.now) {
      UsableCloses(p.data);
      FollowFilledAs(m, l, p, bars, a, risk);
    } else {
      QuietFilledAs(m, l, p, risk, if bars == [] then 0.0 else bars[|bars| - 1].close, next, o);
    }
  }

  // ---------------------------------------------------------------- forced closes

  /** A held position of an earlier day. */
  ghost predicate Overnight(a: AccountState, now: int) {
    a.quantity > 0 && a.lastEventAt.Some? && Day(a.lastEventAt.value) < Day(now)
  }

  /** A cycle forces a close if and only if, within trading hours and on some data, it holds a position: one of an
      earlier day as soon as the data has a bar from today, any other from the square-off time on, once a day.
      A position of an earlier day otherwise waits, and so does everything else. */
  lemma ForcedCloseIff(m: Market, l: RiskLimits, p: Poll, a: AccountState, risk: RiskState)
    requires AscendingRaw(p.data) && InStep(a)
    ensures
      var bars := DropInvalid(p.data);
      var o := Cycle(m, l, p, a, risk).2;
      var inHours := l.tradingStart <= TimeOfDay(p.now) && TimeOfDay(p.now) <= l.tradingEnd;
      && (o.ForcedClose? <==>
            && bars != [] && inHours && a.quantity > 0
            && (if Overnight(a, p.now) then Day(bars[|bars| - 1].ts) == Day(p.now)
                else TimeOfDay(p.now) >= l.squareOffTime && a.squareOffDate != Some(Day(p.now))))
      && (o.ForcedClose? ==>
            && o.event.ts == bars[|bars| - 1].ts && o.event.kind.SquareOff?
            && o.missedDay == (if Overnight(a, p.now) then Some(Day(a.lastEventAt.value)) else None))
      && (o.WaitingToClose? <==> bars != [] && Overnight(a, p.now) && !o.ForcedClose?)
      && (o.NoMarketData? <==> bars == [])
  {
    hide FollowSignals, Rows, DropInvalid, PlaceEvent, RecordTrade, InStep, AscendingRaw, AscendingRows;
    var bars := DropInvalid(p.data);
    if bars != [] {
      WindowAscending(m, p.data, p.now, a.quantity > 0);
      UsableCloses(p.data);
      FollowQuiet(m, l, p, bars, a, risk);
    }
  }

  /** Following the signals never forces a close, waits or lacks data. */
  lemma FollowQuiet(m: Market, l: RiskLimits, p: Poll, bars: seq<Bar>, a: AccountState, risk: RiskState)
    requires bars != [] && AscendingRows(WindowRows(m, bars, p.now, a.quantity > 0)) && InStep(a)
    requires forall i :: 0 <= i < |bars| ==> bars[i].close > 0.0
    ensures
      var o := Settle(m, l, p, FollowSignals(m, p, bars, a, risk), risk, a.quantity).2;
      !o.ForcedClose? && !o.WaitingToClose? && !o.NoMarketData?
  {
    hide FollowSignals, Rows, PlaceEvent, Decide, InStep, AscendingRows;
    FollowLaws(m, p, bars, a, risk);
  }

  // ---------------------------------------------------------------- quiet cycles

  /** What a quiet scan says of the account: how many entries it expired and the last of them, or that nothing is
      new, or that there never was anything. */
  ghost predicate SaysQuiet(a: AccountState, es: seq<Event>, next: AccountState, o: Outcome) {
    && (o.Expired? ==> es != [] && o.count == |es| && o.event == es[|es| - 1] && next.lastEventAt == Some(o.event.ts))
    && (o.NothingNew? ==> es == [] && next == a && a.lastEventAt.Some?)
    && (o.NoSignal? ==> es == [] && next == a && a.lastEventAt.None?)
  }

  /** What a scan leaves of what it expired. */
  ghost predicate Tells(a: AccountState, s: Scanned, es: seq<Event>) {
    && s.expired == |es| && (s.Quiet? ==> s.last == (if es == [] then None else Some(es[|es| - 1])))
    && s.account == a.(lastEventAt := if es == [] then a.lastEventAt else Some(es[|es| - 1].ts))
  }

  lemma TellsOneMore(a: AccountState, e: Event, s: Scanned, es: seq<Event>)
    requires Tells(a.(lastEventAt := Some(e.ts)), s, es)
    ensures Tells(a, AddExpired(s, e), [e] + es)
  {
  }

  lemma ExpiredCases(rows: seq<Row>, barLength: int, now: int, a: AccountState)
    requires AscendingRows(rows)
    ensures
      var first, es := First(rows, a), ExpiredBy(rows, barLength, now, a);
      if first.None? || IsFresh(first.value, now, barLength) || (IsExit(first.value) && a.quantity > 0) then es == []
      else es == [first.value] + ExpiredBy(rows, barLength, now, a.(lastEventAt := Some(first.value.ts)))
  {
    hide First, IsFresh;
  }

  lemma {:induction false} ScanTells(rows: seq<Row>, barLength: int, now: int, a: AccountState)
    requires AscendingRows(rows)
    ensures Tells(a, Scan(rows, barLength, now, a), ExpiredBy(rows, barLength, now, a))
    decreases Ahead(rows, a.lastEventAt)
  {
    hide First, ExpiredBy, IsFresh, Scan, AscendingRows;
    ExpiredCases(rows, barLength, now, a);
    ScanStep(rows, barLength, now, a);
    if First(rows, a).Some? {
      var e := First(rows, a).value;
      var marked := a.(lastEventAt := Some(e.ts));
      if !IsFresh(e, now, barLength) && !(IsExit(e) && a.quantity > 0) {
        ScanTells(rows, barLength, now, marked);
        TellsOneMore(a, e, Scan(rows, barLength, now, marked), ExpiredBy(rows, barLength, now, marked));
      }
    }
  }

  lemma JudgeTells(p: Poll, a: AccountState, s: Scanned, es: seq<Event>, risk: RiskState, lastPrice: real)
    requires Tells(a, s, es)
    ensures
      var plan := Judge(p, s, risk, lastPrice);
      plan.Finished? ==> SaysQuiet(a, es, plan.account, plan.outcome)
  {
  }

  /** Every cycle: what it says when it does nothing is what the scan of its window came to. */
  lemma CycleTells(m: Market, l: RiskLimits, p: Poll, a: AccountState, risk: RiskState)
    requires AscendingRaw(p.data) && InStep(a) && DropInvalid(p.data) != []
    ensures AscendingRows(WindowRows(m, DropInvalid(p.data), p.now, a.quantity > 0))
    ensures
      var rows := WindowRows(m, DropInvalid(p.data), p.now, a.quantity > 0);
      var (next, _, o) := Cycle(m, l, p, a, risk);
      SaysQuiet(a, ExpiredBy(rows, m.barLength, p.now, a), next, o)
  {
    hide Rows, Scan, Judge, Commit, SaysQuiet, StaleDay, SquareOffDue, InStep, AscendingRows, Cycle, ExpiredBy, Tells;
    var bars := DropInvalid(p.data);
    WindowAscending(m, p.data, p.now, a.quantity > 0);
    var rows := WindowRows(m, bars, p.now, a.quantity > 0);
    PrepareCases(m, l, p, a, risk);
    var es := ExpiredBy(rows, m.barLength, p.now, a);
    var (next, _, o) := Cycle(m, l, p, a, risk);
    if StaleDay(a, p.now).None? && !SquareOffDue(l, a, p.now) {
      var s := Scan(rows, m.barLength, p.now, a);
      ScanTells(rows, m.barLength, p.now, a);
      JudgeTells(p, a, s, es, risk, bars[|bars| - 1].close);
      CommitSpeaks(m, l, p, Judge(p, s, risk, bars[|bars| - 1].close), risk, a, es);
    } else {
      Speaks(a, es, next, o);
    }
  }

  lemma Speaks(a: AccountState, es: seq<Event>, next: AccountState, o: Outcome)
    requires !o.Expired? && !o.NothingNew? && !o.NoSignal?
    ensures SaysQuiet(a, es, next, o)
  {
  }

  lemma CommitSpeaks(m: Market, l: RiskLimits, p: Poll, plan: Plan, risk: RiskState, a: AccountState, es: seq<Event>)
    ensures plan.Ready? ==>
      var (next, _, o) := Commit(m, l, p, plan, risk, CountSeen(p, plan.event, a.quantity));
      SaysQuiet(a, es, next, o)
  {
    hide PlaceEvent, Decide;
  }
}
