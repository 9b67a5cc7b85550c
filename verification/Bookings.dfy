/** What cycles book into the risk manager: read off their outcomes alone, and over whole runs what the
    daily P&L and the loss halt are in terms of the money the outcomes report. */
module Bookings {
  import opened Common
  import opened Indicators
  import opened Strategy
  import opened StrategyTheorems
  import opened Account
  import opened Risk
  import opened AutoTrader
  import opened CycleTheorems
  import opened RunTheorems
  import opened Incremental
  import opened Parity
  import opened Restart

  /** The steps an outcome stands for: a blocked event was asked about, a filled one asked about and recorded,
      a forced close recorded without asking. */
  function StepsOf(now: int, o: Outcome): seq<Step> {
    match o
    case RiskBlocked(_, _) => [Asked(now)]
    case Acted(e, _, order) =>
      if !order.Placed? then [Asked(now)]
      else if IsEntry(e) then [Asked(now), Trade(0.0, now, false), Entry(now)]
      else [Asked(now), Trade(order.pnl, now, true)]
    case ForcedClose(_, _, order) => if order.Placed? then [Trade(order.pnl, now, true)] else []
    case _ => []
  }

  // ---------------------------------------------------------------- one cycle

  lemma CommitBooks(m: Market, l: RiskLimits, p: Poll, plan: Plan, risk: RiskState, openPositions: int)
    requires Suits(plan)
    ensures
      var (_, after, o) := Commit(m, l, p, plan, risk, openPositions);
      after == ApplyAll(l, risk, StepsOf(p.now, o))
  {
    hide PlaceEvent, Decide, ApplyAll, RecordTrade, RecordEntry, NewDay, Ask, FillPrice;
    var (_, after, o) := Commit(m, l, p, plan, risk, openPositions);
    CommitPays(m, l, p, plan, risk, openPositions);
    CommitLaws(m, l, p, plan, risk, openPositions);
    OneStep(l, risk, Asked(p.now));
    TwoSteps(l, risk, Asked(p.now), Trade(PnlOf(o), p.now, true));
    ThreeSteps(l, risk, Asked(p.now), Trade(0.0, p.now, false), Entry(p.now));
  }

  lemma ForceBooks(
      m: Market, l: RiskLimits, bars: seq<Bar>, now: int, a: AccountState, risk: RiskState, missedDay: Option<int>,
      markSquareOff: bool)
    requires bars != [] && InStep(a) && a.quantity > 0
    ensures
      var plan := ForceClose(m, l, bars, now, a, risk, missedDay, markSquareOff);
      plan.Finished? && plan.risk == ApplyAll(l, risk, StepsOf(now, plan.outcome))
  {
    hide PlaceEvent, ApplyAll, RecordTrade;
    var plan := ForceClose(m, l, bars, now, a, risk, missedDay, markSquareOff);
    OneStep(l, risk, Trade(PnlOf(plan.outcome), now, true));
    NoSteps(l, risk);
  }

  lemma SettleBooks(m: Market, l: RiskLimits, p: Poll, a: AccountState, risk: RiskState, plan: Plan)
    requires Judged(p, a, risk, plan)
    ensures
      var (_, after, o) := Settle(m, l, p, plan, risk, a.quantity);
      after == ApplyAll(l, risk, StepsOf(p.now, o))
  {
    hide Commit, ApplyAll, InStep;
    NoSteps(l, risk);
    if plan.Ready? {
      CommitBooks(m, l, p, plan, risk, CountSeen(p, plan.event, a.quantity));
    }
  }

  /** Every cycle of an account in step, whatever it is given: the risk state it leaves is the one it met with
      the steps of its outcome applied, and nothing else. */
  lemma CycleBooks(m: Market, l: RiskLimits, p: Poll, a: AccountState, risk: RiskState)
    requires AscendingRaw(p.data) && InStep(a)
    ensures
      var (_, after, o) := Cycle(m, l, p, a, risk);
      after == ApplyAll(l, risk, StepsOf(p.now, o))
  {
    hide Settle, FollowSignals, Rows, Judged, ForceClose, ApplyAll, WithinHours, DropInvalid, AscendingRaw, InStep,
         AscendingRows, StepsOf;
    var bars := DropInvalid(p.data);
    NoSteps(l, risk);
    SilentSteps(p.now);
    if bars != [] {
      if StaleDay(a, p.now).Some? || SquareOffDue(l, a, p.now) {
        ForceBooks(m, l, bars, p.now, a, risk, StaleDay(a, p.now), false);
        ForceBooks(m, l, bars, p.now, a, risk, None, true);
      } else {
        WindowAscending(m, p.data, p.now, a.quantity > 0);
        UsableCloses(p.data);
        FollowLaws(m, p, bars, a, risk);
        SettleBooks(m, l, p, a, risk, FollowSignals(m, p, bars, a, risk));
      }
      FinishedSettles(m, l, p, Prepare(m, l, p, a, risk), risk, a.quantity);
    } else {
      FinishedSettles(m, l, p, Prepare(m, l, p, a, risk), risk, a.quantity);
    }
  }

  lemma SilentSteps(now: int)
    ensures StepsOf(now, NoMarketData) == []
    ensures forall since :: StepsOf(now, WaitingToClose(since)) == []
  {
  }

  lemma FinishedSettles(m: Market, l: RiskLimits, p: Poll, plan: Plan, risk: RiskState, own: int)
    ensures plan.Finished? ==> Settle(m, l, p, plan, risk, own) == (plan.account, plan.risk, plan.outcome)
  {
  }

  // ---------------------------------------------------------------- whole runs

  /** One risk state through a run: each cycle starts from what the one before it left, with whatever else
      was done to it in between, such as the cycles of other indices. */
  ghost predicate Threads(
      m: Market, l: RiskLimits, ticks: seq<Tick>, others: seq<seq<Step>>, a: AccountState, risk: RiskState)
  {
    && Polled(ticks) && |others| == |ticks|
    && forall k :: 0 <= k < |ticks| ==>
         ticks[k].limits == l && ticks[k].risk == ApplyAll(l, RiskAtEnd(m, ticks[..k], a, risk), others[k])
  }

  /** Everything booked in a run, in order, read off the outcomes. */
  ghost function History(m: Market, ticks: seq<Tick>, others: seq<seq<Step>>, a: AccountState): seq<Step>
    requires Polled(ticks) && |others| == |ticks|
  {
    if |ticks| == 0 then []
    else
      var n := |ticks| - 1;
      History(m, ticks[..n], others[..n], a) + others[n] + StepsOf(ticks[n].poll.now, OutcomeAt(m, ticks, a, n))
  }

  lemma TickBooks(m: Market, t: Tick, a: AccountState)
    requires AscendingRaw(t.poll.data) && InStep(a)
    ensures CycleOf(m, t, a).1 == ApplyAll(t.limits, t.risk, StepsOf(t.poll.now, CycleOf(m, t, a).2))
  {
    hide Cycle, WellFormed, ApplyAll, StepsOf;
    RestartedInStep(a);
    CycleBooks(m, t.limits, t.poll, if t.restart then RunTheorems.Restarted(a) else a, t.risk);
  }

  lemma ThreadsInit(
      m: Market, l: RiskLimits, ticks: seq<Tick>, others: seq<seq<Step>>, a: AccountState, risk: RiskState)
    requires Threads(m, l, ticks, others, a, risk) && |ticks| > 0
    ensures
      var n := |ticks| - 1;
      && Polled(ticks) && Polled(ticks[..n]) && |others| == n + 1
      && Threads(m, l, ticks[..n], others[..n], a, risk)
      && ticks[n].limits == l && ticks[n].risk == ApplyAll(l, RiskAtEnd(m, ticks[..n], a, risk), others[n])
  {
    hide AscendingRaw, RiskAtEnd, ApplyAll;
    var n := |ticks| - 1;
    forall k | 0 <= k < n
      ensures ticks[..n][..k] == ticks[..k]
    {
    }
  }

  /** Over every run, restarts and other indices included, the risk state is the history's. */
  lemma {:induction false} RunBooks(
      m: Market, l: RiskLimits, ticks: seq<Tick>, others: seq<seq<Step>>, a: AccountState, risk: RiskState)
    requires Threads(m, l, ticks, others, a, risk) && InStep(a)
    ensures RiskAtEnd(m, ticks, a, risk) == ApplyAll(l, risk, History(m, ticks, others, a))
  {
    hide CycleOf, AscendingRaw, Threads, StepsOf, InStep;
    if |ticks| > 0 {
      var n := |ticks| - 1;
      ThreadsInit(m, l, ticks, others, a, risk);
      RunBooks(m, l, ticks[..n], others[..n], a, risk);
      RunsKeepStep(m, ticks[..n], a);
      TickBooks(m, ticks[n], AccountAfter(m, ticks[..n], a));
      var before := History(m, ticks[..n], others[..n], a);
      ApplyConcat(l, risk, before, others[n]);
      ApplyConcat(l, risk, before + others[n], StepsOf(ticks[n].poll.now, OutcomeAt(m, ticks, a, n)));
    }
  }

  /** So the halt and the day's counters of the shared risk manager are those of the outcomes: it is halted
      exactly when some streak of losing closes in the history reached the limit, and the day's P&L and
      counts are those of the history's last day. */
  lemma RunHaltsIff(
      m: Market, l: RiskLimits, ticks: seq<Tick>, others: seq<seq<Step>>, a: AccountState, risk: RiskState)
    requires Threads(m, l, ticks, others, a, risk) && InStep(a)
    requires risk.consecutiveLosses == 0 && !risk.halted && l.maxConsecutiveLosses >= 1
    ensures
      var steps := History(m, ticks, others, a);
      && (RiskAtEnd(m, ticks, a, risk).halted <==> PeakStreak(steps) >= l.maxConsecutiveLosses)
      && (steps != [] && risk.tradeDay != Some(Day(At(steps[0]))) ==>
            CountsDay(RiskAtEnd(m, ticks, a, risk), Today(steps), Day(At(steps[|steps| - 1]))))
  {
    hide CycleOf, AscendingRaw, StepsOf, InStep, CountsDay, RiskAtEnd, History, ApplyAll;
    RunBooks(m, l, ticks, others, a, risk);
    var steps := History(m, ticks, others, a);
    HaltedIff(l, risk, steps);
    if steps != [] && risk.tradeDay != Some(Day(At(steps[0]))) {
      CountersCountToday(l, risk, steps);
    }
  }

  // ---------------------------------------------------------------- in terms of the outcomes' money

  /** What a cycle reports, and when. */
  datatype Report = Report(now: int, o: Outcome)

  predicate Fills(o: Outcome) { (o.Acted? || o.ForcedClose?) && o.order.Placed? }

  predicate Closes(o: Outcome) { Fills(o) && (o.Acted? ==> !IsEntry(o.event)) }

  /** The losing closes since the last winning one. */
  function LosingRun(rs: seq<Report>): nat {
    if |rs| == 0 then 0
    else
      var before, o := LosingRun(rs[..|rs| - 1]), rs[|rs| - 1].o;
      if Closes(o) && PnlOf(o) < 0.0 then before + 1
      else if Closes(o) && PnlOf(o) > 0.0 then 0
      else before
  }

  /** At some moment there were as many. */
  ghost predicate SomeRun(rs: seq<Report>, n: int) { exists k :: 0 <= k <= |rs| && LosingRun(rs[..k]) >= n }

  /** The money, the fills and the entries reported on one day. */
  function DayPnl(rs: seq<Report>, day: int): real {
    if |rs| == 0 then 0.0
    else
      var r := rs[|rs| - 1];
      DayPnl(rs[..|rs| - 1], day) + (if Day(r.now) == day then PnlOf(r.o) else 0.0)
  }

  function DayFills(rs: seq<Report>, day: int): nat {
    if |rs| == 0 then 0
    else
      var r := rs[|rs| - 1];
      DayFills(rs[..|rs| - 1], day) + (if Day(r.now) == day && Fills(r.o) then 1 else 0)
  }

  function DayEntries(rs: seq<Report>, day: int): nat {
    if |rs| == 0 then 0
    else
      var r := rs[|rs| - 1];
      DayEntries(rs[..|rs| - 1], day) + (if Day(r.now) == day && Fills(r.o) && !Closes(r.o) then 1 else 0)
  }

  /** An entry realises nothing. */
  predicate Sound(o: Outcome) { Fills(o) && !Closes(o) ==> PnlOf(o) == 0.0 }

  /** What one outcome does to the risk state. */
  ghost predicate Books(l: RiskLimits, s: RiskState, now: int, o: Outcome, next: RiskState) {
    var rolled := if next.tradeDay == s.tradeDay then s else s.(pnlToday := 0.0, tradesToday := 0, entriesToday := 0);
    var loss := Closes(o) && PnlOf(o) < 0.0;
    && (next.tradeDay == s.tradeDay || next.tradeDay == Some(Day(now)))
    && (Fills(o) ==> next.tradeDay == Some(Day(now)))
    && next.pnlToday == rolled.pnlToday + PnlOf(o)
    && next.tradesToday == rolled.tradesToday + (if Fills(o) then 1 else 0)
    && next.entriesToday == rolled.entriesToday + (if Fills(o) && !Closes(o) then 1 else 0)
    && next.consecutiveLosses ==
         (if loss then s.consecutiveLosses + 1 else if Closes(o) && PnlOf(o) > 0.0 then 0 else s.consecutiveLosses)
    && (next.halted <==> s.halted || (loss && s.consecutiveLosses + 1 >= l.maxConsecutiveLosses))
  }

  lemma EntryBooks(l: RiskLimits, s: RiskState, now: int, o: Outcome)
    requires Fills(o) && !Closes(o) && Sound(o)
    ensures Books(l, s, now, o, Apply(l, Apply(l, Apply(l, s, Asked(now)), Trade(0.0, now, false)), Entry(now)))
  {
  }

  lemma CloseBooks(l: RiskLimits, s: RiskState, now: int, o: Outcome)
    requires Closes(o)
    ensures Books(l, s, now, o, Apply(l, s, Trade(PnlOf(o), now, true)))
    ensures Books(l, s, now, o, Apply(l, Apply(l, s, Asked(now)), Trade(PnlOf(o), now, true)))
  {
  }

  lemma UnfilledBooks(l: RiskLimits, s: RiskState, now: int, o: Outcome)
    requires !Fills(o)
    ensures Books(l, s, now, o, s) && Books(l, s, now, o, Apply(l, s, Asked(now)))
  {
  }

  lemma OutcomeBooks(l: RiskLimits, s: RiskState, now: int, o: Outcome)
    requires Sound(o)
    ensures Books(l, s, now, o, ApplyAll(l, s, StepsOf(now, o)))
  {
    hide ApplyAll, Apply, Books;
    NoSteps(l, s);
    OneStep(l, s, Asked(now));
    OneStep(l, s, Trade(PnlOf(o), now, true));
    TwoSteps(l, s, Asked(now), Trade(PnlOf(o), now, true));
    ThreeSteps(l, s, Asked(now), Trade(0.0, now, false), Entry(now));
    if !Fills(o) {
      UnfilledBooks(l, s, now, o);
    } else if Closes(o) {
      CloseBooks(l, s, now, o);
    } else {
      EntryBooks(l, s, now, o);
    }
  }

  ghost function Reports(m: Market, ticks: seq<Tick>, a: AccountState): (rs: seq<Report>)
    requires Polled(ticks)
    ensures |rs| == |ticks| && forall k :: 0 <= k < |ticks| ==> rs[k].now == ticks[k].poll.now
  {
    seq(|ticks|, k requires 0 <= k < |ticks| => Report(ticks[k].poll.now, OutcomeAt(m, ticks, a, k)))
  }

  lemma ReportsSnoc(m: Market, ticks: seq<Tick>, a: AccountState)
    requires Polled(ticks) && |ticks| > 0 && Polled(ticks[..|ticks| - 1])
    ensures
      var n := |ticks| - 1;
      Reports(m, ticks, a) == Reports(m, ticks[..n], a) + [Report(ticks[n].poll.now, OutcomeAt(m, ticks, a, n))]
  {
    hide CycleOf, AscendingRaw;
    var n := |ticks| - 1;
    forall k | 0 <= k < n
      ensures ticks[..n][..k] == ticks[..k]
    {
    }
  }

  /** A run on its own: one set of limits and one risk state, nothing else booking in between. */
  ghost predicate Alone(m: Market, l: RiskLimits, ticks: seq<Tick>, a: AccountState, risk: RiskState) {
    && Polled(ticks)
    && forall k :: 0 <= k < |ticks| ==> ticks[k].limits == l && ticks[k].risk == RiskAtEnd(m, ticks[..k], a, risk)
  }

  lemma AloneInit(m: Market, l: RiskLimits, ticks: seq<Tick>, a: AccountState, risk: RiskState)
    requires Alone(m, l, ticks, a, risk) && |ticks| > 0
    ensures
      var n := |ticks| - 1;
      && Polled(ticks) && Polled(ticks[..n]) && Alone(m, l, ticks[..n], a, risk)
      && ticks[n].limits == l && ticks[n].risk == RiskAtEnd(m, ticks[..n], a, risk)
  {
    hide AscendingRaw, RiskAtEnd;
    var n := |ticks| - 1;
    forall k | 0 <= k < n
      ensures ticks[..n][..k] == ticks[..k]
    {
    }
  }

  lemma LastBooks(m: Market, l: RiskLimits, ticks: seq<Tick>, a: AccountState, risk: RiskState)
    requires Alone(m, l, ticks, a, risk) && |ticks| > 0 && InStep(a)
    ensures
      var n := |ticks| - 1;
      && Polled(ticks) && Polled(ticks[..n])
      && Books(l, RiskAtEnd(m, ticks[..n], a, risk), ticks[n].poll.now, OutcomeAt(m, ticks, a, n),
               RiskAtEnd(m, ticks, a, risk))
  {
    hide CycleOf, AscendingRaw, InStep, Books, StepsOf, ApplyAll, Pays;
    var n := |ticks| - 1;
    AloneInit(m, l, ticks, a, risk);
    RunsKeepStep(m, ticks[..n], a);
    var before := AccountAfter(m, ticks[..n], a);
    TickBooks(m, ticks[n], before);
    TickPays(m, ticks[n], before);
    var (next, _, o) := CycleOf(m, ticks[n], before);
    PaysSound(before, ticks[n].poll.quantity, next, o);
    OutcomeBooks(l, ticks[n].risk, ticks[n].poll.now, o);
  }

  lemma PaysSound(a: AccountState, q: int, next: AccountState, o: Outcome)
    requires Pays(a, q, next, o)
    ensures Sound(o)
  {
  }

  /** Over a whole run from a manager without losses: the streak is the losing closes since the last winning
      one, and the manager is halted if and only if at some moment there were as many as the limit. */
  lemma {:induction false} HaltedOnLosses(
      m: Market, l: RiskLimits, ticks: seq<Tick>, a: AccountState, risk: RiskState)
    requires Alone(m, l, ticks, a, risk) && InStep(a)
    requires risk.consecutiveLosses == 0 && !risk.halted && l.maxConsecutiveLosses >= 1
    ensures
      var rs, after := Reports(m, ticks, a), RiskAtEnd(m, ticks, a, risk);
      && after.consecutiveLosses == LosingRun(rs)
      && (after.halted <==> SomeRun(rs, l.maxConsecutiveLosses))
  {
    hide OutcomeAt, AscendingRaw, InStep, RiskAtEnd, Alone, Reports;
    if |ticks| == 0 {
      NothingYet(m, ticks, a, risk);
    } else {
      var n := |ticks| - 1;
      AloneInit(m, l, ticks, a, risk);
      HaltedOnLosses(m, l, ticks[..n], a, risk);
      LastBooks(m, l, ticks, a, risk);
      ReportsSnoc(m, ticks, a);
      var init, rs := Reports(m, ticks[..n], a), Reports(m, ticks, a);
      RunSnoc(init, rs[n]);
      SomeRunSnoc(init, rs[n], l.maxConsecutiveLosses);
    }
  }

  lemma NothingYet(m: Market, ticks: seq<Tick>, a: AccountState, risk: RiskState)
    requires ticks == []
    ensures Polled(ticks) && Reports(m, ticks, a) == [] && RiskAtEnd(m, ticks, a, risk) == risk
  {
  }

  lemma RunSnoc(rs: seq<Report>, r: Report)
    ensures LosingRun(rs + [r]) ==
      if Closes(r.o) && PnlOf(r.o) < 0.0 then LosingRun(rs) + 1
      else if Closes(r.o) && PnlOf(r.o) > 0.0 then 0
      else LosingRun(rs)
  {
    assert (rs + [r])[..|rs|] == rs;
  }

  lemma SomeRunSnoc(rs: seq<Report>, r: Report, n: int)
    ensures SomeRun(rs + [r], n) <==> SomeRun(rs, n) || LosingRun(rs + [r]) >= n
    ensures LosingRun(rs) >= n ==> SomeRun(rs, n)
  {
    hide LosingRun;
    assert rs[..|rs|] == rs;
    var all := rs + [r];
    assert all[..|all|] == all;
    assert forall k :: 0 <= k <= |rs| ==> all[..k] == rs[..k];
  }

  /** The counters of the last day something was booked on, and nothing after it. */
  ghost predicate Totals(rs: seq<Report>, s: RiskState, start: RiskState) {
    && (s.tradeDay != start.tradeDay ==>
          && s.tradeDay.Some?
          && s.pnlToday == DayPnl(rs, s.tradeDay.value) && s.tradesToday == DayFills(rs, s.tradeDay.value)
          && s.entriesToday == DayEntries(rs, s.tradeDay.value))
    && (forall day :: s.tradeDay.None? || day > s.tradeDay.value ==>
          DayPnl(rs, day) == 0.0 && DayFills(rs, day) == 0 && DayEntries(rs, day) == 0)
  }

  lemma TotalsStep(l: RiskLimits, rs: seq<Report>, s: RiskState, start: RiskState, r: Report, next: RiskState)
    requires Totals(rs, s, start) && Books(l, s, r.now, r.o, next)
    requires s.tradeDay.Some? ==> s.tradeDay.value <= Day(r.now)
    requires start.tradeDay.Some? ==> start.tradeDay.value < Day(r.now)
    ensures Totals(rs + [r], next, start)
  {
    hide DayPnl, DayFills, DayEntries;
    NoMoney(r.o);
    forall day
      ensures DayPnl(rs + [r], day) == DayPnl(rs, day) + (if Day(r.now) == day then PnlOf(r.o) else 0.0)
      ensures DayFills(rs + [r], day) == DayFills(rs, day) + (if Day(r.now) == day && Fills(r.o) then 1 else 0)
      ensures DayEntries(rs + [r], day)
           == DayEntries(rs, day) + (if Day(r.now) == day && Fills(r.o) && !Closes(r.o) then 1 else 0)
    {
      SumsSnoc(rs, r, day);
    }
  }

  lemma NoMoney(o: Outcome)
    ensures !Fills(o) ==> PnlOf(o) == 0.0
  {
  }

  lemma SumsSnoc(rs: seq<Report>, r: Report, day: int)
    ensures DayPnl(rs + [r], day) == DayPnl(rs, day) + (if Day(r.now) == day then PnlOf(r.o) else 0.0)
    ensures DayFills(rs + [r], day) == DayFills(rs, day) + (if Day(r.now) == day && Fills(r.o) then 1 else 0)
    ensures DayEntries(rs + [r], day)
         == DayEntries(rs, day) + (if Day(r.now) == day && Fills(r.o) && !Closes(r.o) then 1 else 0)
  {
    assert (rs + [r])[..|rs|] == rs;
  }

  /** Over a whole run with its days in order, from a manager that has not seen its first day: the day's P&L is
      the sum of what the day's outcomes report, and the counts are those of its fills and entries. */
  lemma {:induction false} DayIsSummed(m: Market, l: RiskLimits, ticks: seq<Tick>, a: AccountState, risk: RiskState)
    requires Alone(m, l, ticks, a, risk) && InStep(a) && DaysInOrder(ticks)
    requires |ticks| > 0 && risk.tradeDay.Some? ==> risk.tradeDay.value < Day(ticks[0].poll.now)
    ensures
      var s := RiskAtEnd(m, ticks, a, risk);
      && Totals(Reports(m, ticks, a), s, risk)
      && (s.tradeDay.Some? && |ticks| > 0 ==> s.tradeDay.value <= Day(ticks[|ticks| - 1].poll.now))
  {
    hide OutcomeAt, AscendingRaw, InStep, RiskAtEnd, Alone, Totals, Reports;
    if |ticks| == 0 {
      NothingYet(m, ticks, a, risk);
      NoTotals(risk);
    } else {
      var n := |ticks| - 1;
      AloneInit(m, l, ticks, a, risk);
      DayIsSummed(m, l, ticks[..n], a, risk);
      LastBooks(m, l, ticks, a, risk);
      ReportsSnoc(m, ticks, a);
      if n == 0 {
        NothingYet(m, ticks[..n], a, risk);
      }
      TotalsStep(l, Reports(m, ticks[..n], a), RiskAtEnd(m, ticks[..n], a, risk), risk,
                 Report(ticks[n].poll.now, OutcomeAt(m, ticks, a, n)), RiskAtEnd(m, ticks, a, risk));
    }
  }

  lemma NoTotals(risk: RiskState)
    ensures Totals([], risk, risk)
  {
  }
}
