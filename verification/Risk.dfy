/** The risk manager: what may trade, and the counters that decide it. */
module Risk {
  import opened Common

  /** Distances in seconds, times as seconds of the day. */
  datatype RiskLimits = RiskLimits(
    dailyLossLimit: real, maxTradesPerDay: int, maxOpenPositions: int, maxQuantity: int,
    tradingStart: int, tradingEnd: int, entryCutoff: int, squareOffTime: int,
    maxConsecutiveLosses: int, cooldown: int,
    maxCapitalAllocation: real, maxOrderValue: real, maxPremiumExposure: real)

  /** 09:15-15:30, no entries after 15:00, square-off at 15:20, three losses halt. */
  const DEFAULT_LIMITS := RiskLimits(
    5000.0, 10, 1, 50, 33300, 55800, 54000, 55200, 3, 300, 200000.0, 100000.0, 100000.0)

  datatype RiskState = RiskState(
    autoTrading: bool, killSwitch: bool, tradesToday: int, entriesToday: int, pnlToday: real,
    tradeDay: Option<int>, consecutiveLosses: int, halted: bool, lastExitAt: Option<int>)

  const FRESH_RISK := RiskState(false, false, 0, 0, 0.0, None, 0, false, None)

  datatype Action = Buy | Sell | Other

  datatype Reason =
    | Passed | UnsupportedAction | KillSwitch | LossHalt | Disabled | OutsideHours | PastCutoff | Cooldown
    | MaxTrades | DailyLoss | QuantityNotPositive | QuantityTooLarge | OrderValue | PremiumExposure
    | CapitalAllocation | MaxOpen | NothingToExit

  datatype Decision = Decision(allowed: bool, reason: Reason)

  /** One question to the risk manager. */
  datatype Question = Question(
    action: Action, quantity: int, openPositions: int, now: int,
    orderValue: Option<real>, capitalAllocated: Option<real>, riskReducing: bool, capNewEntries: bool)

  function NewDay(s: RiskState, now: int): RiskState {
    if s.tradeDay == Some(Day(now)) then s
    else s.(tradeDay := Some(Day(now)), tradesToday := 0, entriesToday := 0, pnlToday := 0.0)
  }

  function RecordTrade(l: RiskLimits, s0: RiskState, pnl: real, now: int, isExit: bool): RiskState {
    var s := NewDay(s0, now);
    var counted := s.(tradesToday := s.tradesToday + 1, pnlToday := s.pnlToday + pnl);
    if !isExit then counted
    else if pnl < 0.0 then
      counted.(lastExitAt := Some(now), consecutiveLosses := s.consecutiveLosses + 1,
               halted := s.halted || s.consecutiveLosses + 1 >= l.maxConsecutiveLosses)
    else if pnl > 0.0 then counted.(lastExitAt := Some(now), consecutiveLosses := 0)
    else counted.(lastExitAt := Some(now))
  }

  function RecordEntry(s0: RiskState, now: int): RiskState {
    var s := NewDay(s0, now);
    s.(entriesToday := s.entriesToday + 1)
  }

  function ResetHalt(s: RiskState): RiskState { s.(halted := false, consecutiveLosses := 0) }

  function Block(r: Reason): Decision { Decision(false, r) }

  function EntryDecision(l: RiskLimits, s: RiskState, q: Question): Decision {
    if TimeOfDay(q.now) > l.entryCutoff then Block(PastCutoff)
    else if s.lastExitAt.Some? && q.now < s.lastExitAt.value + l.cooldown then Block(Cooldown)
    else if (if q.capNewEntries then s.entriesToday else s.tradesToday) >= l.maxTradesPerDay then Block(MaxTrades)
    else if s.pnlToday <= -Abs(l.dailyLossLimit) then Block(DailyLoss)
    else Decision(true, Passed)
  }

  function SizeDecision(l: RiskLimits, q: Question): Decision {
    if q.quantity <= 0 then Block(QuantityNotPositive)
    else if q.quantity > l.maxQuantity then Block(QuantityTooLarge)
    else if q.orderValue.Some? && q.orderValue.value > l.maxOrderValue then Block(OrderValue)
    else if q.orderValue.Some? && q.orderValue.value > l.maxPremiumExposure then Block(PremiumExposure)
    else if q.orderValue.Some? && q.capitalAllocated.Some? &&
            q.capitalAllocated.value + q.orderValue.value > l.maxCapitalAllocation
    then Block(CapitalAllocation)
    else Decision(true, Passed)
  }

  /** The decision on an already rolled-over state. */
  function Decide(l: RiskLimits, s: RiskState, q: Question): Decision {
    var exitOnly := q.riskReducing && q.action.Sell?;
    if q.action.Other? then Block(UnsupportedAction)
    else if s.killSwitch && !exitOnly then Block(KillSwitch)
    else if s.halted && !exitOnly then Block(LossHalt)
    else if !s.autoTrading && !exitOnly then Block(Disabled)
    else if !WithinHours(l, q.now) then Block(OutsideHours)
    else if q.action.Buy? && !EntryDecision(l, s, q).allowed then EntryDecision(l, s, q)
    else if !SizeDecision(l, q).allowed then SizeDecision(l, q)
    else if q.action.Buy? && q.openPositions >= l.maxOpenPositions then Block(MaxOpen)
    else if q.action.Sell? && q.openPositions <= 0 then Block(NothingToExit)
    else Decision(true, Passed)
  }

  predicate WithinSizeLimits(l: RiskLimits, q: Question) {
    0 < q.quantity <= l.maxQuantity &&
    (q.orderValue.Some? ==> q.orderValue.value <= l.maxOrderValue && q.orderValue.value <= l.maxPremiumExposure) &&
    (q.orderValue.Some? && q.capitalAllocated.Some? ==>
      q.capitalAllocated.value + q.orderValue.value <= l.maxCapitalAllocation)
  }

  predicate WithinHours(l: RiskLimits, now: int) { l.tradingStart <= TimeOfDay(now) <= l.tradingEnd }

  /** Everything a new entry needs. */
  predicate EntryGatesOpen(l: RiskLimits, s: RiskState, q: Question) {
    && s.autoTrading && !s.killSwitch && !s.halted
    && WithinHours(l, q.now) && TimeOfDay(q.now) <= l.entryCutoff
    && (s.lastExitAt.Some? ==> q.now >= s.lastExitAt.value + l.cooldown)
    && (if q.capNewEntries then s.entriesToday else s.tradesToday) < l.maxTradesPerDay
    && s.pnlToday > -Abs(l.dailyLossLimit)
    && WithinSizeLimits(l, q)
    && q.openPositions < l.maxOpenPositions
  }

  /** Everything a risk-reducing exit needs: no switch, halt, counter or cooldown is in it. */
  predicate ExitGatesOpen(l: RiskLimits, q: Question) {
    WithinHours(l, q.now) && WithinSizeLimits(l, q) && q.openPositions > 0
  }

  class RiskManager {
    var limits: RiskLimits
    var state: RiskState

    constructor (limits: RiskLimits)
      ensures this.limits == limits && state == FRESH_RISK
    {
      this.limits := limits;
      state := FRESH_RISK;
    }

    method ResetIfNewDay(now: int)
      modifies this`state
      ensures state == NewDay(old(state), now)
    {
      if state.tradeDay != Some(Day(now)) {
        state := state.(tradeDay := Some(Day(now)));
        state := state.(tradesToday := 0);
        state := state.(entriesToday := 0);
        state := state.(pnlToday := 0.0);
      }
    }

    method Check(q: Question) returns (d: Decision)
      modifies this`state
      ensures state == NewDay(old(state), q.now)
      ensures d == Decide(limits, state, q)
      ensures q.action.Buy? ==> (d.allowed <==> EntryGatesOpen(limits, state, q))
      ensures q.action.Sell? && q.riskReducing ==> (d.allowed <==> ExitGatesOpen(limits, q))
    {
      ResetIfNewDay(q.now);
      if q.action.Other? {
        return Block(UnsupportedAction);
      }
      var exitOnly := q.riskReducing && q.action.Sell?;
      if state.killSwitch && !exitOnly {
        return Block(KillSwitch);
      }
      if state.halted && !exitOnly {
        return Block(LossHalt);
      }
      if !state.autoTrading && !exitOnly {
        return Block(Disabled);
      }
      if !(limits.tradingStart <= TimeOfDay(q.now) <= limits.tradingEnd) {
        return Block(OutsideHours);
      }
      if q.action.Buy? {
        d := CheckEntry(q);
        if !d.allowed {
          return;
        }
      }
      d := CheckSize(q);
      if !d.allowed {
        return;
      }
      if q.action.Buy? && q.openPositions >= limits.maxOpenPositions {
        return Block(MaxOpen);
      }
      if q.action.Sell? && q.openPositions <= 0 {
        return Block(NothingToExit);
      }
      return Decision(true, Passed);
    }

    /** The gates on new risk: cutoff, cooldown, daily trade cap, daily loss. */
    method CheckEntry(q: Question) returns (d: Decision)
      ensures d.allowed <==>
        && TimeOfDay(q.now) <= limits.entryCutoff
        && (state.lastExitAt.Some? ==> q.now >= state.lastExitAt.value + limits.cooldown)
        && (if q.capNewEntries then state.entriesToday else state.tradesToday) < limits.maxTradesPerDay
        && state.pnlToday > -Abs(limits.dailyLossLimit)
      ensures d == EntryDecision(limits, state, q)
    {
      if TimeOfDay(q.now) > limits.entryCutoff {
        return Block(PastCutoff);
      }
      if state.lastExitAt.Some? && q.now < state.lastExitAt.value + limits.cooldown {
        return Block(Cooldown);
      }
      var counted := if q.capNewEntries then state.entriesToday else state.tradesToday;
      if counted >= limits.maxTradesPerDay {
        return Block(MaxTrades);
      }
      if state.pnlToday <= -Abs(limits.dailyLossLimit) {
        return Block(DailyLoss);
      }
      return Decision(true, Passed);
    }

    /** The gates on size, for both directions. */
    method CheckSize(q: Question) returns (d: Decision)
      ensures d.allowed <==> WithinSizeLimits(limits, q)
      ensures d == SizeDecision(limits, q)
    {
      if q.quantity <= 0 {
        return Block(QuantityNotPositive);
      }
      if q.quantity > limits.maxQuantity {
        return Block(QuantityTooLarge);
      }
      if q.orderValue.Some? {
        if q.orderValue.value > limits.maxOrderValue {
          return Block(OrderValue);
        }
        if q.orderValue.value > limits.maxPremiumExposure {
          return Block(PremiumExposure);
        }
        if q.capitalAllocated.Some? && q.capitalAllocated.value + q.orderValue.value > limits.maxCapitalAllocation {
          return Block(CapitalAllocation);
        }
      }
      return Decision(true, Passed);
    }

    method Record(pnl: real, now: int, isExit: bool)
      modifies this`state
      ensures state == RecordTrade(limits, old(state), pnl, now, isExit)
    {
      ResetIfNewDay(now);
      state := state.(tradesToday := state.tradesToday + 1);
      state := state.(pnlToday := state.pnlToday + pnl);
      if isExit {
        state := state.(lastExitAt := Some(now));
        if pnl < 0.0 {
          state := state.(consecutiveLosses := state.consecutiveLosses + 1);
          if state.consecutiveLosses >= limits.maxConsecutiveLosses {
            state := state.(halted := true);
          }
        } else if pnl > 0.0 {
          state := state.(consecutiveLosses := 0);
        }
      }
    }

    method CountEntry(now: int)
      modifies this`state
      ensures state == RecordEntry(old(state), now)
    {
      ResetIfNewDay(now);
      state := state.(entriesToday := state.entriesToday + 1);
    }

    method ResetConsecutiveLossHalt()
      modifies this`state
      ensures state == ResetHalt(old(state))
    {
      state := state.(halted := false);
      state := state.(consecutiveLosses := 0);
    }
  }

  // ---------------------------------------------------------------- what the gates guarantee

  /** A risk-reducing exit depends on nothing but trading hours, size limits and there being a
      position: no switch, halt, counter or cooldown can trap it. */
  lemma ExitAllowedIff(l: RiskLimits, s: RiskState, q: Question)
    requires q.action.Sell? && q.riskReducing
    ensures Decide(l, s, q).allowed <==> ExitGatesOpen(l, q)
  {
  }

  /** An entry passes exactly when every gate is open. */
  lemma EntryAllowedIff(l: RiskLimits, s: RiskState, q: Question)
    requires q.action.Buy?
    ensures Decide(l, s, q).allowed <==> EntryGatesOpen(l, s, q)
  {
  }

  /** The checks of one question in the program's order: what closes each, and the reason it gives. */
  function Gates(l: RiskLimits, s: RiskState, q: Question): seq<(bool, Reason)> {
    var sellToReduce := q.riskReducing && q.action == Sell;
    var buying, clock := q.action == Buy, TimeOfDay(q.now);
    var counted := if q.capNewEntries then s.entriesToday else s.tradesToday;
    var value := if q.orderValue.Some? then q.orderValue.value else 0.0;
    [ (!buying && q.action != Sell, UnsupportedAction),
      (s.killSwitch && !sellToReduce, KillSwitch),
      (s.halted && !sellToReduce, LossHalt),
      (!s.autoTrading && !sellToReduce, Disabled),
      (clock < l.tradingStart || clock > l.tradingEnd, OutsideHours),
      (buying && clock > l.entryCutoff, PastCutoff),
      (buying && s.lastExitAt.Some? && q.now - s.lastExitAt.value < l.cooldown, Cooldown),
      (buying && counted >= l.maxTradesPerDay, MaxTrades),
      (buying && s.pnlToday <= -Abs(l.dailyLossLimit), DailyLoss),
      (q.quantity <= 0, QuantityNotPositive),
      (q.quantity > l.maxQuantity, QuantityTooLarge),
      (q.orderValue.Some? && value > l.maxOrderValue, OrderValue),
      (q.orderValue.Some? && value > l.maxPremiumExposure, PremiumExposure),
      (q.orderValue.Some? && q.capitalAllocated.Some? && q.capitalAllocated.value + value > l.maxCapitalAllocation,
       CapitalAllocation),
      (buying && q.openPositions >= l.maxOpenPositions, MaxOpen),
      (!buying && q.openPositions <= 0, NothingToExit) ]
  }

  function FirstClosed(gates: seq<(bool, Reason)>): Decision {
    if |gates| == 0 then Decision(true, Passed)
    else if gates[0].0 then Decision(false, gates[0].1)
    else FirstClosed(gates[1..])
  }

  lemma {:induction false} FirstClosedConcat(a: seq<(bool, Reason)>, b: seq<(bool, Reason)>)
    ensures FirstClosed(a + b) == if FirstClosed(a).allowed then FirstClosed(b) else FirstClosed(a)
  {
    if |a| == 0 {
      assert a + b == b;
    } else {
      assert (a + b)[1..] == a[1..] + b;
      FirstClosedConcat(a[1..], b);
    }
  }

  lemma FourGates(a: (bool, Reason), b: (bool, Reason), c: (bool, Reason), d: (bool, Reason))
    ensures FirstClosed([a, b, c, d]) ==
      if a.0 then Decision(false, a.1) else if b.0 then Decision(false, b.1)
      else if c.0 then Decision(false, c.1) else if d.0 then Decision(false, d.1) else Decision(true, Passed)
  {
    assert [a, b, c, d][1..] == [b, c, d] && [b, c, d][1..] == [c, d] && [c, d][1..] == [d] && [d][1..] == [];
    assert FirstClosed([d]) == if d.0 then Decision(false, d.1) else Decision(true, Passed);
    assert FirstClosed([c, d]) == if c.0 then Decision(false, c.1) else FirstClosed([d]);
    assert FirstClosed([b, c, d]) == if b.0 then Decision(false, b.1) else FirstClosed([c, d]);
  }

  /** A question is answered by the first gate that is closed, with its reason, and passes if none is. */
  lemma DecidesByFirstClosed(l: RiskLimits, s: RiskState, q: Question)
    ensures Decide(l, s, q) == FirstClosed(Gates(l, s, q))
  {
    hide FirstClosed;
    var g := Gates(l, s, q);
    FourGates(g[0], g[1], g[2], g[3]);
    FourGates(g[4], g[5], g[6], g[7]);
    FourGates(g[8], g[9], g[10], g[11]);
    FourGates(g[12], g[13], g[14], g[15]);
    var w, x := [g[0], g[1], g[2], g[3]], [g[4], g[5], g[6], g[7]];
    var y, z := [g[8], g[9], g[10], g[11]], [g[12], g[13], g[14], g[15]];
    assert g == w + (x + (y + z));
    FirstClosedConcat(w, x + (y + z));
    FirstClosedConcat(x, y + z);
    FirstClosedConcat(y, z);
  }

  datatype Step = Trade(pnl: real, at: int, isExit: bool) | Entry(at: int) | Asked(at: int)

  function Apply(l: RiskLimits, s: RiskState, step: Step): RiskState {
    match step
    case Trade(pnl, at, isExit) => RecordTrade(l, s, pnl, at, isExit)
    case Entry(at) => RecordEntry(s, at)
    case Asked(at) => NewDay(s, at)
  }

  function ApplyAll(l: RiskLimits, s: RiskState, steps: seq<Step>): RiskState {
    if |steps| == 0 then s
    else Apply(l, ApplyAll(l, s, steps[..|steps| - 1]), steps[|steps| - 1])
  }

  lemma NoSteps(l: RiskLimits, risk: RiskState)
    ensures ApplyAll(l, risk, []) == risk
  {
  }

  lemma OneStep(l: RiskLimits, s: RiskState, x: Step)
    ensures ApplyAll(l, s, [x]) == Apply(l, s, x)
  {
    assert [x][..0] == [];
  }

  lemma TwoSteps(l: RiskLimits, s: RiskState, x: Step, y: Step)
    ensures ApplyAll(l, s, [x, y]) == Apply(l, Apply(l, s, x), y)
  {
    OneStep(l, s, x);
    assert [x, y][..1] == [x];
  }

  lemma ThreeSteps(l: RiskLimits, s: RiskState, x: Step, y: Step, z: Step)
    ensures ApplyAll(l, s, [x, y, z]) == Apply(l, Apply(l, Apply(l, s, x), y), z)
  {
    TwoSteps(l, s, x, y);
    assert [x, y, z][..2] == [x, y];
  }

  lemma {:induction false} ApplyConcat(l: RiskLimits, s: RiskState, xs: seq<Step>, ys: seq<Step>)
    ensures ApplyAll(l, s, xs + ys) == ApplyAll(l, ApplyAll(l, s, xs), ys)
  {
    if |ys| == 0 {
      assert xs + ys == xs;
    } else {
      var n := |ys| - 1;
      assert (xs + ys)[..|xs + ys| - 1] == xs + ys[..n];
      ApplyConcat(l, s, xs, ys[..n]);
    }
  }

  /** The losing exits since the last winning one; everything else is passed over. */
  function Streak(steps: seq<Step>): nat {
    if |steps| == 0 then 0
    else
      var before, last := Streak(steps[..|steps| - 1]), steps[|steps| - 1];
      if !last.Trade? || !last.isExit || last.pnl == 0.0 then before
      else if last.pnl < 0.0 then before + 1 else 0
  }

  /** The longest such streak at any moment of the history. */
  function PeakStreak(steps: seq<Step>): nat {
    if |steps| == 0 then 0
    else
      var before, now := PeakStreak(steps[..|steps| - 1]), Streak(steps);
      if before >= now then before else now
  }

  lemma {:induction false} PeakIsReached(steps: seq<Step>) returns (k: nat)
    ensures k <= |steps| && Streak(steps[..k]) == PeakStreak(steps)
    ensures forall j :: 0 <= j <= |steps| ==> Streak(steps[..j]) <= PeakStreak(steps)
  {
    assert steps[..|steps|] == steps;
    if |steps| == 0 {
      k := 0;
    } else {
      var init := steps[..|steps| - 1];
      k := PeakIsReached(init);
      forall j | 0 <= j <= |init|
        ensures steps[..j] == init[..j]
      {
      }
      if Streak(steps) > PeakStreak(init) {
        k := |steps|;
      }
    }
  }

  /** Without an explicit reset the manager is halted exactly when some losing streak of the
      history reached the limit: no later trade, entry, question or day change reopens it. */
  lemma {:induction false} HaltedIff(l: RiskLimits, s: RiskState, steps: seq<Step>)
    requires s.consecutiveLosses == 0 && !s.halted && l.maxConsecutiveLosses >= 1
    ensures ApplyAll(l, s, steps).consecutiveLosses == Streak(steps)
    ensures ApplyAll(l, s, steps).halted <==> PeakStreak(steps) >= l.maxConsecutiveLosses
  {
    if |steps| > 0 {
      HaltedIff(l, s, steps[..|steps| - 1]);
    }
  }

  // ---------------------------------------------------------------- what the daily counters count

  function At(step: Step): int { step.at }

  /** The steps since the day last changed: the trailing ones on the last step's day. */
  function Today(steps: seq<Step>): seq<Step> {
    if |steps| == 0 then []
    else
      var init, last := steps[..|steps| - 1], steps[|steps| - 1];
      if |init| > 0 && Day(At(init[|init| - 1])) == Day(At(last)) then Today(init) + [last] else [last]
  }

  function TradeCount(steps: seq<Step>): nat { |Filter(steps, (x: Step) => x.Trade?)| }

  function EntryCount(steps: seq<Step>): nat { |Filter(steps, (x: Step) => x.Entry?)| }

  function TotalPnl(steps: seq<Step>): real {
    if |steps| == 0 then 0.0
    else TotalPnl(steps[..|steps| - 1]) + (if steps[|steps| - 1].Trade? then steps[|steps| - 1].pnl else 0.0)
  }

  /** The time of the last exit, of any day. */
  function LastExit(steps: seq<Step>): Option<int> {
    if |steps| == 0 then None
    else if steps[|steps| - 1].Trade? && steps[|steps| - 1].isExit then Some(At(steps[|steps| - 1]))
    else LastExit(steps[..|steps| - 1])
  }

  lemma CountSnoc(steps: seq<Step>, x: Step)
    ensures TradeCount(steps + [x]) == TradeCount(steps) + (if x.Trade? then 1 else 0)
    ensures EntryCount(steps + [x]) == EntryCount(steps) + (if x.Entry? then 1 else 0)
    ensures TotalPnl(steps + [x]) == TotalPnl(steps) + (if x.Trade? then x.pnl else 0.0)
  {
  }

  lemma CountNone()
    ensures TradeCount([]) == 0 && EntryCount([]) == 0 && TotalPnl([]) == 0.0
  {
  }

  /** The state's daily counters against a list of steps. */
  ghost predicate CountsDay(s: RiskState, steps: seq<Step>, day: int) {
    && s.tradeDay == Some(day) && s.tradesToday == TradeCount(steps) && s.entriesToday == EntryCount(steps)
    && s.pnlToday == TotalPnl(steps)
  }

  lemma CountStep(l: RiskLimits, s: RiskState, steps: seq<Step>, x: Step)
    requires if s.tradeDay == Some(Day(At(x))) then CountsDay(s, steps, Day(At(x))) else steps == []
    ensures CountsDay(Apply(l, s, x), steps + [x], Day(At(x)))
  {
    hide TradeCount, EntryCount, TotalPnl;
    CountSnoc(steps, x);
    CountNone();
  }

  /** From a manager that has not seen the first step's day, the daily counters are exactly the
      fills, the entries and the P&L since the day last changed, and the cooldown runs from the
      last exit of any day. */
  lemma {:induction false} CountersCountToday(l: RiskLimits, s: RiskState, steps: seq<Step>)
    requires |steps| > 0 && s.tradeDay != Some(Day(At(steps[0])))
    ensures CountsDay(ApplyAll(l, s, steps), Today(steps), Day(At(steps[|steps| - 1])))
    ensures ApplyAll(l, s, steps).lastExitAt == if LastExit(steps).Some? then LastExit(steps) else s.lastExitAt
  {
    hide CountsDay;
    var n := |steps| - 1;
    var init, x := steps[..n], steps[n];
    if n == 0 {
      assert [] + [x] == [x];
      CountStep(l, ApplyAll(l, s, init), [], x);
    } else {
      CountersCountToday(l, s, init);
      var before := ApplyAll(l, s, init);
      CountedDay(before, Today(init), Day(At(init[n - 1])));
      if Day(At(init[n - 1])) == Day(At(x)) {
        CountStep(l, before, Today(init), x);
      } else {
        assert [] + [x] == [x];
        CountStep(l, before, [], x);
      }
    }
  }

  lemma CountedDay(s: RiskState, steps: seq<Step>, day: int)
    requires CountsDay(s, steps, day)
    ensures s.tradeDay == Some(day)
  {
  }

  // ---------------------------------------------------------------- snapshots without an entry count

  /** The entry count restored from a day's fill count when a snapshot has none. */
  function RestoredEntries(saved: Option<int>, tradesToday: int): int {
    if saved.Some? then saved.value else (tradesToday + 1) / 2
  }

  /** One fill of a paper account, as it is recorded. */
  datatype Booking = Opened(at: int) | Closed(at: int, pnl: real)

  function FillSteps(f: Booking): seq<Step> {
    match f
    case Opened(at) => [Trade(0.0, at, false), Entry(at)]
    case Closed(at, pnl) => [Trade(pnl, at, true)]
  }

  function Recorded(fills: seq<Booking>): seq<Step> {
    if |fills| == 0 then [] else Recorded(fills[..|fills| - 1]) + FillSteps(fills[|fills| - 1])
  }

  /** A day's fills of one position at a time: entries and exits alternate. */
  ghost predicate OneAtATime(fills: seq<Booking>, day: int) {
    && (forall i :: 0 <= i < |fills| ==> Day(fills[i].at) == day)
    && (forall i :: 0 < i < |fills| ==> (fills[i].Opened? <==> fills[i - 1].Closed?))
  }

  /** What a fill does to the risk state. */
  function AfterFill(l: RiskLimits, s: RiskState, f: Booking): RiskState {
    match f
    case Opened(at) => RecordEntry(RecordTrade(l, s, 0.0, at, false), at)
    case Closed(at, pnl) => RecordTrade(l, s, pnl, at, true)
  }

  lemma ApplyFill(l: RiskLimits, s: RiskState, steps: seq<Step>, f: Booking)
    ensures ApplyAll(l, s, steps + FillSteps(f)) == AfterFill(l, ApplyAll(l, s, steps), f)
  {
    if f.Opened? {
      var one := steps + [Trade(0.0, f.at, false)];
      assert one[..|steps|] == steps;
      assert (steps + FillSteps(f))[..|steps| + 1] == one;
    } else {
      assert (steps + FillSteps(f))[..|steps|] == steps;
    }
  }

  lemma {:induction false} LastFill(fills: seq<Booking>, day: int)
    requires |fills| > 0 && OneAtATime(fills, day)
    ensures fills[|fills| - 1].Opened? <==> (fills[0].Opened? <==> |fills| % 2 == 1)
  {
    if |fills| > 1 {
      var init := fills[..|fills| - 1];
      assert forall i :: 0 <= i < |init| ==> init[i] == fills[i];
      LastFill(init, day);
      assert fills[|fills| - 1].Opened? <==> fills[|fills| - 2].Closed?;
    }
  }

  function EntriesIn(fills: seq<Booking>): nat {
    if |fills| == 0 then 0 else EntriesIn(fills[..|fills| - 1]) + (if fills[|fills| - 1].Opened? then 1 else 0)
  }

  lemma {:induction false} HalfAreEntries(fills: seq<Booking>, day: int)
    requires OneAtATime(fills, day)
    ensures RestoredEntries(None, |fills|) == EntriesIn(fills) + if |fills| % 2 == 1 && fills[0].Closed? then 1 else 0
  {
    if |fills| > 0 {
      var init := fills[..|fills| - 1];
      assert forall i :: 0 <= i < |init| ==> init[i] == fills[i];
      HalfAreEntries(init, day);
      LastFill(fills, day);
    }
  }

  lemma CountFill(l: RiskLimits, s: RiskState, f: Booking)
    ensures
      var rolled, after := NewDay(s, f.at), AfterFill(l, s, f);
      && after.tradeDay == Some(Day(f.at)) && after.tradesToday == rolled.tradesToday + 1
      && after.entriesToday == rolled.entriesToday + (if f.Opened? then 1 else 0)
  {
  }

  lemma {:induction false} CountersAfterFills(l: RiskLimits, s: RiskState, fills: seq<Booking>, day: int)
    requires OneAtATime(fills, day) && |fills| > 0 && s.tradeDay != Some(day)
    ensures
      var after := ApplyAll(l, s, Recorded(fills));
      after.tradeDay == Some(day) && after.tradesToday == |fills| && after.entriesToday == EntriesIn(fills)
  {
    hide AfterFill, FillSteps;
    var n := |fills| - 1;
    var init, last := fills[..n], fills[n];
    assert forall i :: 0 <= i < n ==> init[i] == fills[i];
    ApplyFill(l, s, Recorded(init), last);
    CountFill(l, ApplyAll(l, s, Recorded(init)), last);
    if n > 0 {
      CountersAfterFills(l, s, init, day);
    }
  }

  /** The count derived from a day's fill counter never lets an extra entry through, and is the
      entry counter itself unless the day opened with the recovery of an earlier day's position and
      holds an odd number of fills; then it is one too high. */
  lemma RestoredEntriesSafe(l: RiskLimits, s: RiskState, fills: seq<Booking>, day: int)
    requires OneAtATime(fills, day) && |fills| > 0 && s.tradeDay != Some(day)
    ensures
      var after := ApplyAll(l, s, Recorded(fills));
      after.tradeDay == Some(day) &&
      RestoredEntries(None, after.tradesToday) ==
        after.entriesToday + if |fills| % 2 == 1 && fills[0].Closed? then 1 else 0
  {
    CountersAfterFills(l, s, fills, day);
    HalfAreEntries(fills, day);
  }
}
