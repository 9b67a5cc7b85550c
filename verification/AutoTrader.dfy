/** One paper cycle: the strategy re-evaluated on a freshly fetched window, the risk manager,
    and at most one fill. `Cycle` is the specification; RunCycle is the program's form, on the
    mutable account and risk manager, and is proved to compute it. A cycle splits in two:
    `Prepare` decides what to do, `Commit` checks and fills (for an entry, under the guard). */
module AutoTrader {
  import opened Common
  import opened Indicators
  import opened Strategy
  import opened StrategyTheorems
  import opened Account
  import opened Risk

  const FRESHNESS_BARS := 2

  /** What resolving the entry's option contract gave; at most one resolution is asked a cycle. */
  datatype Resolution = NoResolver | NoMatch | Match(contract: Contract)

  /** Everything a cycle is given besides the account and the risk manager: the fetched window,
      the clock, and the open-position counts read before the cycle and inside the guard. */
  datatype Poll = Poll(
    data: seq<RawBar>, now: int, quantity: int, resolution: Resolution,
    openBefore: Option<int>, openFresh: Option<int>)

  datatype Market = Market(indexId: string, cfg: Config, barLength: int)

  datatype Outcome =
    | NoMarketData
    | WaitingToClose(since: int)
    | ForcedClose(event: Event, missedDay: Option<int>, order: OrderResult)
    | NothingNew
    | NoSignal
    | Expired(event: Event, count: nat)
    | ExitWithoutPosition(event: Event)
    | SquaredOffToday(event: Event)
    | NoContract(event: Event)
    | RiskBlocked(event: Event, reason: Reason)
    | Acted(event: Event, late: bool, order: OrderResult)

  // ---------------------------------------------------------------- position sync

  /** The stop and target an entry on the bar at t would have had; missing without that bar. */
  function LevelsAt(rows: seq<Row>, t: int, side: Side): (Option<real>, Option<real>) {
    if |rows| == 0 then (None, None)
    else
      var last := rows[|rows| - 1];
      if last.ts != t then LevelsAt(rows[..|rows| - 1], t, side)
      else if last.risk.None? then (None, None)
      else
        var e := EntryEvent(last, side, last.risk.value);
        (e.stop, e.target)
  }

  /** The position the strategy is seeded with: the account's own, its levels re-derived from
      the entry bar when the account has lost them. */
  function SeedPosition(rows: seq<Row>, a: AccountState): Position
    requires a.lastEventAt.Some?
  {
    if a.quantity <= 0 || a.side.None? then Flat
    else if a.stop.Some? && a.target.Some? then Held(a.side.value, a.stop, a.target)
    else
      var (stop, target) := LevelsAt(rows, a.lastEventAt.value, a.side.value);
      Held(a.side.value, stop, target)
  }

  function SyncedEvents(rows: seq<Row>, a: AccountState): seq<Event> {
    if a.lastEventAt.None? then Events(rows, Flat)
    else Replay(rows, a.lastEventAt, SeedPosition(rows, a))
  }

  function Unprocessed(rows: seq<Row>, a: AccountState): seq<Event> {
    if a.lastEventAt.None? then SyncedEvents(rows, a) else After(SyncedEvents(rows, a), a.lastEventAt.value)
  }

  // ---------------------------------------------------------------- the backlog

  datatype Scanned =
    | Quiet(account: AccountState, expired: nat, last: Option<Event>)
    | Found(account: AccountState, expired: nat, event: Event, late: bool)

  predicate IsFresh(e: Event, now: int, barLength: int) {
    now - (e.ts + barLength) <= barLength * FRESHNESS_BARS
  }

  /** How many bars of the window are still ahead of the high-water mark. */
  function Ahead(rows: seq<Row>, last: Option<int>): nat { |rows| - Seed(rows, last) }

  /** Events of the rows from c on are after anything the first c rows reach. */
  lemma TailEvents(rows: seq<Row>, c: nat, pos: Position)
    requires AscendingRows(rows) && c <= |rows|
    ensures forall i :: 0 <= i < |Events(rows[c..], pos)| ==>
      c < |rows| && Events(rows[c..], pos)[i].ts >= rows[c].ts && Skip(rows, Events(rows[c..], pos)[i].ts) > c
  {
    if c < |rows| {
      EventTimes(rows[c..], pos, rows[c].ts, rows[|rows| - 1].ts);
      forall i | 0 <= i < |Events(rows[c..], pos)|
        ensures Skip(rows, Events(rows[c..], pos)[i].ts) > c
      {
        SkipPast(rows, c, Events(rows[c..], pos)[i].ts);
      }
    } else {
      assert rows[c..] == [];
      assert Events(rows[c..], pos) == [];
    }
  }

  lemma SkipPast(rows: seq<Row>, c: nat, t: int)
    requires AscendingRows(rows) && c < |rows| && rows[c].ts <= t
    ensures Skip(rows, t) > c
  {
  }

  lemma UnprocessedOnRows(rows: seq<Row>, a: AccountState)
    requires AscendingRows(rows)
    ensures Unprocessed(rows, a) == SyncedEvents(rows, a)
    ensures forall i :: 0 <= i < |Unprocessed(rows, a)| ==>
      var e := Unprocessed(rows, a)[i];
      && (a.lastEventAt.Some? ==> e.ts > a.lastEventAt.value)
      && Ahead(rows, Some(e.ts)) < Ahead(rows, a.lastEventAt)
  {
    hide State, Events, SeedPosition;
    var c := Seed(rows, a.lastEventAt);
    var pos := if a.lastEventAt.None? then Flat else SeedPosition(rows, a);
    assert rows[0..] == rows;
    var es := Events(rows[c..], pos);
    assert SyncedEvents(rows, a) == es;
    TailEvents(rows, c, pos);
    if a.lastEventAt.Some? {
      SplitFilters([], es, a.lastEventAt.value);
      assert [] + es == es;
    }
  }

  function AddExpired(r: Scanned, e: Event): Scanned {
    match r
    case Quiet(a, n, last) => Quiet(a, n + 1, if last.Some? then last else Some(e))
    case Found(a, n, event, late) => Found(a, n + 1, event, late)
  }

  /** The backlog: the oldest unprocessed event is taken if it is fresh, taken late if it would
      close the open position, and otherwise expired and the strategy resumed after it. */
  function Scan(rows: seq<Row>, barLength: int, now: int, a: AccountState): Scanned
    requires AscendingRows(rows)
    decreases Ahead(rows, a.lastEventAt)
  {
    UnprocessedOnRows(rows, a);
    var es := Unprocessed(rows, a);
    if es == [] then Quiet(a, 0, None)
    else if IsFresh(es[0], now, barLength) then Found(a, 0, es[0], false)
    else if IsExit(es[0]) && a.quantity > 0 then Found(a, 0, es[0], true)
    else AddExpired(Scan(rows, barLength, now, a.(lastEventAt := Some(es[0].ts))), es[0])
  }

  // ---------------------------------------------------------------- one cycle

  /** The day of an open position entered before today, i.e. one that missed its square-off. */
  function StaleDay(a: AccountState, now: int): Option<int> {
    if a.quantity <= 0 || a.lastEventAt.None? || Day(a.lastEventAt.value) >= Day(now) then None
    else Some(Day(a.lastEventAt.value))
  }

  /** The window without a last bar that is still forming. */
  function Completed(bars: seq<Bar>, barLength: int, now: int): (r: seq<Bar>)
    ensures r <= bars
  {
    if |bars| > 0 && bars[|bars| - 1].ts + barLength > now then bars[..|bars| - 1] else bars
  }

  predicate SquareOffDue(l: RiskLimits, a: AccountState, now: int) {
    WithinHours(l, now) && a.squareOffDate != Some(Day(now)) && TimeOfDay(now) >= l.squareOffTime && a.quantity > 0
  }

  datatype Plan =
    | Finished(account: AccountState, risk: RiskState, outcome: Outcome)
    | Ready(account: AccountState, event: Event, late: bool, contract: Option<Contract>, lastPrice: real)

  /** Closing the whole position at the latest close, past every risk gate. */
  function ForceClose(
      m: Market, l: RiskLimits, bars: seq<Bar>, now: int, a: AccountState, risk: RiskState,
      missedDay: Option<int>, markSquareOff: bool): Plan
    requires bars != []
  {
    var last := bars[|bars| - 1];
    var event := Event(last.ts, SquareOff, last.close, None, None, None, Some(last.close));
    var (closed, order) := PlaceEvent(a, SquareOff, last.close, a.quantity, m.indexId, None);
    if !order.Placed? then Finished(closed, risk, ForcedClose(event, missedDay, order))
    else
      Finished(closed.(lastEventAt := Some(last.ts),
                       squareOffDate := if markSquareOff then Some(Day(now)) else closed.squareOffDate),
               RecordTrade(l, risk, order.pnl, now, true), ForcedClose(event, missedDay, order))
  }

  function QuietOutcome(s: Scanned): Outcome
    requires s.Quiet?
  {
    if s.expired > 0 && s.last.Some? then Expired(s.last.value, s.expired)
    else if s.account.lastEventAt.Some? then NothingNew
    else NoSignal
  }

  /** From the scanned backlog to an outcome, or to an event ready for the risk check. */
  function Judge(p: Poll, s: Scanned, risk: RiskState, lastPrice: real): Plan {
    if s.Quiet? then Finished(s.account, risk, QuietOutcome(s))
    else if IsExit(s.event) then
      if s.account.quantity == 0
      then Finished(s.account.(lastEventAt := Some(s.event.ts)), risk, ExitWithoutPosition(s.event))
      else Ready(s.account, s.event, s.late, None, lastPrice)
    else if s.account.squareOffDate == Some(Day(p.now)) then Finished(s.account, risk, SquaredOffToday(s.event))
    else if !p.resolution.Match? then Finished(s.account, risk, NoContract(s.event))
    else Ready(s.account, s.event, s.late, Some(p.resolution.contract), lastPrice)
  }

  /** A held position watches the forming bar too; a flat account only completed ones. */
  function Window(m: Market, bars: seq<Bar>, now: int, held: bool): (window: seq<Bar>)
    ensures |window| <= |bars|
  {
    if held then bars else Completed(bars, m.barLength, now)
  }

  function WindowRows(m: Market, bars: seq<Bar>, now: int, held: bool): (rows: seq<Row>) {
    Rows(Window(m, bars, now, held), m.cfg)
  }

  lemma WindowAscending(m: Market, data: seq<RawBar>, now: int, held: bool)
    requires AscendingRaw(data)
    ensures AscendingRows(WindowRows(m, DropInvalid(data), now, held))
  {
    DropInvalidAscending(data);
    var bars := DropInvalid(data);
    RowsAscending(if held then bars else Completed(bars, m.barLength, now), m.cfg);
  }

  function FollowSignals(m: Market, p: Poll, bars: seq<Bar>, a: AccountState, risk: RiskState): Plan
    requires bars != [] && AscendingRows(WindowRows(m, bars, p.now, a.quantity > 0))
  {
    Judge(p, Scan(WindowRows(m, bars, p.now, a.quantity > 0), m.barLength, p.now, a), risk, bars[|bars| - 1].close)
  }

  function Prepare(m: Market, l: RiskLimits, p: Poll, a: AccountState, risk: RiskState): Plan
    requires AscendingRaw(p.data)
  {
    var bars := DropInvalid(p.data);
    if bars == [] then Finished(a, risk, NoMarketData)
    else
      var last := bars[|bars| - 1];
      var stale := StaleDay(a, p.now);
      if stale.Some? then
        if !WithinHours(l, p.now) || Day(last.ts) != Day(p.now) then Finished(a, risk, WaitingToClose(stale.value))
        else ForceClose(m, l, bars, p.now, a, risk, stale, false)
      else if SquareOffDue(l, a, p.now) then ForceClose(m, l, bars, p.now, a, risk, None, true)
      else
        WindowAscending(m, p.data, p.now, a.quantity > 0);
        FollowSignals(m, p, bars, a, risk)
  }

  /** The question an event puts to the risk manager. */
  function Ask(e: Event, p: Poll, openPositions: int): Question {
    Question(if IsEntry(e) then Buy else Sell, p.quantity, openPositions, p.now,
             Some(p.quantity as real * e.price), None, !IsEntry(e), true)
  }

  /** Exits fill at their level, late ones at the latest price, entries at the bar's close. */
  function FillPrice(e: Event, late: bool, lastPrice: real): real {
    if IsEntry(e) then e.price
    else if late || e.exitLevel.None? then lastPrice
    else e.exitLevel.value
  }

  /** The risk check and the fill of a ready event. */
  function Commit(m: Market, l: RiskLimits, p: Poll, plan: Plan, risk0: RiskState, openPositions: int)
    : (AccountState, RiskState, Outcome)
    requires plan.Ready?
  {
    var e, a, risk := plan.event, plan.account, NewDay(risk0, p.now);
    var decision := Decide(l, risk, Ask(e, p, openPositions));
    if !decision.allowed then (a, risk, RiskBlocked(e, decision.reason))
    else
      var (filled, order) :=
        PlaceEvent(a, e.kind, FillPrice(e, plan.late, plan.lastPrice), p.quantity, m.indexId, plan.contract);
      if !order.Placed? then (filled, risk, Acted(e, plan.late, order))
      else if IsEntry(e) then
        (filled.(stop := e.stop, target := e.target, lastEventAt := Some(e.ts)),
         RecordEntry(RecordTrade(l, risk, order.pnl, p.now, false), p.now), Acted(e, plan.late, order))
      else
        (filled.(lastEventAt := Some(e.ts)), RecordTrade(l, risk, order.pnl, p.now, true), Acted(e, plan.late, order))
  }

  /** The open-position count the check of this event sees. */
  function CountSeen(p: Poll, e: Event, own: int): int {
    if IsEntry(e) && p.openFresh.Some? then p.openFresh.value
    else if p.openBefore.Some? then p.openBefore.value
    else if own > 0 then 1 else 0
  }

  function Settle(m: Market, l: RiskLimits, p: Poll, plan: Plan, risk: RiskState, own: int)
    : (AccountState, RiskState, Outcome)
  {
    if plan.Finished? then (plan.account, plan.risk, plan.outcome)
    else Commit(m, l, p, plan, risk, CountSeen(p, plan.event, own))
  }

  function Cycle(m: Market, l: RiskLimits, p: Poll, a: AccountState, risk: RiskState)
    : (AccountState, RiskState, Outcome)
    requires AscendingRaw(p.data)
  {
    Settle(m, l, p, Prepare(m, l, p, a, risk), risk, a.quantity)
  }

  // ---------------------------------------------------------------- the program's form

  method AccountSyncedEvents(window: seq<Bar>, cfg: Config, account: SimulatedAccount) returns (events: seq<Event>)
    ensures events == SyncedEvents(Rows(window, cfg), account.View())
  {
    var frame := ComputeIndicators(window, cfg);
    var rows := BuildRows(window, frame, cfg);
    events := SyncedOnRows(rows, account);
  }

  method SyncedOnRows(rows: seq<Row>, account: SimulatedAccount) returns (events: seq<Event>)
    ensures events == SyncedEvents(rows, account.View())
  {
    if account.lastEventAt.None? {
      var _, plain := Track(rows, None, Flat);
      assert rows[0..] == rows;
      return plain;
    }
    var held := Flat;
    if account.quantity > 0 && account.side.Some? {
      var stop, target := account.stop, account.target;
      if stop.None? || target.None? {
        var levels := LevelsAt(rows, account.lastEventAt.value, account.side.value);
        stop, target := levels.0, levels.1;
      }
      held := Held(account.side.value, stop, target);
    }
    var _, seeded := Track(rows, account.lastEventAt, held);
    return seeded;
  }

  function Accumulate(expired: nat, last: Option<Event>, r: Scanned): Scanned {
    match r
    case Quiet(a, n, l) => Quiet(a, n + expired, if l.Some? then l else last)
    case Found(a, n, event, late) => Found(a, n + expired, event, late)
  }

  lemma AccumulateStep(expired: nat, last: Option<Event>, r: Scanned, e: Event)
    ensures Accumulate(expired, last, AddExpired(r, e)) == Accumulate(expired + 1, Some(e), r)
  {
  }

  /** The oldest unprocessed event of the window, if any. */
  method Oldest(window: seq<Bar>, cfg: Config, account: SimulatedAccount) returns (candidate: Option<Event>)
    requires AscendingRows(Rows(window, cfg))
    ensures candidate == First(Rows(window, cfg), account.View())
  {
    var events := AccountSyncedEvents(window, cfg, account);
    var unprocessed := if account.lastEventAt.None? then events else After(events, account.lastEventAt.value);
    return if unprocessed == [] then None else Some(unprocessed[0]);
  }

  function First(rows: seq<Row>, a: AccountState): Option<Event> {
    if Unprocessed(rows, a) == [] then None else Some(Unprocessed(rows, a)[0])
  }

  /** One unfolding of the backlog. */
  lemma ScanStep(rows: seq<Row>, barLength: int, now: int, a: AccountState)
    requires AscendingRows(rows)
    ensures First(rows, a).None? ==> Scan(rows, barLength, now, a) == Quiet(a, 0, None)
    ensures First(rows, a).Some? ==>
      var e := First(rows, a).value;
      var marked := a.(lastEventAt := Some(e.ts));
      && Ahead(rows, marked.lastEventAt) < Ahead(rows, a.lastEventAt)
      && Scan(rows, barLength, now, a) ==
           if IsFresh(e, now, barLength) then Found(a, 0, e, false)
           else if IsExit(e) && a.quantity > 0 then Found(a, 0, e, true)
           else AddExpired(Scan(rows, barLength, now, marked), e)
  {
    UnprocessedOnRows(rows, a);
  }

  datatype Pass = Stop(result: Scanned) | Expire(event: Event)

  /** One pass over the backlog: it either settles the scan or expires the oldest event. */
  method ScanPass(window: seq<Bar>, m: Market, now: int, account: SimulatedAccount) returns (p: Pass)
    requires AscendingRows(Rows(window, m.cfg))
    modifies account`lastEventAt
    ensures
      var rows, before, after := Rows(window, m.cfg), old(account.View()), account.View();
      match p
      case Stop(r) => after == before == r.account && r == Scan(rows, m.barLength, now, before)
      case Expire(e) =>
        && after == before.(lastEventAt := Some(e.ts))
        && Ahead(rows, after.lastEventAt) < Ahead(rows, before.lastEventAt)
        && Scan(rows, m.barLength, now, before) == AddExpired(Scan(rows, m.barLength, now, after), e)
  {
    ScanStep(Rows(window, m.cfg), m.barLength, now, account.View());
    var candidate := Oldest(window, m.cfg, account);
    if candidate.None? {
      return Stop(Quiet(account.View(), 0, None));
    }
    var e := candidate.value;
    if IsFresh(e, now, m.barLength) {
      return Stop(Found(account.View(), 0, e, false));
    }
    if IsExit(e) && account.quantity > 0 {
      return Stop(Found(account.View(), 0, e, true));
    }
    account.lastEventAt := Some(e.ts);
    return Expire(e);
  }

  /** The bounded loop over the backlog. It always leaves by a break. */
  method ScanBacklog(window: seq<Bar>, dataLength: nat, m: Market, now: int, account: SimulatedAccount)
    returns (r: Scanned, ghost broke: bool)
    requires AscendingRows(Rows(window, m.cfg)) && |window| <= dataLength
    modifies account`lastEventAt
    ensures r == Scan(Rows(window, m.cfg), m.barLength, now, old(account.View()))
    ensures account.View() == r.account
    ensures broke
  {
    ghost var rows := Rows(window, m.cfg);
    ghost var spec := Scan(rows, m.barLength, now, account.View());
    var expired: nat := 0;
    var lastExpired: Option<Event> := None;
    broke := false;
    r := Quiet(account.View(), 0, None);
    for pass := 0 to dataLength + 1
      invariant !broke
      invariant expired == pass && pass + Ahead(rows, account.lastEventAt) <= |rows|
      invariant spec == Accumulate(expired, lastExpired, Scan(rows, m.barLength, now, account.View()))
    {
      var step := ScanPass(window, m, now, account);
      if step.Stop? {
        r, broke := Accumulate(expired, lastExpired, step.result), true;
        break;
      }
      AccumulateStep(expired, lastExpired, Scan(rows, m.barLength, now, account.View()), step.event);
      lastExpired := Some(step.event);
      expired := expired + 1;
    }
  }

  /** The forced close, on the account and the risk manager. */
  method CloseNow(
      m: Market, bars: seq<Bar>, now: int, account: SimulatedAccount, risk: RiskManager,
      missedDay: Option<int>, markSquareOff: bool)
    returns (r: Outcome)
    requires bars != []
    modifies account, risk`state
    ensures Finished(account.View(), risk.state, r)
         == ForceClose(m, risk.limits, bars, now, old(account.View()), old(risk.state), missedDay, markSquareOff)
  {
    var last := bars[|bars| - 1];
    var event := Event(last.ts, SquareOff, last.close, None, None, None, Some(last.close));
    var order := account.Place(SquareOff, last.close, account.quantity, m.indexId, None);
    if order.Placed? {
      risk.Record(order.pnl, now, true);
      account.lastEventAt := Some(last.ts);
      if markSquareOff {
        account.squareOffDate := Some(Day(now));
      }
    }
    r := ForcedClose(event, missedDay, order);
  }

  /** The check and the fill of a ready event, on the account and the risk manager. */
  method CommitNow(m: Market, p: Poll, plan: Plan, account: SimulatedAccount, risk: RiskManager, openPositions: int)
    returns (r: Outcome)
    requires plan.Ready? && plan.account == account.View()
    modifies account, risk`state
    ensures (account.View(), risk.state, r) == Commit(m, risk.limits, p, plan, old(risk.state), openPositions)
  {
    var e := plan.event;
    var decision := risk.Check(Ask(e, p, openPositions));
    if !decision.allowed {
      return RiskBlocked(e, decision.reason);
    }
    var order := account.Place(e.kind, FillPrice(e, plan.late, plan.lastPrice), p.quantity, m.indexId, plan.contract);
    if order.Placed? {
      if IsEntry(e) {
        account.stop, account.target := e.stop, e.target;
      }
      risk.Record(order.pnl, p.now, !IsEntry(e));
      if IsEntry(e) {
        risk.CountEntry(p.now);
      }
      account.lastEventAt := Some(e.ts);
    }
    return Acted(e, plan.late, order);
  }

  method RunCycle(m: Market, p: Poll, account: SimulatedAccount, risk: RiskManager) returns (r: Outcome)
    requires AscendingRaw(p.data)
    modifies account, risk`state
    ensures (account.View(), risk.state, r) == Cycle(m, risk.limits, p, old(account.View()), old(risk.state))
  {
    var bars := DropInvalid(p.data);
    if bars == [] {
      return NoMarketData;
    }
    var last := bars[|bars| - 1];
    var own := account.quantity;
    var stale := StaleDay(account.View(), p.now);
    if stale.Some? {
      if !WithinHours(risk.limits, p.now) || Day(last.ts) != Day(p.now) {
        return WaitingToClose(stale.value);
      }
      r := CloseNow(m, bars, p.now, account, risk, stale, false);
      return;
    }
    if SquareOffDue(risk.limits, account.View(), p.now) {
      r := CloseNow(m, bars, p.now, account, risk, None, true);
      return;
    }
    WindowAscending(m, p.data, p.now, account.quantity > 0);
    var plan := FollowNow(m, p, bars, account, risk);
    if plan.Finished? {
      return plan.outcome;
    }
    r := CommitNow(m, p, plan, account, risk, CountSeen(p, plan.event, own));
  }

  /** The strategy part of a cycle: scan the backlog and judge what it found. */
  method FollowNow(m: Market, p: Poll, bars: seq<Bar>, account: SimulatedAccount, risk: RiskManager)
    returns (plan: Plan)
    requires bars != [] && AscendingRows(WindowRows(m, bars, p.now, account.quantity > 0))
    modifies account`lastEventAt
    ensures plan == FollowSignals(m, p, bars, old(account.View()), risk.state)
    ensures account.View() == plan.account
    ensures plan.Finished? ==> plan.risk == risk.state
  {
    hide Judge, Rows, Scan;
    var window := Window(m, bars, p.now, account.quantity > 0);
    var scanned, broke := ScanBacklog(window, |bars|, m, p.now, account);
    plan := JudgeNow(p, scanned, bars[|bars| - 1].close, account, risk);
  }

  method JudgeNow(p: Poll, s: Scanned, lastPrice: real, account: SimulatedAccount, risk: RiskManager)
    returns (plan: Plan)
    requires s.account == account.View()
    modifies account`lastEventAt
    ensures plan == Judge(p, s, risk.state, lastPrice)
    ensures account.View() == plan.account
    ensures plan.Finished? ==> plan.risk == risk.state
  {
    plan := Judge(p, s, risk.state, lastPrice);
    if plan.Finished? && plan.outcome.ExitWithoutPosition? {
      account.lastEventAt := Some(plan.outcome.event.ts);
    }
  }
}
