/** What one paper cycle guarantees whatever it is given: the account and the strategy stay in
    step, a backlog only ever loses stale entries, and forced closes come first. */
module CycleTheorems {
  import opened Common
  import opened Indicators
  import opened Strategy
  import opened StrategyTheorems
  import opened Account
  import opened Risk
  import opened AutoTrader

  /** A well-formed account that remembers the bar it last acted on while it holds a position. */
  ghost predicate InStep(a: AccountState) {
    WellFormed(a) && (a.quantity > 0 ==> a.lastEventAt.Some?)
  }

  // ---------------------------------------------------------------- where events come from

  /** Event k of a walk is the event of some bar against the position held before it. */
  lemma {:induction false} EventSource(rows: seq<Row>, pos: Position, k: nat) returns (i: nat)
    requires k < |Events(rows, pos)|
    ensures i < |rows| && EventAt(rows[i], State(rows[..i], pos)) == Some(Events(rows, pos)[k])
  {
    var n := |rows| - 1;
    if k < |Events(rows[..n], pos)| {
      i := EventSource(rows[..n], pos, k);
      assert rows[..n][..i] == rows[..i];
    } else {
      i := n;
    }
  }

  ghost predicate PositiveCloses(rows: seq<Row>) {
    forall i :: 0 <= i < |rows| ==> rows[i].close > 0.0
  }

  lemma UsableCloses(raw: seq<RawBar>)
    ensures forall i :: 0 <= i < |DropInvalid(raw)| ==> DropInvalid(raw)[i].close > 0.0
  {
    forall i | 0 <= i < |DropInvalid(raw)|
      ensures DropInvalid(raw)[i].close > 0.0
    {
      assert DropInvalid(raw)[i] in DropInvalid(raw);
    }
  }

  lemma EventPrices(rows: seq<Row>, pos: Position)
    requires PositiveCloses(rows)
    ensures forall k :: 0 <= k < |Events(rows, pos)| ==> Events(rows, pos)[k].price > 0.0
  {
  }

  lemma {:induction false} LevelsFound(rows: seq<Row>, i: nat, side: Side)
    requires AscendingRows(rows) && i < |rows| && rows[i].risk.Some?
    ensures
      var e := EntryEvent(rows[i], side, rows[i].risk.value);
      LevelsAt(rows, rows[i].ts, side) == (e.stop, e.target)
  {
    if i < |rows| - 1 {
      LevelsFound(rows[..|rows| - 1], i, side);
    }
  }

  /** Re-deriving the levels of an entry from its bar gives what the entry announced, whichever
      row the replay started from and whatever position it was seeded with. */
  lemma LevelsOfEntry(rows: seq<Row>, c: nat, pos: Position, k: nat) returns (i: nat)
    requires AscendingRows(rows) && c <= |rows|
    requires k < |Events(rows[c..], pos)| && IsEntry(Events(rows[c..], pos)[k])
    ensures
      var e := Events(rows[c..], pos)[k];
      && i < |rows| && e.ts == rows[i].ts && rows[i].risk.Some? && e.stop.Some? && e.target.Some?
      && LevelsAt(rows, e.ts, EntrySide(e.kind)) == (e.stop, e.target)
  {
    var d := EventSource(rows[c..], pos, k);
    i := c + d;
    LevelsFound(rows, i, EntrySide(Events(rows[c..], pos)[k].kind));
  }

  /** Rows after the entry bar do not matter to its levels. */
  lemma {:induction false} LevelsOnPrefix(rows: seq<Row>, n: nat, i: nat, side: Side)
    requires AscendingRows(rows) && i < n <= |rows|
    ensures LevelsAt(rows[..n], rows[i].ts, side) == LevelsAt(rows, rows[i].ts, side)
    decreases |rows|
  {
    if n == |rows| {
      assert rows[..n] == rows;
    } else {
      var init := rows[..|rows| - 1];
      assert init[..n] == rows[..n];
      LevelsOnPrefix(init, n, i, side);
    }
  }

  /** Restart equivalence of the levels, from the raw window: once any run, plain or seeded, has
      announced an entry on some window, every longer window with the same start re-derives
      exactly its stop and target. */
  lemma LevelsSurviveRestart(
      raw: seq<RawBar>, cfg: Config, k: nat, startAfter: Option<int>, initial: Position, n: nat)
    requires AscendingRaw(raw) && k <= |raw|
    requires n < |Replay(Rows(DropInvalid(raw[..k]), cfg), startAfter, initial)|
    requires IsEntry(Replay(Rows(DropInvalid(raw[..k]), cfg), startAfter, initial)[n])
    ensures
      var e := Replay(Rows(DropInvalid(raw[..k]), cfg), startAfter, initial)[n];
      LevelsAt(Rows(DropInvalid(raw), cfg), e.ts, EntrySide(e.kind)) == (e.stop, e.target)
  {
    hide LevelsAt, Rows, Events, AscendingRows;
    var bars, cut := DropInvalid(raw), DropInvalid(raw[..k]);
    assert raw == raw[..k] + raw[k..];
    DropInvalidConcat(raw[..k], raw[k..]);
    assert cut == bars[..|cut|];
    RowsPrefix(bars, cfg, |cut|);
    DropInvalidAscending(raw);
    RowsAscending(bars, cfg);
    var rows := Rows(bars, cfg);
    PrefixAscending(rows, |cut|);
    var i := LevelsOfEntry(rows[..|cut|], Seed(rows[..|cut|], startAfter), initial, n);
    LevelsOnPrefix(rows, |cut|, i, EntrySide(Replay(rows[..|cut|], startAfter, initial)[n].kind));
  }

  lemma PrefixAscending(rows: seq<Row>, n: nat)
    requires AscendingRows(rows) && n <= |rows|
    ensures AscendingRows(rows[..n])
  {
  }

  // ---------------------------------------------------------------- position sync

  /** The oldest unprocessed event is an entry when the account is flat, an exit when it holds. */
  lemma NextMatchesPosition(rows: seq<Row>, a: AccountState)
    requires AscendingRows(rows) && InStep(a) && First(rows, a).Some?
    ensures
      var e := First(rows, a).value;
      && (IsEntry(e) <==> a.quantity == 0)
      && (IsExit(e) <==> a.quantity > 0)
      && (IsExit(e) ==> e.exitLevel.Some?)
      && (PositiveCloses(rows) ==> e.price > 0.0)
  {
    UnprocessedOnRows(rows, a);
    var c := Seed(rows, a.lastEventAt);
    var pos := if a.lastEventAt.None? then Flat else SeedPosition(rows, a);
    assert rows[0..] == rows;
    EventsAlternate(rows[c..], pos);
    assert Follows(Events(rows[c..], pos)[0], Before(Events(rows[c..], pos), 0, pos));
    if PositiveCloses(rows) {
      EventPrices(rows[c..], pos);
    }
  }

  /** The events a scan expires, oldest first. */
  ghost function ExpiredBy(rows: seq<Row>, barLength: int, now: int, a: AccountState): seq<Event>
    requires AscendingRows(rows)
    decreases Ahead(rows, a.lastEventAt)
  {
    UnprocessedOnRows(rows, a);
    var e := First(rows, a);
    if e.None? || IsFresh(e.value, now, barLength) || (IsExit(e.value) && a.quantity > 0) then []
    else [e.value] + ExpiredBy(rows, barLength, now, a.(lastEventAt := Some(e.value.ts)))
  }

  ghost predicate HighWaterRises(before: Option<int>, es: seq<Event>, after: Option<int>) {
    && (forall i :: 0 <= i < |es| ==> before.Some? ==> es[i].ts > before.value)
    && (forall i, j :: 0 <= i < j < |es| ==> es[i].ts < es[j].ts)
    && after == if es == [] then before else Some(es[|es| - 1].ts)
  }

  /** What a scan may do: it only moves the high-water mark, strictly forward over exactly the
      events it expires; each of those was a stale entry, never an exit of a held position;
      and the event it settles on suits the position, late only if it closes one. */
  ghost predicate ScanSound(
      rows: seq<Row>, barLength: int, now: int, a: AccountState, r: Scanned, es: seq<Event>)
  {
    && r.account == a.(lastEventAt := r.account.lastEventAt)
    && HighWaterRises(a.lastEventAt, es, r.account.lastEventAt)
    && r.expired == |es|
    && (forall i :: 0 <= i < |es| ==> !IsFresh(es[i], now, barLength) && IsEntry(es[i]))
    && (a.quantity > 0 ==> es == [])
    && (r.Quiet? ==> (r.last.Some? <==> es != []))
    && (r.Found? ==>
          && First(rows, r.account) == Some(r.event)
          && (r.late <==> !IsFresh(r.event, now, barLength))
          && (r.late ==> a.quantity > 0))
  }

  lemma {:induction false} ScanLaws(rows: seq<Row>, barLength: int, now: int, a: AccountState)
    requires AscendingRows(rows) && InStep(a)
    ensures ScanSound(rows, barLength, now, a, Scan(rows, barLength, now, a), ExpiredBy(rows, barLength, now, a))
    decreases Ahead(rows, a.lastEventAt)
  {
    ScanStep(rows, barLength, now, a);
    if First(rows, a).Some? {
      var e := First(rows, a).value;
      UnprocessedOnRows(rows, a);
      NextMatchesPosition(rows, a);
      if !IsFresh(e, now, barLength) && a.quantity == 0 {
        var marked := a.(lastEventAt := Some(e.ts));
        ScanLaws(rows, barLength, now, marked);
        ExpireOne(rows, barLength, now, a, e, Scan(rows, barLength, now, marked),
                  ExpiredBy(rows, barLength, now, marked));
      }
    }
  }

  lemma ExpireOne(
      rows: seq<Row>, barLength: int, now: int, a: AccountState, e: Event, r: Scanned, es: seq<Event>)
    requires a.lastEventAt.Some? ==> e.ts > a.lastEventAt.value
    requires a.quantity == 0 && IsEntry(e) && !IsFresh(e, now, barLength)
    requires ScanSound(rows, barLength, now, a.(lastEventAt := Some(e.ts)), r, es)
    ensures ScanSound(rows, barLength, now, a, AddExpired(r, e), [e] + es)
  {
    hide First, IsFresh, HighWaterRises;
    MarkOverOne(a.lastEventAt, e, es, r.account.lastEventAt);
    forall i | 0 <= i < |[e] + es|
      ensures !IsFresh(([e] + es)[i], now, barLength) && IsEntry(([e] + es)[i])
    {
      assert i > 0 ==> ([e] + es)[i] == es[i - 1];
    }
  }

  lemma MarkOverOne(before: Option<int>, e: Event, es: seq<Event>, after: Option<int>)
    requires before.Some? ==> e.ts > before.value
    requires HighWaterRises(Some(e.ts), es, after)
    ensures HighWaterRises(before, [e] + es, after)
  {
  }

  // ---------------------------------------------------------------- one fill

  /** A ready plan's event suits the account it is for and is ahead of its high-water mark. */
  ghost predicate Suits(plan: Plan) {
    plan.Ready? && InStep(plan.account) &&
    (IsEntry(plan.event) <==> plan.account.quantity == 0) &&
    (IsExit(plan.event) <==> plan.account.quantity > 0) &&
    (IsExit(plan.event) ==> plan.event.exitLevel.Some?) &&
    plan.event.price > 0.0 &&
    (plan.account.lastEventAt.Some? ==> plan.event.ts > plan.account.lastEventAt.value)
  }

  /** Committing a suitable plan never fails: either a risk gate blocks it and the account is
      untouched, or the fill is made, the account stays in step and the event is marked done. */
  lemma CommitLaws(m: Market, l: RiskLimits, p: Poll, plan: Plan, risk: RiskState, openPositions: int)
    requires Suits(plan)
    ensures
      var (a, _, o) := Commit(m, l, p, plan, risk, openPositions);
      var allowed := Decide(l, NewDay(risk, p.now), Ask(plan.event, p, openPositions)).allowed;
      && InStep(a)
      && a.squareOffDate == plan.account.squareOffDate
      && (!allowed ==> o.RiskBlocked? && o.event == plan.event && a == plan.account)
      && (allowed ==>
            && o == Acted(plan.event, plan.late, o.order) && o.order.Placed?
            && o.order.price == FillPrice(plan.event, plan.late, plan.lastPrice)
            && a.lastEventAt == Some(plan.event.ts)
            && (IsEntry(plan.event) ==>
                  && TimeOfDay(p.now) <= l.entryCutoff && openPositions < l.maxOpenPositions
                  && a.quantity == p.quantity > 0 && a.side == Some(EntrySide(plan.event.kind))
                  && a.stop == plan.event.stop && a.target == plan.event.target)
            && (IsExit(plan.event) ==>
                  a.quantity == (if p.quantity < plan.account.quantity then plan.account.quantity - p.quantity else 0)))
  {
  }

  /** Closing everything a held account has is always placed and leaves it flat. */
  lemma ForceCloseLaws(
      m: Market, l: RiskLimits, bars: seq<Bar>, now: int, a: AccountState, risk: RiskState,
      missedDay: Option<int>, markSquareOff: bool)
    requires bars != [] && InStep(a) && a.quantity > 0
    ensures
      var f := ForceClose(m, l, bars, now, a, risk, missedDay, markSquareOff);
      && f.Finished? && InStep(f.account) && f.account.quantity == 0
      && f.outcome.ForcedClose? && f.outcome.order.Placed? && f.outcome.order.price == bars[|bars| - 1].close
      && f.account.lastEventAt == Some(bars[|bars| - 1].ts)
      && f.account.squareOffDate == if markSquareOff then Some(Day(now)) else a.squareOffDate
  {
  }

  // ---------------------------------------------------------------- one cycle

  /** A plan that follows the signals: the mark only rises, a held account is untouched, and
      what is ready suits the account. */
  ghost predicate Judged(p: Poll, a: AccountState, risk: RiskState, plan: Plan) {
    && plan.account == a.(lastEventAt := plan.account.lastEventAt)
    && (a.lastEventAt.Some? ==> plan.account.lastEventAt.Some? && plan.account.lastEventAt.value >= a.lastEventAt.value)
    && (a.quantity > 0 ==> plan.account == a)
    && InStep(plan.account)
    && (plan.Ready? ==> Suits(plan) && (IsEntry(plan.event) ==> a.squareOffDate != Some(Day(p.now))))
    && (plan.Finished? ==>
          && plan.risk == risk
          && (plan.outcome.NothingNew? || plan.outcome.NoSignal? || plan.outcome.Expired?
              || plan.outcome.SquaredOffToday? || plan.outcome.NoContract?))
  }

  /** What the backlog and its judgement give a cycle. */
  lemma FollowLaws(m: Market, p: Poll, bars: seq<Bar>, a: AccountState, risk: RiskState)
    requires bars != [] && AscendingRows(WindowRows(m, bars, p.now, a.quantity > 0)) && InStep(a)
    requires forall i :: 0 <= i < |bars| ==> bars[i].close > 0.0
    ensures Judged(p, a, risk, FollowSignals(m, p, bars, a, risk))
  {
    hide Judge, Judged, Rows, Scan, ScanSound, PositiveCloses, AscendingRows;
    var rows := WindowRows(m, bars, p.now, a.quantity > 0);
    ScanLaws(rows, m.barLength, p.now, a);
    WindowCloses(m, bars, p.now, a.quantity > 0);
    JudgeLaws(rows, m.barLength, p, a, Scan(rows, m.barLength, p.now, a),
              ExpiredBy(rows, m.barLength, p.now, a), risk, bars[|bars| - 1].close);
  }

  lemma JudgeLaws(
      rows: seq<Row>, barLength: int, p: Poll, a: AccountState, s: Scanned, es: seq<Event>,
      risk: RiskState, lastPrice: real)
    requires AscendingRows(rows) && PositiveCloses(rows) && InStep(a)
    requires ScanSound(rows, barLength, p.now, a, s, es)
    ensures Judged(p, a, risk, Judge(p, s, risk, lastPrice))
  {
    hide SyncedEvents, IsFresh;
    if s.Found? {
      FoundSuits(rows, s.account, s.event);
    }
  }

  lemma FoundSuits(rows: seq<Row>, a: AccountState, e: Event)
    requires AscendingRows(rows) && PositiveCloses(rows) && InStep(a) && First(rows, a) == Some(e)
    ensures (IsEntry(e) <==> a.quantity == 0) && (IsExit(e) <==> a.quantity > 0)
    ensures (IsExit(e) ==> e.exitLevel.Some?) && e.price > 0.0
    ensures a.lastEventAt.Some? ==> e.ts > a.lastEventAt.value
  {
    NextMatchesPosition(rows, a);
    UnprocessedOnRows(rows, a);
  }

  lemma WindowCloses(m: Market, bars: seq<Bar>, now: int, held: bool)
    requires forall i :: 0 <= i < |bars| ==> bars[i].close > 0.0
    ensures PositiveCloses(WindowRows(m, bars, now, held))
  {
  }

  /** Position sync: from an account in step, a cycle on any window, clock, switches and counts
      leaves it in step; no order fails or crashes and no exit ever finds nothing to close. */
  lemma CycleKeepsStep(m: Market, l: RiskLimits, p: Poll, a: AccountState, risk: RiskState)
    requires AscendingRaw(p.data) && InStep(a)
    ensures
      var (next, _, o) := Cycle(m, l, p, a, risk);
      && InStep(next)
      && !o.ExitWithoutPosition?
      && (o.Acted? || o.ForcedClose? ==> o.order.Placed?)
  {
    var bars := DropInvalid(p.data);
    if bars != [] {
      var stale := StaleDay(a, p.now);
      if stale.Some? {
        ForceCloseLaws(m, l, bars, p.now, a, risk, stale, false);
      } else if SquareOffDue(l, a, p.now) {
        ForceCloseLaws(m, l, bars, p.now, a, risk, None, true);
      } else {
        SignalsKeepStep(m, l, p, bars, a, risk);
      }
    }
  }

  /** What a cycle without a forced close leaves: still in step, nothing failed, and a larger
      position only before the entry cutoff and without a square-off today. */
  ghost predicate Kept(l: RiskLimits, p: Poll, a: AccountState, next: AccountState, o: Outcome) {
    && InStep(next)
    && !o.ExitWithoutPosition? && !o.ForcedClose? && !o.WaitingToClose? && !o.NoMarketData?
    && (o.Acted? ==> o.order.Placed?)
    && next.squareOffDate == a.squareOffDate
    && (next.quantity > a.quantity ==>
          a.squareOffDate != Some(Day(p.now)) && TimeOfDay(p.now) <= l.entryCutoff)
  }

  lemma SettleKeeps(m: Market, l: RiskLimits, p: Poll, a: AccountState, risk: RiskState, plan: Plan)
    requires Judged(p, a, risk, plan)
    ensures
      var (next, _, o) := Settle(m, l, p, plan, risk, a.quantity);
      Kept(l, p, a, next, o)
  {
    if plan.Ready? {
      CommitLaws(m, l, p, plan, risk, CountSeen(p, plan.event, a.quantity));
    }
  }

  lemma SignalsKeepStep(m: Market, l: RiskLimits, p: Poll, bars: seq<Bar>, a: AccountState, risk: RiskState)
    requires bars == DropInvalid(p.data) && bars != [] && AscendingRaw(p.data) && InStep(a)
    ensures AscendingRows(WindowRows(m, bars, p.now, a.quantity > 0))
    ensures
      var (next, _, o) := Settle(m, l, p, FollowSignals(m, p, bars, a, risk), risk, a.quantity);
      Kept(l, p, a, next, o)
  {
    WindowAscending(m, p.data, p.now, a.quantity > 0);
    UsableCloses(p.data);
    FollowLaws(m, p, bars, a, risk);
    SettleKeeps(m, l, p, a, risk, FollowSignals(m, p, bars, a, risk));
  }

  // ---------------------------------------------------------------- forced closes

  /** The cycle opens a position: an entry is ready and every gate on new risk is open. */
  ghost predicate OpensEntry(m: Market, l: RiskLimits, p: Poll, a: AccountState, risk: RiskState)
    requires AscendingRaw(p.data)
  {
    var plan := Prepare(m, l, p, a, risk);
    plan.Ready? && IsEntry(plan.event) &&
    EntryGatesOpen(l, NewDay(risk, p.now), Ask(plan.event, p, CountSeen(p, plan.event, a.quantity)))
  }

  /** A flat account ends a cycle with a position exactly when it opens one. */
  lemma OpensIff(m: Market, l: RiskLimits, p: Poll, a: AccountState, risk: RiskState)
    requires AscendingRaw(p.data) && InStep(a) && a.quantity == 0
    ensures Cycle(m, l, p, a, risk).0.quantity > 0 <==> OpensEntry(m, l, p, a, risk)
    ensures OpensEntry(m, l, p, a, risk) ==> TimeOfDay(p.now) <= l.entryCutoff
  {
    hide FollowSignals, Rows, Commit;
    var bars := DropInvalid(p.data);
    if bars != [] {
      WindowAscending(m, p.data, p.now, false);
      UsableCloses(p.data);
      FollowLaws(m, p, bars, a, risk);
      var plan := Prepare(m, l, p, a, risk);
      if plan.Ready? {
        var q := Ask(plan.event, p, CountSeen(p, plan.event, a.quantity));
        CommitLaws(m, l, p, plan, risk, CountSeen(p, plan.event, a.quantity));
        EntryAllowedIff(l, NewDay(risk, p.now), q);
      }
    }
  }

  /** Once the square-off time is reached, a completed cycle on data with a bar from today leaves
      the account flat, whatever the switches, counters and counts say, unless it was flat before
      and opens an entry; and it cannot open one if the entry cutoff lies before the square-off time. */
  lemma SquareOffFlattens(m: Market, l: RiskLimits, p: Poll, a: AccountState, risk: RiskState)
    requires AscendingRaw(p.data) && InStep(a)
    requires WithinHours(l, p.now) && TimeOfDay(p.now) >= l.squareOffTime
    requires DropInvalid(p.data) != [] && Day(DropInvalid(p.data)[|DropInvalid(p.data)| - 1].ts) == Day(p.now)
    requires a.squareOffDate == Some(Day(p.now)) ==> a.quantity == 0
    ensures Cycle(m, l, p, a, risk).0.quantity == 0 <==> !(a.quantity == 0 && OpensEntry(m, l, p, a, risk))
    ensures l.entryCutoff < l.squareOffTime ==> Cycle(m, l, p, a, risk).0.quantity == 0
  {
    hide OpensEntry;
    var bars := DropInvalid(p.data);
    CycleKeepsStep(m, l, p, a, risk);
    if a.quantity == 0 {
      OpensIff(m, l, p, a, risk);
    } else if StaleDay(a, p.now).Some? {
      ForceCloseLaws(m, l, bars, p.now, a, risk, StaleDay(a, p.now), false);
    } else {
      ForceCloseLaws(m, l, bars, p.now, a, risk, None, true);
    }
  }

  /** A position from an earlier day: until it is closed the cycle does nothing else, so no
      strategy event is acted on first; and it is closed as soon as today has a bar in session. */
  lemma MissedSquareOffFirst(m: Market, l: RiskLimits, p: Poll, a: AccountState, risk: RiskState)
    requires AscendingRaw(p.data) && InStep(a) && StaleDay(a, p.now).Some?
    ensures
      var (next, _, o) := Cycle(m, l, p, a, risk);
      var bars := DropInvalid(p.data);
      var ready := bars != [] && WithinHours(l, p.now) && Day(bars[|bars| - 1].ts) == Day(p.now);
      && (ready ==> o.ForcedClose? && o.order == Placed(o.order.pnl, bars[|bars| - 1].close) && next.quantity == 0)
      && (!ready ==> (o.NoMarketData? || o.WaitingToClose?) && next == a)
  {
    var bars := DropInvalid(p.data);
    if bars != [] {
      ForceCloseLaws(m, l, bars, p.now, a, risk, StaleDay(a, p.now), false);
    }
  }

  /** No square-off date lies ahead of `day`, and one on it means the account is flat. */
  ghost predicate SettledBy(a: AccountState, day: int) {
    a.squareOffDate.Some? ==> a.squareOffDate.value <= day && (a.squareOffDate.value == day ==> a.quantity == 0)
  }

  /** After today's square-off nothing reopens the account today. */
  lemma CycleKeepsSettled(m: Market, l: RiskLimits, p: Poll, a: AccountState, risk: RiskState, day: int)
    requires AscendingRaw(p.data) && InStep(a) && SettledBy(a, day) && day <= Day(p.now)
    ensures SettledBy(Cycle(m, l, p, a, risk).0, Day(p.now))
  {
    var bars := DropInvalid(p.data);
    if bars != [] {
      var stale := StaleDay(a, p.now);
      if stale.Some? {
        ForceCloseLaws(m, l, bars, p.now, a, risk, stale, false);
      } else if SquareOffDue(l, a, p.now) {
        ForceCloseLaws(m, l, bars, p.now, a, risk, None, true);
      } else {
        SignalsKeepStep(m, l, p, bars, a, risk);
      }
    }
  }
}
