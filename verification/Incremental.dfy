/** The polling driver against one run over the whole series. A poll may show the forming bar, on
    which a held account already looks for its exit. The driver stays in step with the batch run
    whatever it is shown; its fills are the batch's, in order, exactly unless such an early exit took
    the target where the finished bar also reached the stop. */
module Incremental {
  import opened Common
  import opened Indicators
  import opened Strategy
  import opened StrategyTheorems
  import opened Account
  import opened Risk
  import opened AutoTrader
  import opened CycleTheorems
  import opened RunTheorems

  // ---------------------------------------------------------------- fills

  /** What a fill of the driver or of the batch is compared on. */
  datatype Fill = Fill(ts: int, kind: Kind, price: real, stop: Option<real>, target: Option<real>)

  function FillOf(e: Event): Fill {
    Fill(e.ts, e.kind, if IsExit(e) && e.exitLevel.Some? then e.exitLevel.value else e.price, e.stop, e.target)
  }

  function FillsOf(es: seq<Event>): seq<Fill> { seq(|es|, i requires 0 <= i < |es| => FillOf(es[i])) }

  function FillIn(o: Outcome): Fill
    requires o.Acted? && o.order.Placed?
  {
    Fill(o.event.ts, o.event.kind, o.order.price, o.event.stop, o.event.target)
  }

  function NewFill(o: Outcome): seq<Fill> { if o.Acted? && o.order.Placed? then [FillIn(o)] else [] }

  ghost function Fills(m: Market, ticks: seq<Tick>, a: AccountState): seq<Fill>
    requires Polled(ticks)
  {
    if |ticks| == 0 then []
    else
      Fills(m, ticks[..|ticks| - 1], a) +
      NewFill(CycleOf(m, ticks[|ticks| - 1], AccountAfter(m, ticks[..|ticks| - 1], a)).2)
  }

  // ---------------------------------------------------------------- in sync with the batch

  /** The account stands exactly where the batch stands after its first f events; its levels
      are either that entry's or lost. */
  ghost predicate InSync(all: seq<Event>, f: nat, a: AccountState, q: int) {
    && f <= |all| && InStep(a)
    && a.lastEventAt == (if f == 0 then None else Some(all[f - 1].ts))
    && (if f > 0 && IsEntry(all[f - 1])
        then
          && a.quantity == q > 0 && a.side == Some(EntrySide(all[f - 1].kind))
          && (a.stop.Some? && a.target.Some? ==> a.stop == all[f - 1].stop && a.target == all[f - 1].target)
        else a.quantity == 0)
  }

  lemma SyncSurvivesRestart(all: seq<Event>, f: nat, a: AccountState, q: int)
    requires InSync(all, f, a, q)
    ensures InSync(all, f, Restarted(a), q)
  {
  }

  /** Being in sync is about the first f events only. */
  lemma SyncOnPrefix(some: seq<Event>, all: seq<Event>, f: nat, a: AccountState, q: int)
    requires f <= |some| && f <= |all| && some[..f] == all[..f]
    ensures InSync(some, f, a, q) <==> InSync(all, f, a, q)
  {
    if f > 0 {
      assert some[..f][f - 1] == all[..f][f - 1];
    }
  }

  lemma AfterIsSuffix(es: seq<Event>, f: nat)
    requires AscendingEvents(es) && 0 < f <= |es|
    ensures After(es, es[f - 1].ts) == es[f..]
    ensures UpTo(es, es[f - 1].ts) == es[..f]
  {
    assert es == es[..f] + es[f..];
    SplitFilters(es[..f], es[f..], es[f - 1].ts);
  }

  /** After everything up to the time of event f - 1 the batch holds what that event left. */
  lemma HeldAfterEvent(rows: seq<Row>, f: nat)
    requires AscendingRows(rows) && 0 < f <= |Events(rows, Flat)|
    ensures HeldAt(rows, Events(rows, Flat)[f - 1].ts) == PositionFrom(Events(rows, Flat)[f - 1])
  {
    hide EventAt, PositionFrom, Events, State, UpTo, After;
    var es := Events(rows, Flat);
    var e := es[f - 1];
    var c := Skip(rows, e.ts);
    EventsAscending(rows, Flat);
    AfterIsSuffix(es, f);
    CutByTime(rows, c, Flat, e.ts);
    StateFromEvents(rows[..c], Flat);
  }

  /** An account in sync is seeded with the position the batch holds. */
  lemma SeedIsBatchPosition(rows: seq<Row>, f: nat, a: AccountState, q: int)
    requires AscendingRows(rows) && 0 < f && InSync(Events(rows, Flat), f, a, q)
    ensures SeedPosition(rows, a) == HeldAt(rows, a.lastEventAt.value)
  {
    hide State, Events, LevelsAt;
    var e := Events(rows, Flat)[f - 1];
    HeldAfterEvent(rows, f);
    EventsAlternate(rows, Flat);
    assert Follows(e, Before(Events(rows, Flat), f - 1, Flat));
    if IsEntry(e) {
      assert rows[0..] == rows;
      var i := LevelsOfEntry(rows, 0, Flat, f - 1);
    }
  }

  /** So what is left to process is exactly the rest of the batch. */
  lemma SyncedPending(rows: seq<Row>, f: nat, a: AccountState, q: int)
    requires AscendingRows(rows) && InSync(Events(rows, Flat), f, a, q)
    ensures Unprocessed(rows, a) == Events(rows, Flat)[f..]
  {
    UnprocessedOnRows(rows, a);
    if f > 0 {
      SeedIsBatchPosition(rows, f, a, q);
      SeededResume(rows, a.lastEventAt.value);
      EventsAscending(rows, Flat);
      AfterIsSuffix(Events(rows, Flat), f);
    }
  }

  /** Beyond the window nothing is left. */
  lemma NothingAfter(rows: seq<Row>, a: AccountState)
    requires AscendingRows(rows) && a.lastEventAt.Some?
    requires forall i :: 0 <= i < |rows| ==> rows[i].ts < a.lastEventAt.value
    ensures Unprocessed(rows, a) == []
  {
    UnprocessedOnRows(rows, a);
    assert Seed(rows, a.lastEventAt) == |rows|;
    assert rows[|rows|..] == [];
  }

  // ---------------------------------------------------------------- the batch, bar by bar

  /** The events of the first n bars, as the batch numbers them. */
  ghost function Batch(m: Market, bars: seq<Bar>, n: nat): seq<Event>
    requires n <= |bars|
  {
    Events(Rows(bars[..n], m.cfg), Flat)
  }

  /** All of them. */
  ghost function All(m: Market, bars: seq<Bar>): seq<Event> { Batch(m, bars, |bars|) }

  lemma EmptyBatch(m: Market, bars: seq<Bar>)
    ensures Batch(m, bars, 0) == []
  {
    assert |Rows(bars[..0], m.cfg)| == 0;
  }

  lemma RowPrices(bars: seq<Bar>, cfg: Config, i: nat)
    requires i < |bars|
    ensures
      var r := Rows(bars, cfg)[i];
      r.ts == bars[i].ts && r.high == bars[i].high && r.low == bars[i].low && r.close == bars[i].close
  {
  }

  lemma OneRow(rows: seq<Row>, k: nat)
    requires |rows| == k + 1
    ensures Events(rows, Flat) == Events(rows[..k], Flat) + OneOrNone(EventAt(rows[k], State(rows[..k], Flat)))
  {
    assert rows[..|rows| - 1] == rows[..k];
  }

  /** The events of the first n bars and of one more, whichever: its own event against the position
      the n bars leave. */
  lemma OneMoreBar(m: Market, bars: seq<Bar>, n: nat, b: Bar) returns (row: Row)
    requires n <= |bars| && (n > 0 ==> b.ts > bars[n - 1].ts)
    ensures row.ts == b.ts && row.high == b.high && row.low == b.low && row.close == b.close
    ensures Events(Rows(bars[..n] + [b], m.cfg), Flat) ==
      Batch(m, bars, n) + OneOrNone(EventAt(row, State(Rows(bars[..n], m.cfg), Flat)))
  {
    hide Rows, Events, State, EventAt;
    var longer := bars[..n] + [b];
    assert longer[..n] == bars[..n];
    RowsPrefix(longer, m.cfg, n);
    OneRow(Rows(longer, m.cfg), n);
    RowPrices(longer, m.cfg, n);
    row := Rows(longer, m.cfg)[n];
  }

  lemma BatchGrows(m: Market, bars: seq<Bar>, k: nat, n: nat)
    requires k <= n <= |bars|
    ensures Batch(m, bars, k) <= Batch(m, bars, n)
  {
    var rows := Rows(bars[..n], m.cfg);
    assert bars[..n][..k] == bars[..k];
    RowsPrefix(bars[..n], m.cfg, k);
    WalkSplit(rows, k, Flat);
  }

  /** One more bar is at most one more event, of that bar. */
  lemma BatchStep(m: Market, bars: seq<Bar>, n: nat)
    requires n < |bars| && Ascending(bars)
    ensures
      var some, more := Batch(m, bars, n), Batch(m, bars, n + 1);
      some <= more && |more| <= |some| + 1 && (|more| > |some| ==> more[|some|].ts == bars[n].ts)
  {
    assert bars[..n + 1] == bars[..n] + [bars[n]];
    var row := OneMoreBar(m, bars, n, bars[n]);
  }

  // ---------------------------------------------------------------- one cycle, from its scan

  predicate Blocked(o: Outcome) {
    o.WaitingToClose? || o.SquaredOffToday? || o.NoContract? || o.RiskBlocked?
  }

  /** From an account with nothing or one fresh event pending: the event is filled and marked, or the
      account is left alone, and only a gate can keep it from being filled. */
  ghost predicate Handles(x: Option<Event>, q: int, a: AccountState, next: AccountState, o: Outcome) {
    && !o.ForcedClose?
    && (!o.Acted? ==> next == a)
    && (x.Some? ==> o.Acted? || Blocked(o))
    && (o.Acted? ==>
          && x.Some? && o.event == x.value && o.order.Placed? && FillIn(o) == FillOf(x.value)
          && InStep(next) && next.lastEventAt == Some(x.value.ts)
          && (IsEntry(x.value) || IsExit(x.value))
          && (IsEntry(x.value) ==>
                && next.quantity == q > 0 && next.side == Some(EntrySide(x.value.kind))
                && next.stop == x.value.stop && next.target == x.value.target)
          && (IsExit(x.value) ==> next.quantity == 0))
  }

  lemma CommitHandles(
      m: Market, l: RiskLimits, p: Poll, q: int, a: AccountState, e: Event, plan: Plan, risk: RiskState, count: int)
    requires p.quantity == q && (a.quantity == 0 || a.quantity == q)
    requires Suits(plan) && plan.account == a && plan.event == e && !plan.late
    ensures
      var (next, _, o) := Commit(m, l, p, plan, risk, count);
      Handles(Some(e), q, a, next, o)
  {
    CommitLaws(m, l, p, plan, risk, count);
  }

  lemma SettleHandles(
      m: Market, l: RiskLimits, p: Poll, q: int, a: AccountState, x: Option<Event>, s: Scanned,
      risk: RiskState, lastPrice: real)
    requires p.quantity == q && (a.quantity == 0 || a.quantity == q)
    requires s == if x.Some? then Found(a, 0, x.value, false) else Quiet(a, 0, None)
    requires Judged(p, a, risk, Judge(p, s, risk, lastPrice))
    ensures
      var (next, _, o) := Settle(m, l, p, Judge(p, s, risk, lastPrice), risk, a.quantity);
      Handles(x, q, a, next, o)
  {
    hide Commit;
    var plan := Judge(p, s, risk, lastPrice);
    if plan.Ready? {
      CommitHandles(m, l, p, q, a, plan.event, plan, risk, CountSeen(p, plan.event, a.quantity));
    }
  }

  /** What a window has left for the account, oldest first; the first of them fresh if there is one. */
  ghost predicate Owes(rows: seq<Row>, barLength: int, now: int, a: AccountState, x: Option<Event>)
    requires AscendingRows(rows)
  {
    First(rows, a) == x && (x.Some? ==> IsFresh(x.value, now, barLength))
  }

  lemma FollowHandles(
      m: Market, l: RiskLimits, p: Poll, bars: seq<Bar>, q: int, a: AccountState, x: Option<Event>, risk: RiskState)
    requires AscendingRaw(p.data) && bars == DropInvalid(p.data) && bars != [] && InStep(a)
    requires p.quantity == q && (a.quantity == 0 || a.quantity == q)
    requires AscendingRows(WindowRows(m, bars, p.now, a.quantity > 0))
    requires Owes(WindowRows(m, bars, p.now, a.quantity > 0), m.barLength, p.now, a, x)
    ensures
      var (next, _, o) := Settle(m, l, p, FollowSignals(m, p, bars, a, risk), risk, a.quantity);
      Handles(x, q, a, next, o)
  {
    hide Settle, Judge, Rows, InStep, Handles, Unprocessed, AscendingRows;
    var rows := WindowRows(m, bars, p.now, a.quantity > 0);
    UsableCloses(p.data);
    FollowLaws(m, p, bars, a, risk);
    ScanStep(rows, m.barLength, p.now, a);
    SettleHandles(m, l, p, q, a, x, Scan(rows, m.barLength, p.now, a), risk, bars[|bars| - 1].close);
  }

  /** The mandatory part of a cycle comes first; otherwise the signals decide. */
  lemma PrepareCases(m: Market, l: RiskLimits, p: Poll, a: AccountState, risk: RiskState)
    requires AscendingRaw(p.data) && InStep(a)
    ensures
      var bars := DropInvalid(p.data);
      var (next, _, o) := Cycle(m, l, p, a, risk);
      if bars == [] then next == a && o.NoMarketData?
      else if StaleDay(a, p.now).Some? then o.ForcedClose? || (o.WaitingToClose? && next == a)
      else if SquareOffDue(l, a, p.now) then o.ForcedClose?
      else
        AscendingRows(WindowRows(m, bars, p.now, a.quantity > 0)) &&
        Cycle(m, l, p, a, risk) == Settle(m, l, p, FollowSignals(m, p, bars, a, risk), risk, a.quantity)
  {
    hide FollowSignals, Rows, Commit;
    var bars := DropInvalid(p.data);
    WindowAscending(m, p.data, p.now, a.quantity > 0);
    if bars != [] && a.quantity > 0 {
      ForceCloseLaws(m, l, bars, p.now, a, risk, StaleDay(a, p.now), false);
      ForceCloseLaws(m, l, bars, p.now, a, risk, None, true);
    }
  }

  lemma CycleHandles(m: Market, l: RiskLimits, p: Poll, q: int, a: AccountState, x: Option<Event>, risk: RiskState)
    requires AscendingRaw(p.data) && InStep(a) && p.quantity == q && (a.quantity == 0 || a.quantity == q)
    requires DropInvalid(p.data) == [] ==> x == None
    requires DropInvalid(p.data) != [] ==>
      var rows := WindowRows(m, DropInvalid(p.data), p.now, a.quantity > 0);
      AscendingRows(rows) && Owes(rows, m.barLength, p.now, a, x)
    ensures
      var (next, _, o) := Cycle(m, l, p, a, risk);
      o.ForcedClose? || Handles(x, q, a, next, o)
  {
    hide Settle, FollowSignals, Rows, Cycle, StaleDay, SquareOffDue, WellFormed, Owes, AscendingRows;
    var bars := DropInvalid(p.data);
    PrepareCases(m, l, p, a, risk);
    if bars != [] && StaleDay(a, p.now).None? && !SquareOffDue(l, a, p.now) {
      FollowHandles(m, l, p, bars, q, a, x, risk);
    }
  }

  /** Exactly when a fresh pending event is filled: an exit whenever its few gates are open, an entry
      when today's square-off has not happened, its contract resolves and every gate is open. */
  ghost predicate FillGates(l: RiskLimits, p: Poll, a: AccountState, e: Event, risk: RiskState) {
    var question := Ask(e, p, CountSeen(p, e, a.quantity));
    if IsExit(e) then ExitGatesOpen(l, question)
    else a.squareOffDate != Some(Day(p.now)) && p.resolution.Match? && EntryGatesOpen(l, NewDay(risk, p.now), question)
  }

  lemma SettleFillsIff(
      m: Market, l: RiskLimits, p: Poll, a: AccountState, e: Event, risk: RiskState, lastPrice: real)
    requires InStep(a) && Judged(p, a, risk, Judge(p, Found(a, 0, e, false), risk, lastPrice))
    requires (IsEntry(e) <==> a.quantity == 0) && (IsExit(e) <==> a.quantity > 0)
    ensures
      var o := Settle(m, l, p, Judge(p, Found(a, 0, e, false), risk, lastPrice), risk, a.quantity).2;
      o.Acted? <==> FillGates(l, p, a, e, risk)
  {
    hide Commit;
    var plan := Judge(p, Found(a, 0, e, false), risk, lastPrice);
    if plan.Ready? {
      var count := CountSeen(p, e, a.quantity);
      CommitLaws(m, l, p, plan, risk, count);
      if IsExit(e) {
        ExitAllowedIff(l, NewDay(risk, p.now), Ask(e, p, count));
      } else {
        EntryAllowedIff(l, NewDay(risk, p.now), Ask(e, p, count));
      }
    }
  }

  lemma CycleFillsIff(m: Market, l: RiskLimits, p: Poll, a: AccountState, e: Event, risk: RiskState)
    requires AscendingRaw(p.data) && InStep(a) && DropInvalid(p.data) != []
    requires StaleDay(a, p.now).None? && !SquareOffDue(l, a, p.now)
    requires
      var rows := WindowRows(m, DropInvalid(p.data), p.now, a.quantity > 0);
      AscendingRows(rows) && Owes(rows, m.barLength, p.now, a, Some(e))
    ensures Cycle(m, l, p, a, risk).2.Acted? <==> FillGates(l, p, a, e, risk)
  {
    hide Settle, Judge, Rows, InStep, Unprocessed, AscendingRows, FillGates, StaleDay, SquareOffDue;
    var bars := DropInvalid(p.data);
    var rows := WindowRows(m, bars, p.now, a.quantity > 0);
    UsableCloses(p.data);
    FollowLaws(m, p, bars, a, risk);
    ScanStep(rows, m.barLength, p.now, a);
    NextMatchesPosition(rows, a);
    PrepareCases(m, l, p, a, risk);
    SettleFillsIff(m, l, p, a, e, risk, bars[|bars| - 1].close);
  }

  // ---------------------------------------------------------------- what a poll owes

  /** A forming bar has seen part of what its finished form has seen. */
  predicate PartOf(forming: Bar, final: Bar) {
    forming.ts == final.ts && final.low <= forming.low && forming.high <= final.high
  }

  /** A poll that shows the first n bars, all over, and perhaps the next one so far. */
  ghost predicate Sees(m: Market, p: Poll, bars: seq<Bar>, v: Shown, q: int) {
    && Shows(m, p, bars, v, q)
    && (v.n > 0 ==> bars[v.n - 1].ts + m.barLength <= p.now)
    && (v.forming.Some? ==> v.n < |bars| && PartOf(v.forming.value, bars[v.n]))
  }

  /** In sync with the whole batch after f events: those of the bars seen, or one more that was
      filled early, on the bar still forming. */
  ghost predicate Caught(m: Market, bars: seq<Bar>, n: nat, f: nat, a: AccountState, q: int)
    requires n <= |bars|
  {
    InSync(All(m, bars), f, a, q) && (f <= |Batch(m, bars, n)| || Early(m, bars, n, f, a))
  }

  ghost predicate Early(m: Market, bars: seq<Bar>, n: nat, f: nat, a: AccountState)
    requires n <= |bars|
  {
    n < |bars| && f == |Batch(m, bars, n + 1)| && a.quantity == 0 && a.lastEventAt == Some(bars[n].ts)
  }

  lemma CaughtGrows(m: Market, bars: seq<Bar>, n: nat, k: nat, f: nat, a: AccountState, q: int)
    requires n <= k <= |bars| && Caught(m, bars, n, f, a, q)
    ensures Caught(m, bars, k, f, a, q)
  {
    hide Batch, InSync;
    BatchGrows(m, bars, n, k);
    if n < k {
      BatchGrows(m, bars, n + 1, k);
    }
  }

  /** The events of what the poll shows. */
  ghost function SeenEvents(m: Market, bars: seq<Bar>, v: Shown): seq<Event>
    requires v.n <= |bars|
  {
    Events(Rows(Visible(bars, v), m.cfg), Flat)
  }

  lemma SeenGrows(m: Market, bars: seq<Bar>, v: Shown)
    requires v.n <= |bars| && (v.forming.Some? && v.n > 0 ==> v.forming.value.ts > bars[v.n - 1].ts)
    ensures Batch(m, bars, v.n) <= SeenEvents(m, bars, v)
    ensures |SeenEvents(m, bars, v)| <= |Batch(m, bars, v.n)| + (if v.forming.Some? then 1 else 0)
    ensures |SeenEvents(m, bars, v)| > |Batch(m, bars, v.n)| ==>
      SeenEvents(m, bars, v)[|Batch(m, bars, v.n)|].ts == v.forming.value.ts
  {
    if v.forming.Some? {
      var row := OneMoreBar(m, bars, v.n, v.forming.value);
    } else {
      assert Visible(bars, v) == bars[..v.n];
    }
  }

  /** What the account still has to do: the batch's next event on the bars seen; after those, a held
      account's exit on the forming bar. */
  ghost function Owed(m: Market, bars: seq<Bar>, v: Shown, f: nat, a: AccountState): Option<Event>
    requires v.n <= |bars|
  {
    if f < |Batch(m, bars, v.n)| then Some(Batch(m, bars, v.n)[f])
    else if a.quantity > 0 && f < |SeenEvents(m, bars, v)| then Some(SeenEvents(m, bars, v)[f])
    else None
  }

  /** A flat account's window is exactly the bars that are over. */
  lemma OverWindow(m: Market, p: Poll, bars: seq<Bar>, v: Shown, q: int)
    requires Sees(m, p, bars, v, q)
    ensures Window(m, Visible(bars, v), p.now, false) == bars[..v.n]
  {
  }

  lemma ShownAscends(m: Market, p: Poll, bars: seq<Bar>, v: Shown, q: int)
    requires Sees(m, p, bars, v, q)
    ensures Ascending(Visible(bars, v)) && (v.forming.Some? && v.n > 0 ==> v.forming.value.ts > bars[v.n - 1].ts)
  {
    DropInvalidAscending(p.data);
    if v.forming.Some? && v.n > 0 {
      assert Visible(bars, v)[v.n - 1] == bars[v.n - 1];
    }
  }

  /** A held account owes the next event of all that is shown. */
  lemma HeldOwes(m: Market, p: Poll, bars: seq<Bar>, v: Shown, f: nat, q: int, a: AccountState)
    requires Sees(m, p, bars, v, q) && Ascending(bars) && a.quantity > 0
    requires f <= |Batch(m, bars, v.n)| && InSync(All(m, bars), f, a, q) && Batch(m, bars, v.n) <= All(m, bars)
    ensures AscendingRows(Rows(Visible(bars, v), m.cfg))
    ensures First(Rows(Visible(bars, v), m.cfg), a) == Owed(m, bars, v, f, a)
  {
    hide Rows, Events, InSync, Unprocessed;
    ShownAscends(m, p, bars, v, q);
    RowsAscending(Visible(bars, v), m.cfg);
    SeenGrows(m, bars, v);
    var seen, all := SeenEvents(m, bars, v), All(m, bars);
    assert seen[..f] == Batch(m, bars, v.n)[..f] == all[..f];
    SyncOnPrefix(seen, all, f, a, q);
    SyncedPending(Rows(Visible(bars, v), m.cfg), f, a, q);
  }

  /** A flat one the next event of the bars that are over, if it has not been ahead of them. */
  lemma FlatOwes(m: Market, p: Poll, bars: seq<Bar>, v: Shown, f: nat, q: int, a: AccountState)
    requires Sees(m, p, bars, v, q) && Ascending(bars) && a.quantity == 0
    requires Caught(m, bars, v.n, f, a, q) && Batch(m, bars, v.n) <= All(m, bars)
    ensures AscendingRows(Rows(bars[..v.n], m.cfg))
    ensures First(Rows(bars[..v.n], m.cfg), a) == Owed(m, bars, v, f, a)
  {
    hide Rows, Events, InSync, Unprocessed, All;
    RowsAscending(bars[..v.n], m.cfg);
    var some, all, rows := Batch(m, bars, v.n), All(m, bars), Rows(bars[..v.n], m.cfg);
    if f <= |some| {
      assert some[..f] == all[..f];
      SyncOnPrefix(some, all, f, a, q);
      SyncedPending(rows, f, a, q);
    } else {
      assert forall i :: 0 <= i < |rows| ==> rows[i].ts == bars[..v.n][i].ts == bars[i].ts < bars[v.n].ts;
      NothingAfter(rows, a);
    }
  }

  lemma InSyncQuantity(all: seq<Event>, f: nat, a: AccountState, q: int)
    requires InSync(all, f, a, q)
    ensures InStep(a) && a.quantity >= 0 && (a.quantity == 0 || a.quantity == q)
    ensures a.quantity > 0 ==> f > 0 && f <= |all| && IsEntry(all[f - 1])
  {
  }

  lemma CycleOwes(m: Market, p: Poll, bars: seq<Bar>, v: Shown, f: nat, q: int, a: AccountState)
    requires Sees(m, p, bars, v, q) && Ascending(bars) && m.barLength >= 0 && Caught(m, bars, v.n, f, a, q)
    requires f < |Batch(m, bars, v.n)| ==> IsFresh(Batch(m, bars, v.n)[f], p.now, m.barLength)
    ensures
      var rows := WindowRows(m, DropInvalid(p.data), p.now, a.quantity > 0);
      AscendingRows(rows) && Owes(rows, m.barLength, p.now, a, Owed(m, bars, v, f, a))
    ensures DropInvalid(p.data) == [] ==> Owed(m, bars, v, f, a) == None
  {
    hide Rows, Events, InSync, First, AscendingRows;
    BatchGrows(m, bars, v.n, |bars|);
    ShownAscends(m, p, bars, v, q);
    SeenGrows(m, bars, v);
    InSyncQuantity(All(m, bars), f, a, q);
    if a.quantity > 0 {
      HeldOwes(m, p, bars, v, f, q, a);
    } else {
      OverWindow(m, p, bars, v, q);
      FlatOwes(m, p, bars, v, f, q, a);
    }
    if DropInvalid(p.data) == [] {
      EmptyBatch(m, bars);
    }
  }

  // ---------------------------------------------------------------- an early exit against the finished bar

  predicate TouchesStop(b: Bar, pos: Position) {
    pos.Held? && pos.stop.Some? && (if pos.side.Call? then b.low <= pos.stop.value else b.high >= pos.stop.value)
  }

  /** The position the batch holds after the bars seen. */
  ghost function BatchPosition(m: Market, bars: seq<Bar>, n: nat): Position
    requires n <= |bars|
  {
    State(Rows(bars[..n], m.cfg), Flat)
  }

  /** The fill is on a bar that is over; or on the forming one, which then had already touched the stop
      if its finished form ever does. */
  ghost predicate Agrees(m: Market, bars: seq<Bar>, v: Shown, f: nat)
    requires v.n <= |bars|
  {
    f < |Batch(m, bars, v.n)| || v.forming.None? || v.n == |bars| ||
    TouchesStop(v.forming.value, BatchPosition(m, bars, v.n)) || !TouchesStop(bars[v.n], BatchPosition(m, bars, v.n))
  }

  /** Two bars of one time, the first part of the second, against one held position: if the first
      ends it so does the second, and in the same way exactly if the first touched the stop or the
      second does not. */
  lemma ExitsCompared(part: Row, whole: Row, pos: Position)
    requires pos.Held? && part.ts == whole.ts && whole.low <= part.low && part.high <= whole.high
    requires EventAt(part, pos).Some?
    ensures EventAt(whole, pos).Some? && IsExit(EventAt(whole, pos).value) && IsExit(EventAt(part, pos).value)
    ensures EventAt(whole, pos).value.ts == EventAt(part, pos).value.ts
    ensures FillOf(EventAt(part, pos).value) == FillOf(EventAt(whole, pos).value)
      <==> StopHit(part, pos) || !StopHit(whole, pos)
  {
  }

  lemma EarlyExit(m: Market, bars: seq<Bar>, v: Shown, f: nat)
    requires Ascending(bars) && v.n < |bars| && v.forming.Some? && PartOf(v.forming.value, bars[v.n])
    requires BatchPosition(m, bars, v.n).Held? && f == |Batch(m, bars, v.n)| && f < |SeenEvents(m, bars, v)|
    ensures
      var e, more := SeenEvents(m, bars, v)[f], Batch(m, bars, v.n + 1);
      && |more| == f + 1 && IsExit(more[f]) && IsExit(e) && e.ts == more[f].ts == bars[v.n].ts
      && (FillOf(e) == FillOf(more[f]) <==> Agrees(m, bars, v, f))
  {
    hide Rows, Events, State, EventAt, FillOf;
    var pos := BatchPosition(m, bars, v.n);
    var part := OneMoreBar(m, bars, v.n, v.forming.value);
    var whole := OneMoreBar(m, bars, v.n, bars[v.n]);
    assert bars[..v.n + 1] == bars[..v.n] + [bars[v.n]];
    assert EventAt(part, pos).Some?;
    ExitsCompared(part, whole, pos);
    StampedWithBar(part, pos);
  }

  lemma StampedWithBar(row: Row, pos: Position)
    ensures EventAt(row, pos).Some? ==> EventAt(row, pos).value.ts == row.ts
  {
  }

  // ---------------------------------------------------------------- one cycle

  /** One cycle without a forced close: it fills the batch's next event, at its time and of its sort,
      or leaves the account where it was; the fill is the batch's own exactly if it agrees; and only a
      gate keeps an event of the bars seen from being filled. */
  ghost predicate Advances(
      m: Market, bars: seq<Bar>, v: Shown, f: nat, q: int, a: AccountState, next: AccountState, o: Outcome)
    requires v.n <= |bars|
  {
    var all := All(m, bars);
    && !o.ForcedClose?
    && (o.Acted? ==> f < |Batch(m, bars, v.n)| || (v.forming.Some? && a.quantity > 0))
    && (!o.Acted? ==> Caught(m, bars, v.n, f, next, q))
    && (o.Acted? ==>
          && o.order.Placed? && f < |all| && Caught(m, bars, v.n, f + 1, next, q)
          && o.event.ts == all[f].ts && (IsEntry(o.event) <==> IsEntry(all[f]))
          && (IsExit(o.event) <==> IsExit(all[f]))
          && (FillIn(o) == FillOf(all[f]) <==> Agrees(m, bars, v, f)))
    && (f < |Batch(m, bars, v.n)| ==> o.Acted? || Blocked(o))
  }

  lemma FilledInSync(all: seq<Event>, f: nat, e: Event, q: int, a: AccountState, next: AccountState, o: Outcome)
    requires f < |all| && InSync(all, f, a, q) && Handles(Some(e), q, a, next, o) && o.Acted?
    requires e.ts == all[f].ts && (IsEntry(all[f]) ==> e == all[f]) && (IsEntry(e) <==> IsEntry(all[f]))
    ensures InSync(all, f + 1, next, q)
  {
  }

  lemma HandledAdvances(
      m: Market, p: Poll, bars: seq<Bar>, v: Shown, f: nat, q: int, a: AccountState, next: AccountState, o: Outcome)
    requires Sees(m, p, bars, v, q) && Ascending(bars) && Caught(m, bars, v.n, f, a, q)
    requires Handles(Owed(m, bars, v, f, a), q, a, next, o)
    ensures Advances(m, bars, v, f, q, a, next, o)
  {
    hide Rows, Events, InSync, FillOf, FillIn, Handles;
    BatchGrows(m, bars, v.n, |bars|);
    var all := All(m, bars);
    HandledCases(Owed(m, bars, v, f, a), q, a, next, o);
    InSyncQuantity(all, f, a, q);
    if o.Acted? {
      ShownAscends(m, p, bars, v, q);
      SeenGrows(m, bars, v);
      var e := Owed(m, bars, v, f, a).value;
      if f < |Batch(m, bars, v.n)| {
        FilledInSync(all, f, e, q, a, next, o);
      } else {
        assert v.forming.Some?;
        HeldInBatch(m, bars, v.n, f, a, q);
        EarlyExit(m, bars, v, f);
        BatchGrows(m, bars, v.n + 1, |bars|);
        FilledInSync(all, f, e, q, a, next, o);
      }
    }
  }

  lemma HandledCases(x: Option<Event>, q: int, a: AccountState, next: AccountState, o: Outcome)
    requires Handles(x, q, a, next, o)
    ensures !o.ForcedClose? && (!o.Acted? ==> next == a) && (x.Some? ==> o.Acted? || Blocked(o))
    ensures o.Acted? ==>
      && x.Some? && o.event == x.value && o.order.Placed? && FillIn(o) == FillOf(x.value)
      && next.lastEventAt == Some(x.value.ts) && (IsEntry(x.value) || IsExit(x.value))
      && (IsExit(x.value) ==> next.quantity == 0)
  {
  }

  /** A held account that has caught up with the bars seen is held by the batch as well. */
  lemma HeldInBatch(m: Market, bars: seq<Bar>, n: nat, f: nat, a: AccountState, q: int)
    requires n <= |bars| && a.quantity > 0 && f == |Batch(m, bars, n)|
    requires InSync(All(m, bars), f, a, q) && Batch(m, bars, n) <= All(m, bars)
    ensures BatchPosition(m, bars, n).Held?
  {
    hide Rows, Events, State, InSync;
    InSyncQuantity(All(m, bars), f, a, q);
    StateFromEvents(Rows(bars[..n], m.cfg), Flat);
    assert All(m, bars)[f - 1] == Batch(m, bars, n)[f - 1];
  }

  lemma CycleCatchesUp(
      m: Market, l: RiskLimits, p: Poll, bars: seq<Bar>, v: Shown, f: nat, q: int, a: AccountState, risk: RiskState)
    requires Sees(m, p, bars, v, q) && Ascending(bars) && m.barLength >= 0 && Caught(m, bars, v.n, f, a, q)
    requires f < |Batch(m, bars, v.n)| ==> IsFresh(Batch(m, bars, v.n)[f], p.now, m.barLength)
    ensures
      var (next, _, o) := Cycle(m, l, p, a, risk);
      o.ForcedClose? || Advances(m, bars, v, f, q, a, next, o)
  {
    hide Cycle, Rows, InSync, Handles, Advances, Owed, Owes, AscendingRows, Batch, Early;
    InSyncQuantity(All(m, bars), f, a, q);
    CycleOwes(m, p, bars, v, f, q, a);
    CycleHandles(m, l, p, q, a, Owed(m, bars, v, f, a), risk);
    var (next, _, o) := Cycle(m, l, p, a, risk);
    if !o.ForcedClose? {
      HandledAdvances(m, p, bars, v, f, q, a, next, o);
    }
  }

  lemma RestartedCaught(m: Market, bars: seq<Bar>, n: nat, f: nat, a: AccountState, q: int)
    requires n <= |bars| && Caught(m, bars, n, f, a, q)
    ensures Caught(m, bars, n, f, Restarted(a), q)
  {
    hide InSync, Batch;
    SyncSurvivesRestart(All(m, bars), f, a, q);
  }

  // ---------------------------------------------------------------- any polling schedule

  /** Poll k shows shown[k], never fewer finished bars than the poll before it; the event it still owes
      of them is fresh; and no cycle is forced to close. */
  ghost predicate Schedule(m: Market, ticks: seq<Tick>, shown: seq<Shown>, bars: seq<Bar>, q: int, a: AccountState) {
    && |shown| == |ticks| && Polled(ticks) && m.barLength >= 0
    && (forall i, j :: 0 <= i < j < |shown| ==> shown[i].n <= shown[j].n)
    && (forall k :: 0 <= k < |ticks| ==> Sees(m, ticks[k].poll, bars, shown[k], q))
    && (forall k :: 0 <= k < |ticks| ==> !OutcomeAt(m, ticks, a, k).ForcedClose?)
    && (forall k :: 0 <= k < |ticks| ==> PendingFresh(m, ticks, shown[k], bars, a, k))
  }

  ghost predicate PendingFresh(m: Market, ticks: seq<Tick>, v: Shown, bars: seq<Bar>, a: AccountState, k: nat)
    requires Polled(ticks) && k < |ticks|
  {
    var f := |Fills(m, ticks[..k], a)|;
    v.n <= |bars| && f < |Batch(m, bars, v.n)| ==>
      IsFresh(Batch(m, bars, v.n)[f], ticks[k].poll.now, m.barLength)
  }

  ghost function LastSeen(shown: seq<Shown>): nat { if |shown| == 0 then 0 else shown[|shown| - 1].n }

  /** If cycle k fills anything, the fill agrees with the finished bar. */
  ghost predicate AgreesAt(m: Market, ticks: seq<Tick>, v: Shown, bars: seq<Bar>, a: AccountState, k: nat)
    requires Polled(ticks) && k < |ticks| && v.n <= |bars|
  {
    OutcomeAt(m, ticks, a, k).Acted? ==> Agrees(m, bars, v, |Fills(m, ticks[..k], a)|)
  }

  ghost predicate IsPrefix(fills: seq<Fill>, es: seq<Event>) {
    |fills| <= |es| && forall j :: 0 <= j < |fills| ==> fills[j] == FillOf(es[j])
  }

  /** The same fills up to the way an exit was taken. */
  ghost predicate SameTimes(fills: seq<Fill>, es: seq<Event>) {
    |fills| <= |es| && forall j :: 0 <= j < |fills| ==>
      fills[j].ts == es[j].ts && (fills[j].kind.EntryCall? || fills[j].kind.EntryPut? <==> IsEntry(es[j]))
  }

  lemma CutTick(m: Market, ticks: seq<Tick>, v: Shown, bars: seq<Bar>, a: AccountState, k: nat, n: nat)
    requires Polled(ticks) && k < n <= |ticks|
    ensures OutcomeAt(m, ticks[..n], a, k) == OutcomeAt(m, ticks, a, k)
    ensures PendingFresh(m, ticks[..n], v, bars, a, k) <==> PendingFresh(m, ticks, v, bars, a, k)
    ensures v.n <= |bars| ==> (AgreesAt(m, ticks[..n], v, bars, a, k) <==> AgreesAt(m, ticks, v, bars, a, k))
  {
    hide CycleOf, Batch, IsFresh, Agrees, Fills;
    assert ticks[..n][..k] == ticks[..k];
  }

  lemma ScheduleInit(m: Market, ticks: seq<Tick>, shown: seq<Shown>, bars: seq<Bar>, q: int, a: AccountState)
    requires |ticks| > 0 && Schedule(m, ticks, shown, bars, q, a)
    ensures Schedule(m, ticks[..|ticks| - 1], shown[..|ticks| - 1], bars, q, a)
  {
    hide CycleOf, PendingFresh, Sees, AscendingRaw;
    var n := |ticks| - 1;
    forall k | 0 <= k < n
      ensures !OutcomeAt(m, ticks[..n], a, k).ForcedClose? && PendingFresh(m, ticks[..n], shown[k], bars, a, k)
      ensures Sees(m, ticks[..n][k].poll, bars, shown[k], q)
    {
      CutTick(m, ticks, shown[k], bars, a, k, n);
    }
  }

  lemma AllShown(m: Market, ticks: seq<Tick>, shown: seq<Shown>, bars: seq<Bar>, q: int, a: AccountState)
    requires Schedule(m, ticks, shown, bars, q, a)
    ensures forall k :: 0 <= k < |ticks| ==> shown[k].n <= |bars|
  {
    hide OutcomeAt, PendingFresh;
    forall k | 0 <= k < |ticks|
      ensures shown[k].n <= |bars|
    {
      assert Sees(m, ticks[k].poll, bars, shown[k], q);
    }
  }

  lemma ScheduleShape(m: Market, ticks: seq<Tick>, shown: seq<Shown>, bars: seq<Bar>, q: int, a: AccountState)
    requires Schedule(m, ticks, shown, bars, q, a)
    ensures |shown| == |ticks| && Polled(ticks) && m.barLength >= 0
    ensures |ticks| > 0 ==> Polled(ticks[..|ticks| - 1])
  {
    hide OutcomeAt, PendingFresh, Sees, AscendingRaw;
  }

  /** The facts about the last tick of a schedule. */
  lemma ScheduleLast(m: Market, ticks: seq<Tick>, shown: seq<Shown>, bars: seq<Bar>, q: int, a: AccountState)
    requires |ticks| > 0 && Schedule(m, ticks, shown, bars, q, a)
    ensures
      var k := |ticks| - 1;
      && Sees(m, ticks[k].poll, bars, shown[k], q) && shown[k].n <= |bars| && LastSeen(shown[..k]) <= shown[k].n
      && PendingFresh(m, ticks, shown[k], bars, a, k)
      && !CycleOf(m, ticks[k], AccountAfter(m, ticks[..k], a)).2.ForcedClose?
  {
    hide CycleOf, PendingFresh;
    var k := |ticks| - 1;
    assert Sees(m, ticks[k].poll, bars, shown[k], q);
    assert !OutcomeAt(m, ticks, a, k).ForcedClose?;
  }

  lemma TickAdvances(m: Market, t: Tick, bars: seq<Bar>, n: nat, v: Shown, f: nat, q: int, a: AccountState)
    requires Ascending(bars) && m.barLength >= 0 && Sees(m, t.poll, bars, v, q) && n <= v.n
    requires Caught(m, bars, n, f, a, q)
    requires f < |Batch(m, bars, v.n)| ==> IsFresh(Batch(m, bars, v.n)[f], t.poll.now, m.barLength)
    requires !CycleOf(m, t, a).2.ForcedClose?
    ensures Advances(m, bars, v, f, q, a, CycleOf(m, t, a).0, CycleOf(m, t, a).2)
  {
    hide Cycle, Batch, Caught, Advances;
    CaughtGrows(m, bars, n, v.n, f, a, q);
    RestartedCaught(m, bars, v.n, f, a, q);
    CycleCatchesUp(m, t.limits, t.poll, bars, v, f, q, if t.restart then Restarted(a) else a, t.risk);
    if t.restart {
      AdvancesRestarted(m, bars, v, f, q, a, CycleOf(m, t, a).0, CycleOf(m, t, a).2);
    }
  }

  lemma AdvancesRestarted(
      m: Market, bars: seq<Bar>, v: Shown, f: nat, q: int, a: AccountState, next: AccountState, o: Outcome)
    requires v.n <= |bars| && Advances(m, bars, v, f, q, Restarted(a), next, o)
    ensures Advances(m, bars, v, f, q, a, next, o)
  {
    hide Caught, Batch, Agrees, FillOf, FillIn;
  }

  lemma TimesStep(done: seq<Fill>, all: seq<Event>, o: Outcome)
    requires SameTimes(done, all)
    requires o.Acted? ==>
      && o.order.Placed? && |done| < |all|
      && o.event.ts == all[|done|].ts && (IsEntry(o.event) <==> IsEntry(all[|done|]))
    ensures SameTimes(done + NewFill(o), all)
  {
  }

  /** Whatever it is shown, the driver stays in step with the batch: its fills are the batch's events in
      order, at their times, an entry for an entry and an exit for an exit, and after them the account
      stands where the batch does. Restarts, blocked cycles and forming bars included. */
  lemma {:induction false} StaysCaught(
      m: Market, ticks: seq<Tick>, shown: seq<Shown>, bars: seq<Bar>, q: int, a: AccountState)
    requires Ascending(bars) && Schedule(m, ticks, shown, bars, q, a) && InSync([], 0, a, q)
    ensures LastSeen(shown) <= |bars|
    ensures Caught(m, bars, LastSeen(shown), |Fills(m, ticks, a)|, AccountAfter(m, ticks, a), q)
    ensures SameTimes(Fills(m, ticks, a), All(m, bars))
  {
    hide AscendingRaw, Ascending, Sees, CycleOf, Batch, InSync, PendingFresh, Early, Schedule, SameTimes, Caught, All,
         NewFill, FillOf, FillIn, Fills, AccountAfter, Advances;
    ScheduleShape(m, ticks, shown, bars, q, a);
    if |ticks| == 0 {
      StartsCaught(m, bars, a, q);
      NoTicks(m, ticks, a);
    } else {
      var k := |ticks| - 1;
      ScheduleShape(m, ticks, shown, bars, q, a);
      ScheduleInit(m, ticks, shown, bars, q, a);
      ScheduleLast(m, ticks, shown, bars, q, a);
      StaysCaught(m, ticks[..k], shown[..k], bars, q, a);
      var done, before := Fills(m, ticks[..k], a), AccountAfter(m, ticks[..k], a);
      PendingIs(m, ticks, shown[k], bars, a, k);
      TickAdvances(m, ticks[k], bars, LastSeen(shown[..k]), shown[k], |done|, q, before);
      var (next, _, o) := CycleOf(m, ticks[k], before);
      CaughtStep(m, bars, shown[k], done, q, before, next, o);
      LastStep(m, ticks, a);
    }
  }

  /** The books after one more tick. */
  lemma LastStep(m: Market, ticks: seq<Tick>, a: AccountState)
    requires |ticks| > 0 && Polled(ticks) && Polled(ticks[..|ticks| - 1])
    ensures
      var k := |ticks| - 1;
      var before := AccountAfter(m, ticks[..k], a);
      && AccountAfter(m, ticks, a) == CycleOf(m, ticks[k], before).0
      && Fills(m, ticks, a) == Fills(m, ticks[..k], a) + NewFill(CycleOf(m, ticks[k], before).2)
  {
    hide CycleOf, NewFill, AscendingRaw;
  }

  lemma CaughtStep(
      m: Market, bars: seq<Bar>, v: Shown, done: seq<Fill>, q: int, a: AccountState, next: AccountState, o: Outcome)
    requires v.n <= |bars| && Advances(m, bars, v, |done|, q, a, next, o) && SameTimes(done, All(m, bars))
    ensures Caught(m, bars, v.n, |done + NewFill(o)|, next, q) && SameTimes(done + NewFill(o), All(m, bars))
  {
    hide All, Batch, Caught, SameTimes, Agrees, FillOf, FillIn;
    TimesStep(done, All(m, bars), o);
    CountStep(done, o);
  }

  lemma CountStep(done: seq<Fill>, o: Outcome)
    ensures |done + NewFill(o)| == |done| + if o.Acted? && o.order.Placed? then 1 else 0
  {
  }

  lemma StartsCaught(m: Market, bars: seq<Bar>, a: AccountState, q: int)
    requires InSync([], 0, a, q)
    ensures Caught(m, bars, 0, 0, a, q) && SameTimes([], All(m, bars))
  {
    SyncOnPrefix([], All(m, bars), 0, a, q);
  }

  lemma PendingIs(m: Market, ticks: seq<Tick>, v: Shown, bars: seq<Bar>, a: AccountState, k: nat)
    requires Polled(ticks) && k < |ticks| && PendingFresh(m, ticks, v, bars, a, k) && v.n <= |bars|
    ensures
      var f := |Fills(m, ticks[..k], a)|;
      f < |Batch(m, bars, v.n)| ==> IsFresh(Batch(m, bars, v.n)[f], ticks[k].poll.now, m.barLength)
  {
    hide Batch, IsFresh, Fills;
  }

  /** The fills of any polling schedule are exactly a prefix of the batch's events, prices included, if
      and only if every early exit agrees with its finished bar. */
  lemma {:induction false} FillsArePrefixIff(
      m: Market, ticks: seq<Tick>, shown: seq<Shown>, bars: seq<Bar>, q: int, a: AccountState)
    requires Ascending(bars) && Schedule(m, ticks, shown, bars, q, a) && InSync([], 0, a, q)
    ensures forall k :: 0 <= k < |ticks| ==> shown[k].n <= |bars|
    ensures IsPrefix(Fills(m, ticks, a), All(m, bars))
      <==> forall k :: 0 <= k < |ticks| ==> AgreesAt(m, ticks, shown[k], bars, a, k)
  {
    hide AscendingRaw, Ascending, CycleOf, InSync, Agrees, All, Schedule, NewFill, IsPrefix, AgreesAt, Advances, Fills;
    ScheduleShape(m, ticks, shown, bars, q, a);
    AllShown(m, ticks, shown, bars, q, a);
    if |ticks| == 0 {
      EmptyPrefix(All(m, bars));
      assert Fills(m, ticks, a) == [] by {
        NoTicks(m, ticks, a);
      }
    } else {
      var k := |ticks| - 1;
      ScheduleShape(m, ticks, shown, bars, q, a);
      ScheduleInit(m, ticks, shown, bars, q, a);
      FillsArePrefixIff(m, ticks[..k], shown[..k], bars, q, a);
      forall i | 0 <= i < k
        ensures AgreesAt(m, ticks[..k], shown[i], bars, a, i) <==> AgreesAt(m, ticks, shown[i], bars, a, i)
      {
        CutTick(m, ticks, shown[i], bars, a, i, k);
      }
      LastTick(m, ticks, shown, bars, q, a);
      LastPrefix(m, ticks, shown[k], bars, q, a);
    }
  }

  lemma NoTicks(m: Market, ticks: seq<Tick>, a: AccountState)
    requires ticks == []
    ensures Fills(m, ticks, a) == [] && AccountAfter(m, ticks, a) == a
  {
  }

  lemma EmptyPrefix(all: seq<Event>)
    ensures IsPrefix([], all)
  {
  }

  /** What the last tick of a schedule does. */
  lemma LastTick(m: Market, ticks: seq<Tick>, shown: seq<Shown>, bars: seq<Bar>, q: int, a: AccountState)
    requires Ascending(bars) && |ticks| > 0 && Schedule(m, ticks, shown, bars, q, a) && InSync([], 0, a, q)
    ensures
      var k := |ticks| - 1;
      && |shown| == k + 1 && Polled(ticks[..k]) && AscendingRaw(ticks[k].poll.data) && shown[k].n <= |bars|
      && (var f, before := |Fills(m, ticks[..k], a)|, AccountAfter(m, ticks[..k], a);
          var (next, _, o) := CycleOf(m, ticks[k], before);
          f <= |All(m, bars)| && Advances(m, bars, shown[k], f, q, before, next, o))
  {
    hide Ascending, Sees, CycleOf, Batch, InSync, PendingFresh, Early, Agrees, All, FillOf, FillIn, Caught, Schedule,
         NewFill, SameTimes, Advances;
    var k := |ticks| - 1;
    ScheduleShape(m, ticks, shown, bars, q, a);
    ScheduleInit(m, ticks, shown, bars, q, a);
    ScheduleLast(m, ticks, shown, bars, q, a);
    StaysCaught(m, ticks[..k], shown[..k], bars, q, a);
    var done, before := Fills(m, ticks[..k], a), AccountAfter(m, ticks[..k], a);
    PendingIs(m, ticks, shown[k], bars, a, k);
    TickAdvances(m, ticks[k], bars, LastSeen(shown[..k]), shown[k], |done|, q, before);
    CountedFills(m, bars, LastSeen(shown[..k]), |done|, before, q);
  }

  lemma AdvancesCases(
      m: Market, bars: seq<Bar>, v: Shown, f: nat, q: int, a: AccountState, next: AccountState, o: Outcome)
    requires v.n <= |bars| && Advances(m, bars, v, f, q, a, next, o)
    ensures o.Acted? ==>
      o.order.Placed? && f < |All(m, bars)| && (FillIn(o) == FillOf(All(m, bars)[f]) <==> Agrees(m, bars, v, f))
    ensures o.Acted? && (v.forming.None? || a.quantity == 0) ==> Agrees(m, bars, v, f)
  {
    hide Batch, FillOf, FillIn, Caught;
  }

  lemma LastFills(m: Market, ticks: seq<Tick>, v: Shown, bars: seq<Bar>, a: AccountState)
    requires Polled(ticks) && |ticks| > 0 && Polled(ticks[..|ticks| - 1]) && v.n <= |bars|
    ensures
      var k := |ticks| - 1;
      var done, o := Fills(m, ticks[..k], a), CycleOf(m, ticks[k], AccountAfter(m, ticks[..k], a)).2;
      && Fills(m, ticks, a) == done + NewFill(o)
      && (AgreesAt(m, ticks, v, bars, a, k) <==> (o.Acted? ==> Agrees(m, bars, v, |done|)))
  {
    hide AscendingRaw, CycleOf, Agrees, NewFill;
  }

  /** A last tick that advances extends a prefix to a prefix exactly if it agrees. */
  lemma LastPrefix(m: Market, ticks: seq<Tick>, v: Shown, bars: seq<Bar>, q: int, a: AccountState)
    requires |ticks| > 0 && Polled(ticks) && Polled(ticks[..|ticks| - 1]) && v.n <= |bars|
    requires
      var k := |ticks| - 1;
      var f, before := |Fills(m, ticks[..k], a)|, AccountAfter(m, ticks[..k], a);
      f <= |All(m, bars)| &&
      Advances(m, bars, v, f, q, before, CycleOf(m, ticks[k], before).0, CycleOf(m, ticks[k], before).2)
    ensures
      var k := |ticks| - 1;
      IsPrefix(Fills(m, ticks, a), All(m, bars)) <==>
        IsPrefix(Fills(m, ticks[..k], a), All(m, bars)) && AgreesAt(m, ticks, v, bars, a, k)
  {
    hide AscendingRaw, CycleOf, Agrees, All, FillOf, FillIn, NewFill, IsPrefix, Advances, Fills, AccountAfter, AgreesAt;
    var k := |ticks| - 1;
    LastFills(m, ticks, v, bars, a);
    var done, before := Fills(m, ticks[..k], a), AccountAfter(m, ticks[..k], a);
    var (next, _, o) := CycleOf(m, ticks[k], before);
    AdvancesCases(m, bars, v, |done|, q, before, next, o);
    PrefixStep(done, All(m, bars), o, AgreesAt(m, ticks, v, bars, a, k));
  }

  lemma CountedFills(m: Market, bars: seq<Bar>, n: nat, f: nat, a: AccountState, q: int)
    requires n <= |bars| && Caught(m, bars, n, f, a, q)
    ensures f <= |All(m, bars)|
  {
    hide Batch;
  }

  /** One more fill. */
  lemma PrefixStep(done: seq<Fill>, all: seq<Event>, o: Outcome, agrees: bool)
    requires |done| <= |all| && (o.Acted? ==> o.order.Placed? && |done| < |all|)
    requires o.Acted? ==> (FillIn(o) == FillOf(all[|done|]) <==> agrees)
    requires !o.Acted? ==> agrees
    ensures IsPrefix(done + NewFill(o), all) <==> IsPrefix(done, all) && agrees
  {
    hide FillOf, FillIn;
    var fills := done + NewFill(o);
    if IsPrefix(fills, all) {
      forall j | 0 <= j < |done|
        ensures done[j] == FillOf(all[j])
      {
        assert fills[j] == done[j];
      }
      if o.Acted? {
        assert fills[|done|] == FillIn(o);
      }
    }
  }

  // ---------------------------------------------------------------- polls that cannot disagree

  /** A poll of a flat account, and a poll without a forming bar, always agree. */
  lemma PlainPollAgrees(
      m: Market, ticks: seq<Tick>, shown: seq<Shown>, bars: seq<Bar>, q: int, a: AccountState, k: nat)
    requires Ascending(bars) && Schedule(m, ticks, shown, bars, q, a) && InSync([], 0, a, q) && k < |ticks|
    requires shown[k].forming.None? || AccountAfter(m, ticks[..k], a).quantity == 0
    ensures shown[k].n <= |bars| && AgreesAt(m, ticks, shown[k], bars, a, k)
    decreases |ticks|
  {
    hide AscendingRaw, Ascending, CycleOf, InSync, Agrees, All, FillOf, FillIn, Schedule, Advances;
    var n := |ticks| - 1;
    ScheduleShape(m, ticks, shown, bars, q, a);
    AllShown(m, ticks, shown, bars, q, a);
    if k < n {
      ScheduleInit(m, ticks, shown, bars, q, a);
      assert ticks[..n][..k] == ticks[..k];
      PlainPollAgrees(m, ticks[..n], shown[..n], bars, q, a, k);
      CutTick(m, ticks, shown[k], bars, a, k, n);
    } else {
      LastTick(m, ticks, shown, bars, q, a);
      var f, before := |Fills(m, ticks[..n], a)|, AccountAfter(m, ticks[..n], a);
      var (next, _, o) := CycleOf(m, ticks[n], before);
      AdvancesCases(m, bars, shown[n], f, q, before, next, o);
    }
  }

  // ---------------------------------------------------------------- fill by fill

  /** Fill f is the batch's event of its place, price included, exactly if `agrees`. */
  ghost predicate FillIff(all: seq<Event>, fills: seq<Fill>, f: nat, agrees: bool) {
    f < |fills| && f < |all| && (fills[f] == FillOf(all[f]) <==> agrees)
  }

  lemma FillIffStays(all: seq<Event>, fills: seq<Fill>, more: seq<Fill>, f: nat, agrees: bool)
    requires FillIff(all, fills, f, agrees)
    ensures FillIff(all, fills + more, f, agrees)
  {
    hide FillOf;
  }

  lemma LastFillIff(m: Market, ticks: seq<Tick>, shown: seq<Shown>, bars: seq<Bar>, q: int, a: AccountState)
    requires Ascending(bars) && Schedule(m, ticks, shown, bars, q, a) && InSync([], 0, a, q) && |ticks| > 0
    requires |shown| == |ticks| && Polled(ticks) && Polled(ticks[..|ticks| - 1]) && shown[|ticks| - 1].n <= |bars|
    requires OutcomeAt(m, ticks, a, |ticks| - 1).Acted?
    ensures
      var n := |ticks| - 1;
      FillIff(All(m, bars), Fills(m, ticks, a), |Fills(m, ticks[..n], a)|, AgreesAt(m, ticks, shown[n], bars, a, n))
  {
    hide Fills, AccountAfter, All, AgreesAt, AscendingRaw, CycleOf, FillOf, FillIn, NewFill, Schedule, Advances, Agrees;
    var n := |ticks| - 1;
    LastTick(m, ticks, shown, bars, q, a);
    LastFills(m, ticks, shown[n], bars, a);
    var f, before := |Fills(m, ticks[..n], a)|, AccountAfter(m, ticks[..n], a);
    var (next, _, o) := CycleOf(m, ticks[n], before);
    AdvancesCases(m, bars, shown[n], f, q, before, next, o);
    FillOfOutcome(o);
  }

  /** Fill by fill: the fill a poll makes is the batch's event of its place if and only if that poll agrees
      with its finished bar, whatever the other polls did. */
  lemma {:induction false} FillIsBatchIff(
      m: Market, ticks: seq<Tick>, shown: seq<Shown>, bars: seq<Bar>, q: int, a: AccountState, k: nat)
    requires Ascending(bars) && Schedule(m, ticks, shown, bars, q, a) && InSync([], 0, a, q)
    requires k < |ticks| && OutcomeAt(m, ticks, a, k).Acted?
    ensures shown[k].n <= |bars|
    ensures FillIff(All(m, bars), Fills(m, ticks, a), |Fills(m, ticks[..k], a)|,
                    AgreesAt(m, ticks, shown[k], bars, a, k))
    decreases |ticks|
  {
    hide AscendingRaw, Ascending, InSync, Schedule, FillIff, OutcomeAt, AgreesAt, All, Fills, AccountAfter, CycleOf,
         NewFill;
    var n := |ticks| - 1;
    ScheduleShape(m, ticks, shown, bars, q, a);
    AllShown(m, ticks, shown, bars, q, a);
    if k < n {
      ScheduleInit(m, ticks, shown, bars, q, a);
      assert ticks[..n][..k] == ticks[..k];
      CutTick(m, ticks, shown[k], bars, a, k, n);
      FillIsBatchIff(m, ticks[..n], shown[..n], bars, q, a, k);
      LastStep(m, ticks, a);
      var o := CycleOf(m, ticks[n], AccountAfter(m, ticks[..n], a)).2;
      FillIffStays(All(m, bars), Fills(m, ticks[..n], a), NewFill(o), |Fills(m, ticks[..k], a)|,
                   AgreesAt(m, ticks, shown[k], bars, a, k));
    } else {
      LastFillIff(m, ticks, shown, bars, q, a);
    }
  }

  lemma FillOfOutcome(o: Outcome)
    ensures o.Acted? && o.order.Placed? ==> NewFill(o) == [FillIn(o)]
  {
    hide FillIn;
  }

  // ---------------------------------------------------------------- one poll at each bar close

  ghost function EveryShown(n: nat): (shown: seq<Shown>)
    ensures |shown| == n && forall k :: 0 <= k < n ==> shown[k] == Shown(k + 1, None)
  {
    seq(n, k requires 0 <= k < n => Shown(k + 1, None))
  }

  /** One poll at each bar close, none blocked and none forced to close. */
  ghost predicate EveryBarClose(m: Market, ticks: seq<Tick>, bars: seq<Bar>, q: int, a: AccountState) {
    && |ticks| <= |bars| && Polled(ticks) && m.barLength >= 0
    && (forall k :: 0 <= k < |ticks| ==> Sees(m, ticks[k].poll, bars, Shown(k + 1, None), q))
    && (forall k :: 0 <= k < |ticks| ==> ticks[k].poll.now == bars[k].ts + m.barLength)
    && (forall k :: 0 <= k < |ticks| ==>
          var o := OutcomeAt(m, ticks, a, k);
          !o.ForcedClose? && !Blocked(o))
  }

  lemma EveryBarInit(m: Market, ticks: seq<Tick>, bars: seq<Bar>, q: int, a: AccountState)
    requires |ticks| > 0 && EveryBarClose(m, ticks, bars, q, a)
    ensures EveryBarClose(m, ticks[..|ticks| - 1], bars, q, a)
  {
    hide CycleOf, Sees, AscendingRaw;
    var k := |ticks| - 1;
    var init := ticks[..k];
    forall j | 0 <= j < k
      ensures OutcomeAt(m, init, a, j) == OutcomeAt(m, ticks, a, j)
    {
      assert ticks[..j] == init[..j];
    }
  }

  lemma EveryBarLast(m: Market, ticks: seq<Tick>, bars: seq<Bar>, q: int, a: AccountState)
    requires |ticks| > 0 && EveryBarClose(m, ticks, bars, q, a)
    ensures Sees(m, ticks[|ticks| - 1].poll, bars, Shown(|ticks|, None), q)
    ensures ticks[|ticks| - 1].poll.now == bars[|ticks| - 1].ts + m.barLength
    ensures !OutcomeAt(m, ticks, a, |ticks| - 1).ForcedClose? && !Blocked(OutcomeAt(m, ticks, a, |ticks| - 1))
    ensures Polled(ticks[..|ticks| - 1])
  {
    hide OutcomeAt, Sees, AscendingRaw;
    var k := |ticks| - 1;
    assert Sees(m, ticks[k].poll, bars, Shown(k + 1, None), q);
    assert !OutcomeAt(m, ticks, a, k).ForcedClose? && !Blocked(OutcomeAt(m, ticks, a, k));
  }

  lemma EveryShownCut(k: nat)
    ensures EveryShown(k + 1)[..k] == EveryShown(k)
  {
  }

  lemma OwnBarIsFresh(e: Event, b: Bar, barLength: int, now: int)
    requires e.ts == b.ts && now == b.ts + barLength && barLength >= 0
    ensures IsFresh(e, now, barLength)
  {
  }

  /** Appending a tick to a schedule. */
  lemma ScheduleSnoc(m: Market, ticks: seq<Tick>, shown: seq<Shown>, bars: seq<Bar>, q: int, a: AccountState)
    requires |ticks| > 0 && |shown| == |ticks| && Polled(ticks)
    requires Schedule(m, ticks[..|ticks| - 1], shown[..|ticks| - 1], bars, q, a)
    requires LastSeen(shown[..|ticks| - 1]) <= shown[|ticks| - 1].n
    requires Sees(m, ticks[|ticks| - 1].poll, bars, shown[|ticks| - 1], q)
    requires !OutcomeAt(m, ticks, a, |ticks| - 1).ForcedClose?
    requires PendingFresh(m, ticks, shown[|ticks| - 1], bars, a, |ticks| - 1)
    ensures Schedule(m, ticks, shown, bars, q, a)
  {
    hide CycleOf, PendingFresh, Sees, AscendingRaw, OutcomeAt;
    var n := |ticks| - 1;
    ShownRises(shown);
    forall k | 0 <= k < n
      ensures !OutcomeAt(m, ticks, a, k).ForcedClose? && PendingFresh(m, ticks, shown[k], bars, a, k)
      ensures Sees(m, ticks[k].poll, bars, shown[k], q)
    {
      EarlierTick(m, ticks, shown, bars, q, a, k);
    }
  }

  lemma EarlierTick(
      m: Market, ticks: seq<Tick>, shown: seq<Shown>, bars: seq<Bar>, q: int, a: AccountState, k: nat)
    requires |shown| == |ticks| && Polled(ticks) && k < |ticks| - 1
    requires Schedule(m, ticks[..|ticks| - 1], shown[..|ticks| - 1], bars, q, a)
    ensures !OutcomeAt(m, ticks, a, k).ForcedClose? && PendingFresh(m, ticks, shown[k], bars, a, k)
    ensures Sees(m, ticks[k].poll, bars, shown[k], q)
  {
    hide CycleOf, PendingFresh, Sees, AscendingRaw, OutcomeAt;
    var n := |ticks| - 1;
    var init, less := ticks[..n], shown[..n];
    CutTick(m, ticks, shown[k], bars, a, k, n);
    assert Sees(m, init[k].poll, bars, less[k], q);
    assert PendingFresh(m, init, less[k], bars, a, k);
    assert !OutcomeAt(m, init, a, k).ForcedClose?;
  }

  lemma ShownRises(shown: seq<Shown>)
    requires |shown| > 0 && LastSeen(shown[..|shown| - 1]) <= shown[|shown| - 1].n
    requires
      var less := shown[..|shown| - 1];
      forall i, j :: 0 <= i < j < |less| ==> less[i].n <= less[j].n
    ensures forall i, j :: 0 <= i < j < |shown| ==> shown[i].n <= shown[j].n
  {
    var n := |shown| - 1;
    var less := shown[..n];
    forall i, j | 0 <= i < j < |shown|
      ensures shown[i].n <= shown[j].n
    {
      if j == n {
        assert less[n - 1].n <= shown[n].n;
        assert i < n - 1 ==> less[i].n <= less[n - 1].n;
      } else {
        assert less[i].n <= less[j].n;
      }
    }
  }

  /** Polling at each bar close is a schedule, and no event is ever left over. */
  lemma {:induction false} EveryBarKeepsUp(m: Market, ticks: seq<Tick>, bars: seq<Bar>, q: int, a: AccountState)
    requires Ascending(bars) && EveryBarClose(m, ticks, bars, q, a) && InSync([], 0, a, q)
    ensures Schedule(m, ticks, EveryShown(|ticks|), bars, q, a)
    ensures |Fills(m, ticks, a)| == |Batch(m, bars, |ticks|)|
  {
    hide AscendingRaw, Ascending, Sees, CycleOf, Batch, InSync, Early, All, FillOf, FillIn, Caught, Schedule, NewFill,
         SameTimes, IsFresh, Agrees;
    var n := |ticks|;
    if n == 0 {
      EmptyBatch(m, bars);
      EmptySchedule(m, bars, q, a);
      assert ticks == [] && EveryShown(0) == [];
    } else {
      EveryBarInit(m, ticks, bars, q, a);
      EveryBarLast(m, ticks, bars, q, a);
      EveryShownCut(n - 1);
      EveryBarKeepsUp(m, ticks[..n - 1], bars, q, a);
      var done, before := Fills(m, ticks[..n - 1], a), AccountAfter(m, ticks[..n - 1], a);
      BatchStepUp(m, bars, n - 1);
      if |done| < |Batch(m, bars, n)| {
        OwnBarIsFresh(Batch(m, bars, n)[|done|], bars[n - 1], m.barLength, ticks[n - 1].poll.now);
      }
      ScheduleSnoc(m, ticks, EveryShown(n), bars, q, a);
      StaysCaught(m, ticks[..n - 1], EveryShown(n - 1), bars, q, a);
      TickAdvances(m, ticks[n - 1], bars, LastSeen(EveryShown(n - 1)), Shown(n, None), |done|, q, before);
      CountStep(done, CycleOf(m, ticks[n - 1], before).2);
    }
  }

  lemma BatchStepUp(m: Market, bars: seq<Bar>, n: nat)
    requires n < |bars| && Ascending(bars)
    ensures
      var some, more := Batch(m, bars, n), Batch(m, bars, n + 1);
      |some| <= |more| <= |some| + 1 && (|more| > |some| ==> more[|some|].ts == bars[n].ts)
  {
    hide Batch;
    BatchStep(m, bars, n);
  }

  lemma EmptySchedule(m: Market, bars: seq<Bar>, q: int, a: AccountState)
    requires m.barLength >= 0
    ensures Schedule(m, [], [], bars, q, a)
  {
  }

  /** Incremental refines batch: polled once at each bar close, from a fresh account, with any
      number of restarts in between, the driver's fills are exactly the events of one replay of
      the whole series: same bars, kinds, prices, stops and targets, none missing or doubled. */
  lemma IncrementalIsBatch(m: Market, ticks: seq<Tick>, bars: seq<Bar>, q: int, a: AccountState)
    requires Ascending(bars) && EveryBarClose(m, ticks, bars, q, a) && InSync([], 0, a, q)
    ensures Fills(m, ticks, a) == FillsOf(Batch(m, bars, |ticks|))
  {
    hide AscendingRaw, Ascending, Sees, CycleOf, Batch, InSync, Early, FillOf, FillIn, Caught, NewFill, SameTimes;
    var n := |ticks|;
    EveryBarKeepsUp(m, ticks, bars, q, a);
    forall k | 0 <= k < n
      ensures AgreesAt(m, ticks, EveryShown(n)[k], bars, a, k)
    {
    }
    FillsArePrefixIff(m, ticks, EveryShown(n), bars, q, a);
    BatchGrows(m, bars, n, |bars|);
    forall j | 0 <= j < |Batch(m, bars, n)|
      ensures Fills(m, ticks, a)[j] == FillsOf(Batch(m, bars, n))[j]
    {
      assert Batch(m, bars, n)[j] == All(m, bars)[j];
    }
  }
}
