/** Restart equivalence. A restart loses an open position's stop and target, and they are derived
    again from its entry bar. As long as every window contains that bar this changes nothing: a
    run with restarts has exactly the outcomes of the same run without them. */
module Restart {
  import opened Common
  import opened Indicators
  import opened Strategy
  import opened StrategyTheorems
  import opened Account
  import opened Risk
  import opened AutoTrader
  import opened CycleTheorems
  import opened RunTheorems

  // ---------------------------------------------------------------- one cycle

  /** Two accounts that a restart would make the same. */
  ghost predicate Alike(a: AccountState, b: AccountState) { Restarted(a) == Restarted(b) }

  /** If the account has its levels at all, they are the ones its entry bar gives. */
  ghost predicate LevelsRight(rows: seq<Row>, a: AccountState) {
    a.quantity > 0 && a.side.Some? && a.lastEventAt.Some? && a.stop.Some? && a.target.Some? ==>
      (a.stop, a.target) == LevelsAt(rows, a.lastEventAt.value, a.side.value)
  }

  lemma SameUnprocessed(rows: seq<Row>, a: AccountState, b: AccountState)
    requires Alike(a, b) && LevelsRight(rows, a) && LevelsRight(rows, b)
    ensures Unprocessed(rows, a) == Unprocessed(rows, b)
  {
    hide LevelsAt, Events, Replay;
  }

  /** The same scan up to what a restart would lose. */
  ghost predicate SameScan(r: Scanned, s: Scanned) {
    && (r.Quiet? <==> s.Quiet?) && Alike(r.account, s.account) && r.expired == s.expired
    && (r.Quiet? && s.Quiet? ==> r.last == s.last)
    && (r.Found? && s.Found? ==> r.event == s.event && r.late == s.late)
  }

  /** The backlog of a position does not depend on whether its levels were kept or derived. */
  lemma {:induction false} SameBacklog(rows: seq<Row>, barLength: int, now: int, a: AccountState, b: AccountState)
    requires AscendingRows(rows) && InStep(a) && InStep(b) && Alike(a, b)
    requires LevelsRight(rows, a) && LevelsRight(rows, b)
    ensures SameScan(Scan(rows, barLength, now, a), Scan(rows, barLength, now, b))
    decreases Ahead(rows, a.lastEventAt)
  {
    hide Unprocessed, IsFresh, LevelsAt;
    SameUnprocessed(rows, a, b);
    ScanStep(rows, barLength, now, a);
    ScanStep(rows, barLength, now, b);
    if First(rows, a).Some? {
      var e := First(rows, a).value;
      NextMatchesPosition(rows, a);
      if !IsFresh(e, now, barLength) && a.quantity == 0 {
        FlatInStep(a, Some(e.ts));
        FlatInStep(b, Some(e.ts));
        SameBacklog(rows, barLength, now, a.(lastEventAt := Some(e.ts)), b.(lastEventAt := Some(e.ts)));
      }
    }
  }

  lemma FlatInStep(a: AccountState, mark: Option<int>)
    requires InStep(a) && a.quantity == 0
    ensures InStep(a.(lastEventAt := mark))
  {
  }

  /** Plans that differ at most in what a restart would lose. */
  ghost predicate SamePlan(x: Plan, y: Plan) {
    && (x.Finished? <==> y.Finished?) && Alike(x.account, y.account)
    && (x.Finished? && y.Finished? ==> x.risk == y.risk && x.outcome == y.outcome)
    && (x.Ready? && y.Ready? ==>
          x.event == y.event && x.late == y.late && x.contract == y.contract && x.lastPrice == y.lastPrice)
  }

  ghost predicate SameResult(x: (AccountState, RiskState, Outcome), y: (AccountState, RiskState, Outcome)) {
    Alike(x.0, y.0) && x.1 == y.1 && x.2 == y.2
  }

  lemma SameOpen(
      a: AccountState, b: AccountState, side: Side, price: real, quantity: int, index: string,
      contract: Option<Contract>)
    requires Alike(a, b)
    ensures
      var x := OpenFill(a, side, price, quantity, index, contract);
      var y := OpenFill(b, side, price, quantity, index, contract);
      Alike(x.0, y.0) && x.1 == y.1
  {
    hide Average;
    assert PriceOr(a, price) == PriceOr(b, price);
  }

  lemma SameClose(a: AccountState, b: AccountState, price: real, quantity: int)
    requires Alike(a, b)
    ensures
      var x, y := CloseFill(a, price, quantity), CloseFill(b, price, quantity);
      Alike(x.0, y.0) && x.1 == y.1
  {
    hide ExitPnl;
    assert PriceOr(a, price) == PriceOr(b, price);
  }

  lemma SameFill(
      a: AccountState, b: AccountState, kind: Kind, price: real, quantity: int, index: string,
      contract: Option<Contract>)
    requires Alike(a, b)
    ensures
      var x := PlaceEvent(a, kind, price, quantity, index, contract);
      var y := PlaceEvent(b, kind, price, quantity, index, contract);
      Alike(x.0, y.0) && x.1 == y.1
  {
    hide OpenFill, CloseFill, Alike;
    if IsEntryKind(kind) {
      SameOpen(a, b, EntrySide(kind), price, quantity, index, contract);
    } else {
      SameClose(a, b, price, quantity);
    }
  }

  predicate IsEntryKind(kind: Kind) { kind.EntryCall? || kind.EntryPut? }

  lemma SameForceClose(
      m: Market, l: RiskLimits, bars: seq<Bar>, now: int, a: AccountState, b: AccountState, risk: RiskState,
      missedDay: Option<int>, markSquareOff: bool)
    requires bars != [] && Alike(a, b)
    ensures SamePlan(ForceClose(m, l, bars, now, a, risk, missedDay, markSquareOff),
                     ForceClose(m, l, bars, now, b, risk, missedDay, markSquareOff))
  {
    hide PlaceEvent, RecordTrade;
    SameFill(a, b, SquareOff, bars[|bars| - 1].close, a.quantity, m.indexId, None);
  }

  lemma SameSettle(m: Market, l: RiskLimits, p: Poll, x: Plan, y: Plan, risk: RiskState, own: int)
    requires SamePlan(x, y)
    ensures SameResult(Settle(m, l, p, x, risk, own), Settle(m, l, p, y, risk, own))
  {
    hide PlaceEvent, RecordTrade, Decide;
    if x.Ready? {
      SameFill(x.account, y.account, x.event.kind, FillPrice(x.event, x.late, x.lastPrice), p.quantity, m.indexId,
               x.contract);
    }
  }

  lemma SameJudge(p: Poll, r: Scanned, s: Scanned, risk: RiskState, lastPrice: real)
    requires SameScan(r, s)
    ensures SamePlan(Judge(p, r, risk, lastPrice), Judge(p, s, risk, lastPrice))
  {
  }

  lemma SamePrepare(m: Market, l: RiskLimits, p: Poll, a: AccountState, b: AccountState, risk: RiskState)
    requires AscendingRaw(p.data) && InStep(a) && InStep(b) && Alike(a, b)
    requires LevelsRight(WindowRows(m, DropInvalid(p.data), p.now, a.quantity > 0), a)
    requires LevelsRight(WindowRows(m, DropInvalid(p.data), p.now, b.quantity > 0), b)
    ensures SamePlan(Prepare(m, l, p, a, risk), Prepare(m, l, p, b, risk))
  {
    hide LevelsRight, ForceClose, Judge, Scan, Rows, WellFormed;
    var bars := DropInvalid(p.data);
    assert a.quantity == b.quantity && StaleDay(a, p.now) == StaleDay(b, p.now);
    if bars == [] {
    } else if StaleDay(a, p.now).Some? {
      SameForceClose(m, l, bars, p.now, a, b, risk, StaleDay(a, p.now), false);
    } else if SquareOffDue(l, a, p.now) {
      SameForceClose(m, l, bars, p.now, a, b, risk, None, true);
    } else {
      WindowAscending(m, p.data, p.now, a.quantity > 0);
      var rows := WindowRows(m, bars, p.now, a.quantity > 0);
      SameBacklog(rows, m.barLength, p.now, a, b);
      SameJudge(p, Scan(rows, m.barLength, p.now, a), Scan(rows, m.barLength, p.now, b), risk, bars[|bars| - 1].close);
    }
  }

  /** One cycle on an account whose levels are right gives the same risk state and the same outcome
      as on the account a restart leaves, and accounts that a restart would make the same. */
  lemma CycleIgnoresLevels(m: Market, l: RiskLimits, p: Poll, a: AccountState, b: AccountState, risk: RiskState)
    requires AscendingRaw(p.data) && InStep(a) && InStep(b) && Alike(a, b)
    requires LevelsRight(WindowRows(m, DropInvalid(p.data), p.now, a.quantity > 0), a)
    requires LevelsRight(WindowRows(m, DropInvalid(p.data), p.now, b.quantity > 0), b)
    ensures SameResult(Cycle(m, l, p, a, risk), Cycle(m, l, p, b, risk))
  {
    hide LevelsRight, Prepare, Settle, Rows;
    SamePrepare(m, l, p, a, b, risk);
    SameSettle(m, l, p, Prepare(m, l, p, a, risk), Prepare(m, l, p, b, risk), risk, a.quantity);
  }

  // ---------------------------------------------------------------- the levels a run keeps

  /** A held position of the constant quantity: the mark is its entry bar, which is one of the
      first n, and its levels, unless lost, are that bar's. */
  ghost predicate Anchored(m: Market, bars: seq<Bar>, n: nat, q: int, a: AccountState)
    requires n <= |bars|
  {
    a.quantity > 0 ==>
      && a.quantity == q && a.side.Some? && a.lastEventAt.Some?
      && (exists i: nat :: i < n && bars[i].ts == a.lastEventAt.value)
      && LevelsRight(Rows(bars, m.cfg), a)
  }

  /** The levels are there as well. */
  ghost predicate LevelsKept(a: AccountState) { a.quantity > 0 ==> a.stop.Some? && a.target.Some? }

  lemma RowsOfVisible(m: Market, bars: seq<Bar>, v: Shown, n: nat)
    requires n <= v.n <= |bars|
    ensures Rows(Visible(bars, v), m.cfg)[..n] == Rows(bars, m.cfg)[..n]
  {
    VisiblePrefix(bars, v, n);
    RowsPrefix(Visible(bars, v), m.cfg, n);
    RowsPrefix(bars, m.cfg, n);
  }

  /** Right in the whole series is right in every window that shows the entry bar. */
  lemma RightInWindow(m: Market, p: Poll, bars: seq<Bar>, v: Shown, n: nat, q: int, a: AccountState)
    requires Ascending(bars) && Shows(m, p, bars, v, q) && n <= v.n && Anchored(m, bars, n, q, a)
    ensures LevelsRight(WindowRows(m, DropInvalid(p.data), p.now, a.quantity > 0), a)
  {
    hide Rows, LevelsAt;
    if a.quantity > 0 {
      var i: nat :| i < n && bars[i].ts == a.lastEventAt.value;
      var rows := Rows(Visible(bars, v), m.cfg);
      RowsOfVisible(m, bars, v, i + 1);
      DropInvalidAscending(p.data);
      RowsAscending(Visible(bars, v), m.cfg);
      RowsAscending(bars, m.cfg);
      LevelsOnPrefix(rows, i + 1, i, a.side.value);
      LevelsOnPrefix(Rows(bars, m.cfg), i + 1, i, a.side.value);
      assert rows[i].ts == Visible(bars, v)[i].ts == bars[i].ts;
    }
  }

  /** What a flat account gets ready is the oldest unprocessed event of its window. */
  lemma EntryPlan(m: Market, l: RiskLimits, p: Poll, a: AccountState, risk: RiskState)
    requires AscendingRaw(p.data) && InStep(a) && a.quantity == 0 && Prepare(m, l, p, a, risk).Ready?
    ensures
      var plan, rows := Prepare(m, l, p, a, risk), WindowRows(m, DropInvalid(p.data), p.now, false);
      && Suits(plan) && IsEntry(plan.event) && AscendingRows(rows) && First(rows, plan.account) == Some(plan.event)
  {
    hide Rows, Scan, PositiveCloses, ScanSound, AscendingRows, First, WellFormed;
    var bars := DropInvalid(p.data);
    WindowAscending(m, p.data, p.now, false);
    UsableCloses(p.data);
    FollowLaws(m, p, bars, a, risk);
    var rows := WindowRows(m, bars, p.now, false);
    ScanLaws(rows, m.barLength, p.now, a);
    FoundFirst(rows, m.barLength, p.now, a, Scan(rows, m.barLength, p.now, a), ExpiredBy(rows, m.barLength, p.now, a));
  }

  /** What an entry cycle leaves: the mark is a complete bar of the window and the levels are that
      bar's. */
  lemma EntryLevels(m: Market, l: RiskLimits, p: Poll, a: AccountState, risk: RiskState) returns (i: nat)
    requires AscendingRaw(p.data) && InStep(a) && a.quantity == 0 && Cycle(m, l, p, a, risk).0.quantity > 0
    ensures
      var rows := WindowRows(m, DropInvalid(p.data), p.now, false);
      var next := Cycle(m, l, p, a, risk).0;
      && i < |rows| && next.lastEventAt == Some(rows[i].ts) && next.side.Some?
      && next.quantity == p.quantity && next.stop.Some? && next.target.Some?
      && (next.stop, next.target) == LevelsAt(rows, rows[i].ts, next.side.value)
  {
    hide Commit, LevelsAt, AscendingRows, First, Prepare, WindowRows;
    var plan := Prepare(m, l, p, a, risk);
    OpensIff(m, l, p, a, risk);
    EntryPlan(m, l, p, a, risk);
    CommitLaws(m, l, p, plan, risk, CountSeen(p, plan.event, a.quantity));
    i := FoundEntry(WindowRows(m, DropInvalid(p.data), p.now, false), plan.account, plan.event);
  }

  lemma FoundFirst(rows: seq<Row>, barLength: int, now: int, a: AccountState, s: Scanned, es: seq<Event>)
    requires ScanSound(rows, barLength, now, a, s, es)
    ensures s.Found? ==> First(rows, s.account) == Some(s.event)
  {
  }

  lemma FoundEntry(rows: seq<Row>, a: AccountState, e: Event) returns (i: nat)
    requires AscendingRows(rows) && First(rows, a) == Some(e) && IsEntry(e)
    ensures i < |rows| && e.ts == rows[i].ts && e.stop.Some? && e.target.Some?
    ensures LevelsAt(rows, rows[i].ts, EntrySide(e.kind)) == (e.stop, e.target)
  {
    hide Events, LevelsAt, SeedPosition;
    UnprocessedOnRows(rows, a);
    assert rows[0..] == rows;
    i := LevelsOfEntry(rows, Seed(rows, a.lastEventAt), if a.lastEventAt.None? then Flat else SeedPosition(rows, a), 0);
  }

  /** A cycle that asks for the whole position either closes it or leaves the account alone. */
  lemma HeldStaysOrCloses(m: Market, l: RiskLimits, p: Poll, a: AccountState, risk: RiskState)
    requires AscendingRaw(p.data) && InStep(a) && a.quantity > 0 && p.quantity == a.quantity
    ensures Cycle(m, l, p, a, risk).0.quantity > 0 ==> Cycle(m, l, p, a, risk).0 == a
  {
    hide FollowSignals, Rows, Commit, ForceClose;
    var bars := DropInvalid(p.data);
    if bars != [] {
      var stale := StaleDay(a, p.now);
      if stale.Some? {
        ForceCloseLaws(m, l, bars, p.now, a, risk, stale, false);
      } else if SquareOffDue(l, a, p.now) {
        ForceCloseLaws(m, l, bars, p.now, a, risk, None, true);
      } else {
        WindowAscending(m, p.data, p.now, true);
        UsableCloses(p.data);
        FollowLaws(m, p, bars, a, risk);
        var plan := Prepare(m, l, p, a, risk);
        if plan.Ready? {
          CommitLaws(m, l, p, plan, risk, CountSeen(p, plan.event, a.quantity));
        }
      }
    }
  }

  /** A flat account's window is a stretch of final bars. */
  lemma FlatWindow(m: Market, p: Poll, bars: seq<Bar>, v: Shown, q: int) returns (w: nat)
    requires Shows(m, p, bars, v, q)
    ensures w <= v.n && WindowRows(m, DropInvalid(p.data), p.now, false) == Rows(bars, m.cfg)[..w]
  {
    hide Rows;
    var window := Window(m, Visible(bars, v), p.now, false);
    w := |window|;
    assert window == bars[..w];
    RowsPrefix(bars, m.cfg, w);
  }

  /** One cycle of a series keeps the anchor. */
  lemma CycleAnchors(
      m: Market, l: RiskLimits, p: Poll, bars: seq<Bar>, v: Shown, n: nat, q: int, a: AccountState, risk: RiskState)
    requires Ascending(bars) && Shows(m, p, bars, v, q) && n <= v.n && InStep(a) && Anchored(m, bars, n, q, a)
    ensures
      var next := Cycle(m, l, p, a, risk).0;
      Anchored(m, bars, v.n, q, next) && (LevelsKept(a) ==> LevelsKept(next))
  {
    hide Cycle, Rows, LevelsAt, AscendingRows, WellFormed;
    var next := Cycle(m, l, p, a, risk).0;
    if next.quantity > 0 {
      if a.quantity > 0 {
        HeldStaysOrCloses(m, l, p, a, risk);
        var i: nat :| i < n && bars[i].ts == a.lastEventAt.value;
        assert i < v.n;
      } else {
        InStepQuantity(a);
        var i := EntryLevels(m, l, p, a, risk);
        var w := FlatWindow(m, p, bars, v, q);
        var rows := Rows(bars, m.cfg);
        RowsAscending(bars, m.cfg);
        LevelsOnPrefix(rows, w, i, next.side.value);
        assert rows[..w][i].ts == bars[i].ts;
        assert i < v.n && bars[i].ts == next.lastEventAt.value;
      }
    }
  }

  lemma InStepQuantity(a: AccountState)
    requires InStep(a)
    ensures a.quantity >= 0
  {
  }

  // ---------------------------------------------------------------- whole runs

  /** Every poll shows the same series at the same quantity, and never fewer final bars. */
  ghost predicate Fed(m: Market, ticks: seq<Tick>, shown: seq<Shown>, bars: seq<Bar>, q: int) {
    && |shown| == |ticks| && Polled(ticks)
    && (forall k :: 0 <= k < |ticks| ==> Shows(m, ticks[k].poll, bars, shown[k], q))
    && (forall j, k :: 0 <= j < k < |shown| ==> shown[j].n <= shown[k].n)
  }

  /** The run without its restarts. */
  function WithoutRestarts(ticks: seq<Tick>): (r: seq<Tick>) {
    seq(|ticks|, k requires 0 <= k < |ticks| => ticks[k].(restart := false))
  }

  lemma WithoutInit(ticks: seq<Tick>)
    requires |ticks| > 0
    ensures WithoutRestarts(ticks)[..|ticks| - 1] == WithoutRestarts(ticks[..|ticks| - 1])
    ensures WithoutRestarts(ticks)[|ticks| - 1] == ticks[|ticks| - 1].(restart := false)
    ensures Polled(ticks) ==> Polled(WithoutRestarts(ticks))
  {
  }

  lemma RestartedAnchored(m: Market, bars: seq<Bar>, n: nat, q: int, a: AccountState)
    requires n <= |bars| && Anchored(m, bars, n, q, a)
    ensures Anchored(m, bars, n, q, Restarted(a)) && Alike(a, Restarted(a))
  {
    hide Rows, LevelsAt;
  }

  /** One tick on two accounts alike, one of them with the restart. */
  lemma TickAlike(
      m: Market, t: Tick, bars: seq<Bar>, v: Shown, n: nat, q: int, a: AccountState, b: AccountState)
    requires Ascending(bars) && AscendingRaw(t.poll.data) && Shows(m, t.poll, bars, v, q) && n <= v.n
    requires InStep(a) && InStep(b) && Alike(a, b) && LevelsKept(b)
    requires Anchored(m, bars, n, q, a) && Anchored(m, bars, n, q, b)
    ensures
      var x, y := CycleOf(m, t, a), CycleOf(m, t.(restart := false), b);
      && SameResult(x, y) && InStep(x.0) && InStep(y.0) && LevelsKept(y.0)
      && Anchored(m, bars, v.n, q, x.0) && Anchored(m, bars, v.n, q, y.0)
  {
    hide Cycle, Rows, LevelsRight, WellFormed, Anchored, LevelsKept;
    RestartedAnchored(m, bars, n, q, a);
    RestartedInStep(a);
    var c := if t.restart then Restarted(a) else a;
    RightInWindow(m, t.poll, bars, v, n, q, c);
    RightInWindow(m, t.poll, bars, v, n, q, b);
    CycleIgnoresLevels(m, t.limits, t.poll, c, b, t.risk);
    CycleKeepsStep(m, t.limits, t.poll, c, t.risk);
    CycleKeepsStep(m, t.limits, t.poll, b, t.risk);
    CycleAnchors(m, t.limits, t.poll, bars, v, n, q, c, t.risk);
    CycleAnchors(m, t.limits, t.poll, bars, v, n, q, b, t.risk);
  }

  /** The last number of final bars shown; nothing at the start. */
  ghost function LastShown(shown: seq<Shown>): nat { if |shown| == 0 then 0 else shown[|shown| - 1].n }

  lemma FedInit(m: Market, ticks: seq<Tick>, shown: seq<Shown>, bars: seq<Bar>, q: int)
    requires Fed(m, ticks, shown, bars, q) && |ticks| > 0
    ensures Fed(m, ticks[..|ticks| - 1], shown[..|ticks| - 1], bars, q)
    ensures LastShown(shown[..|ticks| - 1]) <= LastShown(shown) <= |bars|
    ensures Shows(m, ticks[|ticks| - 1].poll, bars, shown[|ticks| - 1], q)
    ensures AscendingRaw(ticks[|ticks| - 1].poll.data)
  {
    hide AscendingRaw;
    assert Shows(m, ticks[|ticks| - 1].poll, bars, shown[|ticks| - 1], q);
  }

  /** Over a whole run from a flat account, restarts anywhere: as long as a position is held the mark
      is its entry bar and the levels are that bar's, and the run without the restarts holds the same
      account up to what a restart loses. */
  lemma {:induction false} RunsStayAlike(
      m: Market, ticks: seq<Tick>, shown: seq<Shown>, bars: seq<Bar>, q: int, a: AccountState)
    requires Ascending(bars) && Fed(m, ticks, shown, bars, q) && InStep(a) && a.quantity == 0
    ensures LastShown(shown) <= |bars| && Polled(WithoutRestarts(ticks))
    ensures
      var x, y := AccountAfter(m, ticks, a), AccountAfter(m, WithoutRestarts(ticks), a);
      && InStep(x) && InStep(y) && Alike(x, y) && LevelsKept(y)
      && Anchored(m, bars, LastShown(shown), q, x) && Anchored(m, bars, LastShown(shown), q, y)
  {
    hide CycleOf, Rows, LevelsRight, WellFormed, Shows;
    if |ticks| > 0 {
      var n := |ticks| - 1;
      FedInit(m, ticks, shown, bars, q);
      WithoutInit(ticks);
      RunsStayAlike(m, ticks[..n], shown[..n], bars, q, a);
      TickAlike(m, ticks[n], bars, shown[n], LastShown(shown[..n]), q, AccountAfter(m, ticks[..n], a),
                AccountAfter(m, WithoutRestarts(ticks[..n]), a));
    }
  }

  /** Restart equivalence: erasing every restart from a run leaves every outcome and every risk
      state as it was. */
  lemma {:induction false} RestartsDoNotMatter(
      m: Market, ticks: seq<Tick>, shown: seq<Shown>, bars: seq<Bar>, q: int, a: AccountState, k: nat)
    requires Ascending(bars) && Fed(m, ticks, shown, bars, q) && InStep(a) && a.quantity == 0 && k < |ticks|
    ensures Polled(WithoutRestarts(ticks))
    ensures OutcomeAt(m, ticks, a, k) == OutcomeAt(m, WithoutRestarts(ticks), a, k)
    ensures
      var before, plain := AccountAfter(m, ticks[..k], a), AccountAfter(m, WithoutRestarts(ticks)[..k], a);
      CycleOf(m, ticks[k], before).1 == CycleOf(m, WithoutRestarts(ticks)[k], plain).1
    decreases |ticks|
  {
    hide CycleOf, Rows, LevelsRight, WellFormed, Shows, Anchored, LevelsKept;
    var n := |ticks| - 1;
    FedInit(m, ticks, shown, bars, q);
    WithoutInit(ticks);
    var less := WithoutRestarts(ticks[..n]);
    if k < n {
      RestartsDoNotMatter(m, ticks[..n], shown[..n], bars, q, a, k);
      assert ticks[..n][..k] == ticks[..k] && less[..k] == WithoutRestarts(ticks)[..k];
    } else {
      RunsStayAlike(m, ticks[..n], shown[..n], bars, q, a);
      TickAlike(m, ticks[n], bars, shown[n], LastShown(shown[..n]), q, AccountAfter(m, ticks[..n], a),
                AccountAfter(m, less, a));
    }
  }

  // ---------------------------------------------------------------- one risk state through the run

  /** Whatever else happens to the risk state before each cycle: other indices' trades, switches, resets. */
  type Change = RiskState -> RiskState

  /** The risk state a run leaves, each cycle starting from what the one before it left. */
  ghost function RiskAtEnd(m: Market, ticks: seq<Tick>, a: AccountState, risk: RiskState): RiskState
    requires Polled(ticks)
  {
    if |ticks| == 0 then risk
    else CycleOf(m, ticks[|ticks| - 1], AccountAfter(m, ticks[..|ticks| - 1], a)).1
  }

  /** The same ticks up to the risk states they start from. */
  ghost predicate SamePolls(ticks: seq<Tick>, r: seq<Tick>) {
    |r| == |ticks| && forall k :: 0 <= k < |ticks| ==> r[k] == ticks[k].(risk := r[k].risk)
  }

  lemma SamePolled(ticks: seq<Tick>, r: seq<Tick>)
    requires SamePolls(ticks, r) && Polled(ticks)
    ensures Polled(r)
  {
    hide AscendingRaw;
  }

  lemma PolledInit(ticks: seq<Tick>)
    requires Polled(ticks) && |ticks| > 0
    ensures Polled(ticks[..|ticks| - 1])
  {
    hide AscendingRaw;
  }

  /** The same polls with the risk state threaded through them. */
  ghost function Threaded(m: Market, ticks: seq<Tick>, others: seq<Change>, a: AccountState, risk: RiskState)
    : (r: seq<Tick>)
    requires Polled(ticks) && |others| == |ticks|
    ensures SamePolls(ticks, r) && Polled(r)
  {
    hide AscendingRaw, RiskAtEnd, Polled;
    if |ticks| == 0 then ticks
    else
      var n := |ticks| - 1;
      PolledInit(ticks);
      var init := Threaded(m, ticks[..n], others[..n], a, risk);
      var r := init + [ticks[n].(risk := others[n](RiskAtEnd(m, init, a, risk)))];
      SamePolled(ticks, r);
      r
  }

  lemma ThreadedFed(
      m: Market, ticks: seq<Tick>, shown: seq<Shown>, bars: seq<Bar>, q: int, threaded: seq<Tick>)
    requires Fed(m, ticks, shown, bars, q) && SamePolls(ticks, threaded)
    ensures Fed(m, threaded, shown, bars, q)
  {
    hide AscendingRaw, Shows;
  }

  /** A run without its restarts leaves the risk state the run leaves. */
  lemma SameRiskAtEnd(
      m: Market, ticks: seq<Tick>, shown: seq<Shown>, bars: seq<Bar>, q: int, a: AccountState, risk: RiskState)
    requires Ascending(bars) && Fed(m, ticks, shown, bars, q) && InStep(a) && a.quantity == 0
    ensures Polled(WithoutRestarts(ticks))
    ensures RiskAtEnd(m, ticks, a, risk) == RiskAtEnd(m, WithoutRestarts(ticks), a, risk)
  {
    hide CycleOf, Shows, AccountAfter, AscendingRaw;
    if |ticks| > 0 {
      WithoutInit(ticks);
      RestartsDoNotMatter(m, ticks, shown, bars, q, a, |ticks| - 1);
    }
  }

  /** Erasing the restarts and threading the risk state can be done in either order. */
  lemma {:induction false} ThreadedWithout(
      m: Market, ticks: seq<Tick>, shown: seq<Shown>, bars: seq<Bar>, q: int, others: seq<Change>, a: AccountState,
      risk: RiskState)
    requires Ascending(bars) && Fed(m, ticks, shown, bars, q) && InStep(a) && a.quantity == 0
    requires |others| == |ticks|
    ensures Polled(WithoutRestarts(ticks))
    ensures Threaded(m, WithoutRestarts(ticks), others, a, risk) == WithoutRestarts(Threaded(m, ticks, others, a, risk))
  {
    hide RiskAtEnd, Shows, AscendingRaw, Ascending;
    if |ticks| > 0 {
      var n := |ticks| - 1;
      FedInit(m, ticks, shown, bars, q);
      WithoutInit(ticks);
      ThreadedWithout(m, ticks[..n], shown[..n], bars, q, others[..n], a, risk);
      var init := Threaded(m, ticks[..n], others[..n], a, risk);
      ThreadedFed(m, ticks[..n], shown[..n], bars, q, init);
      SameRiskAtEnd(m, init, shown[..n], bars, q, a, risk);
    }
  }

  /** Restart equivalence with one risk state carried through the whole run, whatever else changes it in
      between: erasing every restart leaves every outcome, and the risk state at the end, as it was. */
  lemma RestartsDoNotMatterThreaded(
      m: Market, ticks: seq<Tick>, shown: seq<Shown>, bars: seq<Bar>, q: int, others: seq<Change>, a: AccountState,
      risk: RiskState, k: nat)
    requires Ascending(bars) && Fed(m, ticks, shown, bars, q) && InStep(a) && a.quantity == 0
    requires |others| == |ticks| && k < |ticks|
    ensures Polled(WithoutRestarts(ticks))
    ensures
      var run, plain := Threaded(m, ticks, others, a, risk), Threaded(m, WithoutRestarts(ticks), others, a, risk);
      && Polled(run) && Polled(plain) && OutcomeAt(m, run, a, k) == OutcomeAt(m, plain, a, k)
      && RiskAtEnd(m, run, a, risk) == RiskAtEnd(m, plain, a, risk)
  {
    hide RiskAtEnd, Threaded, Shows, AscendingRaw, Ascending, OutcomeAt;
    var run := Threaded(m, ticks, others, a, risk);
    ThreadedFed(m, ticks, shown, bars, q, run);
    ThreadedWithout(m, ticks, shown, bars, q, others, a, risk);
    RestartsDoNotMatter(m, run, shown, bars, q, a, k);
    SameRiskAtEnd(m, run, shown, bars, q, a, risk);
  }
}
