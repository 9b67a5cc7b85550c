/** Several indices traded at once. Each cycle runs under its index's lock; a new entry is
    checked and filled under one shared guard, with the open positions counted afresh inside
    it. A cycle is a sequence of atomic steps and any scheduler may interleave them; even the
    open-position counts are read one account at a time. */
module Dashboard {
  import opened Common
  import opened Indicators
  import opened Strategy
  import opened StrategyTheorems
  import opened Account
  import opened Risk
  import opened AutoTrader
  import opened CycleTheorems

  type Index = nat

  type Thread = nat

  /** Where a cycle is. `k` accounts have been read, `seen` of them open. */
  datatype Place =
    | Idle
    | Waiting(id: Index)
    | Counting(id: Index, k: nat, seen: nat)
    | WantsGuard(id: Index, m: Market, poll: Poll, plan: Plan)
    | Recounting(id: Index, m: Market, poll: Poll, plan: Plan, k: nat, seen: nat)
    | GuardDone(id: Index)
    | Exiting(id: Index, m: Market, poll: Poll, plan: Plan, seen: nat)
    | Finishing(id: Index)

  /** A filled strategy event of one index. */
  datatype Done = Done(id: Index, event: Event)

  /** Each index has a clock of its own: the time its latest cycle sampled. Cycles of one index sample in
      order, since they do so under its lock; those of different indices need not. */
  datatype System = System(
    accounts: map<Index, AccountState>, risk: RiskState, locks: map<Index, Option<Thread>>,
    guard: Option<Thread>, places: map<Thread, Place>, done: seq<Done>, clocks: map<Index, int>)

  datatype Site = Site(order: seq<Index>, limits: RiskLimits)

  datatype Action =
    | Start(t: Thread, id: Index)
    | Acquire(t: Thread)
    | ReadOne(t: Thread)
    | Evaluate(t: Thread, m: Market, poll: Poll)
    | TakeGuard(t: Thread)
    | CommitEntry(t: Thread)
    | CommitExit(t: Thread)
    | ReleaseGuard(t: Thread)
    | Release(t: Thread)
    | TimeOut(t: Thread)
    | Raise(t: Thread)
    | Meddle(autoTrading: bool, killSwitch: bool, resetHalt: bool)

  predicate Open(a: AccountState) { a.quantity > 0 }

  function ClockOf(s: System, id: Index): int { if id in s.clocks then s.clocks[id] else 0 }

  /** A history fetched by a cycle holds no bar of a later day than the cycle's own; its last bar may have
      begun after the time was sampled. */
  ghost predicate NoFuture(p: Poll) {
    var bars := DropInvalid(p.data);
    bars != [] ==> Day(bars[|bars| - 1].ts) <= Day(p.now)
  }

  /** An entry on a bar of this time is stale when trading opens the day after. */
  predicate StaleByMorning(l: RiskLimits, m: Market, ts: int) {
    (Day(ts) + 1) * SECONDS_PER_DAY + l.tradingStart - (ts + m.barLength) > m.barLength * FRESHNESS_BARS
  }

  /** So is any entry this window can start. */
  ghost predicate ShortNights(l: RiskLimits, m: Market, p: Poll) {
    var bars := DropInvalid(p.data);
    forall i :: 0 <= i < |bars| && InSession(m.cfg, bars[i].ts) ==> StaleByMorning(l, m, bars[i].ts)
  }

  predicate InSession(cfg: Config, ts: int) { cfg.sessionStart <= TimeOfDay(ts) <= cfg.sessionEnd }

  /** It is the case of every window of bars short against the night, as all intraday ones are, and of every
      window of daily bars stamped at midnight, on which no session is open. */
  lemma EveryTimeframeFits(l: RiskLimits, m: Market, p: Poll)
    requires
      || (0 <= m.barLength && m.barLength * (FRESHNESS_BARS + 1) <= l.tradingStart)
      || (m.cfg.sessionStart > 0 && forall b :: b in DropInvalid(p.data) ==> TimeOfDay(b.ts) == 0)
    ensures ShortNights(l, m, p)
  {
    hide DropInvalid;
  }

  ghost predicate Shaped(site: Site, s: System) {
    && (forall i, j :: 0 <= i < j < |site.order| ==> site.order[i] != site.order[j])
    && (forall id :: id in s.accounts <==> id in site.order)
    && (forall id :: id in s.locks <==> id in site.order)
    && (forall id :: id in s.clocks <==> id in site.order)
  }

  predicate OwnsIndex(p: Place) { !p.Idle? && !p.Waiting? }

  predicate OwnsGuard(p: Place) { p.Recounting? || p.GuardDone? }

  ghost predicate Enabled(site: Site, s: System, x: Action) {
    match x
    case Start(t, id) => t in s.places && s.places[t].Idle? && id in site.order
    case Acquire(t) => t in s.places && s.places[t].Waiting? && s.places[t].id in s.locks
      && s.locks[s.places[t].id].None?
    case ReadOne(t) => t in s.places &&
      (s.places[t].Counting? || s.places[t].Recounting?) && s.places[t].k < |site.order|
      && site.order[s.places[t].k] in s.accounts
    case Evaluate(t, m, poll) => t in s.places && s.places[t].Counting? && s.places[t].k == |site.order|
      && s.places[t].id in s.accounts
      && AscendingRaw(poll.data) && NoFuture(poll) && ShortNights(site.limits, m, poll)
      && ClockOf(s, s.places[t].id) <= poll.now
    case TakeGuard(t) => t in s.places && s.places[t].WantsGuard? && s.guard.None?
    case CommitEntry(t) => t in s.places && s.places[t].Recounting? && s.places[t].k == |site.order|
      && s.places[t].id in s.accounts && s.places[t].plan.Ready?
    case CommitExit(t) => t in s.places && s.places[t].Exiting?
      && s.places[t].id in s.accounts && s.places[t].plan.Ready?
    case ReleaseGuard(t) => t in s.places && s.places[t].GuardDone?
    case Release(t) => t in s.places && s.places[t].Finishing? && s.places[t].id in s.locks
    case TimeOut(t) => t in s.places && s.places[t].Waiting?
    case Raise(t) => t in s.places &&
      (s.places[t].Counting? || s.places[t].WantsGuard? || s.places[t].Recounting? || s.places[t].Exiting?)
    case Meddle(_, _, _) => true
  }

  function Move(s: System, t: Thread, p: Place): System { s.(places := s.places[t := p]) }

  function DoneOf(id: Index, o: Outcome): seq<Done> {
    if o.Acted? && o.order.Placed? then [Done(id, o.event)] else []
  }

  /** The check and fill of a ready event against a count of open positions. */
  function Filled(site: Site, s: System, id: Index, m: Market, poll: Poll, plan: Plan, count: int): System
    requires plan.Ready?
  {
    var (a, risk, o) := Commit(m, site.limits, poll, plan, s.risk, count);
    s.(accounts := s.accounts[id := a], risk := risk, done := s.done + DoneOf(id, o))
  }

  function Evaluated(site: Site, s: System, t: Thread, id: Index, seen: nat, m: Market, poll: Poll): System
    requires id in s.accounts && AscendingRaw(poll.data)
  {
    var plan := Prepare(m, site.limits, poll, s.accounts[id], s.risk);
    var s' := s.(accounts := s.accounts[id := plan.account], clocks := s.clocks[id := poll.now]);
    if plan.Finished? then Move(s'.(risk := plan.risk), t, Finishing(id))
    else if IsEntry(plan.event) then Move(s', t, WantsGuard(id, m, poll, plan))
    else Move(s', t, Exiting(id, m, poll, plan, seen))
  }

  function Read(site: Site, s: System, p: Place): Place
    requires (p.Counting? || p.Recounting?) && p.k < |site.order| && site.order[p.k] in s.accounts
  {
    var one := if Open(s.accounts[site.order[p.k]]) then 1 else 0;
    match p
    case Counting(id, k, seen) => Counting(id, k + 1, seen + one)
    case Recounting(id, m, poll, plan, k, seen) => Recounting(id, m, poll, plan, k + 1, seen + one)
  }

  ghost function Do(site: Site, s: System, x: Action): System
    requires Enabled(site, s, x)
  {
    match x
    case Start(t, id) => Move(s, t, Waiting(id))
    case Acquire(t) =>
      var id := s.places[t].id;
      Move(s.(locks := s.locks[id := Some(t)]), t, Counting(id, 0, 0))
    case ReadOne(t) => Move(s, t, Read(site, s, s.places[t]))
    case Evaluate(t, m, poll) => Evaluated(site, s, t, s.places[t].id, s.places[t].seen, m, poll)
    case TakeGuard(t) =>
      var p := s.places[t];
      Move(s.(guard := Some(t)), t, Recounting(p.id, p.m, p.poll, p.plan, 0, 0))
    case CommitEntry(t) =>
      var p := s.places[t];
      Move(Filled(site, s, p.id, p.m, p.poll, p.plan, p.seen), t, GuardDone(p.id))
    case CommitExit(t) =>
      var p := s.places[t];
      Move(Filled(site, s, p.id, p.m, p.poll, p.plan, p.seen), t, Finishing(p.id))
    case ReleaseGuard(t) => Move(s.(guard := None), t, Finishing(s.places[t].id))
    case Release(t) =>
      var id := s.places[t].id;
      Move(s.(locks := s.locks[id := None]), t, Idle)
    case TimeOut(t) => Move(s, t, Idle)
    case Raise(t) => Move(s, t, if OwnsGuard(s.places[t]) then GuardDone(s.places[t].id) else Finishing(s.places[t].id))
    case Meddle(autoTrading, killSwitch, resetHalt) =>
      var risk := s.risk.(autoTrading := autoTrading, killSwitch := killSwitch);
      s.(risk := if resetHalt then ResetHalt(risk) else risk)
  }

  // ---------------------------------------------------------------- the invariant

  /** A lock's owner is exactly the thread whose cycle is past acquiring it. */
  ghost predicate IndexHeld(site: Site, s: System) {
    && (forall t :: t in s.places && !s.places[t].Idle? ==> s.places[t].id in site.order)
    && (forall t :: t in s.places && OwnsIndex(s.places[t]) ==>
          s.places[t].id in s.locks && s.locks[s.places[t].id] == Some(t))
    && (forall id :: id in s.locks && s.locks[id].Some? ==>
          var t := s.locks[id].value;
          t in s.places && OwnsIndex(s.places[t]) && s.places[t].id == id)
  }

  ghost predicate GuardHeld(s: System) {
    && (forall t :: t in s.places && OwnsGuard(s.places[t]) ==> s.guard == Some(t))
    && (s.guard.Some? ==> s.guard.value in s.places && OwnsGuard(s.places[s.guard.value]))
  }

  ghost predicate PlansOk(site: Site, s: System) {
    forall t :: t in s.places && OwnsIndex(s.places[t]) ==> PlanOk(site, ClockOf(s, s.places[t].id), s.places[t])
  }

  ghost predicate Held(site: Site, s: System) { IndexHeld(site, s) && GuardHeld(s) && PlansOk(site, s) }

  /** What is being committed suits its account and is not of a later day than its clock; an entry is
      fresh, on a day without a square-off yet; an exit was preceded by a count that saw a position. */
  ghost predicate PlanOk(site: Site, clock: int, p: Place) {
    && (p.WantsGuard? || p.Recounting? ==>
          Suits(p.plan) && IsEntry(p.plan.event) && EntryTimely(site.limits, clock, p.m, p.poll, p.plan))
    && (p.Exiting? ==> Suits(p.plan) && IsExit(p.plan.event) && p.seen > 0 && Day(p.plan.event.ts) <= Day(clock))
  }

  ghost predicate EntryTimely(l: RiskLimits, clock: int, m: Market, poll: Poll, plan: Plan)
    requires plan.Ready?
  {
    && Day(plan.event.ts) <= Day(poll.now) <= Day(clock)
    && IsFresh(plan.event, poll.now, m.barLength) && StaleByMorning(l, m, plan.event.ts)
    && (plan.account.squareOffDate.Some? ==> plan.account.squareOffDate.value < Day(poll.now))
  }

  function OpenCount(accounts: map<Index, AccountState>, ids: seq<Index>): nat {
    if |ids| == 0 then 0
    else
      var last := ids[|ids| - 1];
      OpenCount(accounts, ids[..|ids| - 1]) + (if last in accounts && Open(accounts[last]) then 1 else 0)
  }

  /** What a cycle's progress says about the accounts right now. */
  ghost predicate ProgressOk(site: Site, s: System, p: Place) {
    match p
    case Counting(id, k, seen) =>
      k <= |site.order| && (id in s.accounts && Open(s.accounts[id]) && id in site.order[..k] ==> seen > 0)
    case WantsGuard(id, _, _, plan) => id in s.accounts && plan.Ready? && plan.account == s.accounts[id]
    case Recounting(id, _, _, plan, k, seen) =>
      && id in s.accounts && plan.Ready? && plan.account == s.accounts[id]
      && k <= |site.order| && OpenCount(s.accounts, site.order[..k]) <= seen
    case Exiting(id, _, _, plan, _) => id in s.accounts && plan.Ready? && plan.account == s.accounts[id]
    case _ => true
  }

  /** The account cannot fill an event of this time again: its mark is past it, or a square-off has
      flattened it on that day or later. */
  ghost predicate Behind(a: AccountState, ts: int) {
    (a.lastEventAt.Some? && ts <= a.lastEventAt.value) ||
    (a.quantity == 0 && a.squareOffDate.Some? && Day(ts) <= a.squareOffDate.value)
  }

  /** Each index's fills are in strictly rising time order and behind its account. */
  ghost predicate FillsRise(s: System) {
    && (forall i, j :: 0 <= i < j < |s.done| && s.done[i].id == s.done[j].id ==>
          s.done[i].event.ts < s.done[j].event.ts)
    && (forall i :: 0 <= i < |s.done| ==>
          var d := s.done[i];
          && Day(d.event.ts) <= Day(ClockOf(s, d.id)) && d.id in s.accounts
          && Behind(s.accounts[d.id], d.event.ts))
  }

  ghost predicate AccountsOk(site: Site, s: System) {
    && (forall id :: id in s.accounts ==> InStep(s.accounts[id]) && DatePast(s.accounts[id], ClockOf(s, id)))
    && OpenCount(s.accounts, site.order) <= site.limits.maxOpenPositions
  }

  ghost predicate DatePast(a: AccountState, clock: int) {
    a.squareOffDate.Some? ==> a.squareOffDate.value <= Day(clock)
  }

  /** No more entries today than the cap. */
  predicate Capped(l: RiskLimits, risk: RiskState) { risk.entriesToday <= 0 || risk.entriesToday <= l.maxTradesPerDay }

  ghost predicate Inv(site: Site, s: System) {
    Shaped(site, s) && Held(site, s) && AccountsOk(site, s) && FillsRise(s) && Capped(site.limits, s.risk) &&
    (forall t :: t in s.places ==> ProgressOk(site, s, s.places[t]))
  }

  // ---------------------------------------------------------------- counting

  lemma {:induction false} FewerOpen(a: map<Index, AccountState>, b: map<Index, AccountState>, ids: seq<Index>)
    requires forall i :: 0 <= i < |ids| && ids[i] in b && Open(b[ids[i]]) ==> ids[i] in a && Open(a[ids[i]])
    ensures OpenCount(b, ids) <= OpenCount(a, ids)
  {
    if |ids| > 0 {
      FewerOpen(a, b, ids[..|ids| - 1]);
    }
  }

  lemma {:induction false} OneMoreOpen(a: map<Index, AccountState>, id: Index, x: AccountState, ids: seq<Index>)
    requires forall i, j :: 0 <= i < j < |ids| ==> ids[i] != ids[j]
    ensures OpenCount(a[id := x], ids) <= OpenCount(a, ids) + 1
  {
    if |ids| > 0 {
      var n := |ids| - 1;
      if ids[n] == id {
        forall i | 0 <= i < n
          ensures ids[..n][i] != id
        {
          assert ids[i] != ids[n];
        }
        FewerOpen(a, a[id := x], ids[..n]);
      } else {
        OneMoreOpen(a, id, x, ids[..n]);
      }
    }
  }

  // ---------------------------------------------------------------- what a step does to its own account

  /** Nothing that was behind the account comes back in front of it. */
  ghost predicate StaysBehind(a: AccountState, b: AccountState, now: int) {
    forall ts :: Day(ts) <= Day(now) && Behind(a, ts) ==> Behind(b, ts)
  }

  /** Evaluating never opens a position, lets nothing filled come back, and what it gets ready is timely. */
  lemma PrepareLaws(m: Market, l: RiskLimits, p: Poll, a: AccountState, risk: RiskState)
    requires AscendingRaw(p.data) && InStep(a) && DatePast(a, p.now)
    ensures
      var plan := Prepare(m, l, p, a, risk);
      && InStep(plan.account) && DatePast(plan.account, p.now) && (Open(plan.account) ==> Open(a))
      && StaysBehind(a, plan.account, p.now)
      && (plan.Finished? && Capped(l, risk) ==> Capped(l, plan.risk))
      && (plan.Ready? ==> Suits(plan) && plan.account.quantity == a.quantity)
  {
    hide FollowSignals, Rows;
    var bars := DropInvalid(p.data);
    if bars != [] {
      var stale := StaleDay(a, p.now);
      if stale.Some? {
        ForceCloseLaws(m, l, bars, p.now, a, risk, stale, false);
      } else if SquareOffDue(l, a, p.now) {
        ForceCloseLaws(m, l, bars, p.now, a, risk, None, true);
      } else {
        WindowAscending(m, p.data, p.now, a.quantity > 0);
        UsableCloses(p.data);
        FollowLaws(m, p, bars, a, risk);
      }
    }
  }

  /** An event ready to commit was seen by now, and a ready entry is fresh and not on a day already squared
      off. */
  lemma ReadyTimely(m: Market, l: RiskLimits, p: Poll, a: AccountState, risk: RiskState)
    requires AscendingRaw(p.data) && InStep(a) && DatePast(a, p.now) && NoFuture(p) && ShortNights(l, m, p)
    requires Prepare(m, l, p, a, risk).Ready?
    ensures
      var plan := Prepare(m, l, p, a, risk);
      && Day(plan.event.ts) <= Day(p.now)
      && (IsEntry(plan.event) ==>
            && IsFresh(plan.event, p.now, m.barLength) && StaleByMorning(l, m, plan.event.ts)
            && (plan.account.squareOffDate.Some? ==> plan.account.squareOffDate.value < Day(p.now)))
  {
    hide Prepare, Scan, ScanSound, AscendingRows, First, InStep, IsFresh, Judge, Suits, StaysBehind, Capped, NoFuture,
         DropInvalid, WindowRows, AscendingRaw, ShortNights, StaleByMorning, InSession;
    var bars := DropInvalid(p.data);
    var plan := Prepare(m, l, p, a, risk);
    PrepareLaws(m, l, p, a, risk);
    SuitsSort(plan);
    ReadyIsJudged(m, l, p, a, risk);
    var rows := WindowRows(m, bars, p.now, a.quantity > 0);
    ScanLaws(rows, m.barLength, p.now, a);
    var s := Scan(rows, m.barLength, p.now, a);
    JudgeReady(p, s, risk, bars[|bars| - 1].close);
    ScanFound(rows, m.barLength, p.now, a, s, ExpiredBy(rows, m.barLength, p.now, a));
    var i := FirstSeen(rows, s.account, s.event);
    RowTime(m, bars, p.now, a.quantity > 0, i);
    NotLater(p, i);
    InSessionStale(l, m, p, i);
  }

  lemma ReadyIsJudged(m: Market, l: RiskLimits, p: Poll, a: AccountState, risk: RiskState)
    requires AscendingRaw(p.data) && Prepare(m, l, p, a, risk).Ready?
    ensures
      var bars := DropInvalid(p.data);
      var rows := WindowRows(m, bars, p.now, a.quantity > 0);
      && bars != [] && AscendingRows(rows)
      && Prepare(m, l, p, a, risk) == Judge(p, Scan(rows, m.barLength, p.now, a), risk, bars[|bars| - 1].close)
  {
    hide Scan, Rows, Judge, AscendingRows, PlaceEvent, RecordTrade, DropInvalid, AscendingRaw, StaleDay, SquareOffDue;
    WindowAscending(m, p.data, p.now, a.quantity > 0);
  }

  lemma SuitsSort(plan: Plan)
    requires Suits(plan)
    ensures IsEntry(plan.event) <==> plan.account.quantity == 0
    ensures plan.account.quantity >= 0
  {
  }

  lemma JudgeReady(p: Poll, s: Scanned, risk: RiskState, lastPrice: real)
    ensures
      var plan := Judge(p, s, risk, lastPrice);
      plan.Ready? ==>
        && s.Found? && plan.event == s.event && plan.late == s.late && plan.account == s.account
        && (IsEntry(s.event) ==> s.account.squareOffDate != Some(Day(p.now)))
  {
  }

  lemma RowTime(m: Market, bars: seq<Bar>, now: int, held: bool, i: nat)
    requires i < |WindowRows(m, bars, now, held)|
    ensures i < |bars| && WindowRows(m, bars, now, held)[i].ts == bars[i].ts
    ensures WindowRows(m, bars, now, held)[i].inSession <==> InSession(m.cfg, bars[i].ts)
  {
    var window := Window(m, bars, now, held);
    assert window <= bars;
    assert Rows(window, m.cfg)[i].ts == window[i].ts;
  }

  lemma NotLater(p: Poll, i: nat)
    requires AscendingRaw(p.data) && NoFuture(p) && i < |DropInvalid(p.data)|
    ensures Day(DropInvalid(p.data)[i].ts) <= Day(p.now)
  {
    DropInvalidAscending(p.data);
  }

  lemma InSessionStale(l: RiskLimits, m: Market, p: Poll, i: nat)
    requires ShortNights(l, m, p) && i < |DropInvalid(p.data)|
    ensures
      var ts := DropInvalid(p.data)[i].ts;
      InSession(m.cfg, ts) ==> StaleByMorning(l, m, ts)
  {
    hide DropInvalid, StaleByMorning, InSession;
  }

  lemma ScanFound(rows: seq<Row>, barLength: int, now: int, a: AccountState, s: Scanned, es: seq<Event>)
    requires ScanSound(rows, barLength, now, a, s, es)
    ensures s.Found? ==> First(rows, s.account) == Some(s.event) && (s.late ==> a.quantity > 0)
    ensures s.Found? ==> (s.late <==> !IsFresh(s.event, now, barLength))
    ensures s.account.squareOffDate == a.squareOffDate && s.account.quantity == a.quantity
  {
    hide First, IsFresh;
  }

  /** The oldest unprocessed event is stamped with a bar of the window. */
  lemma FirstSeen(rows: seq<Row>, a: AccountState, e: Event) returns (i: nat)
    requires AscendingRows(rows) && First(rows, a) == Some(e)
    ensures i < |rows| && rows[i].ts == e.ts && (IsEntry(e) ==> rows[i].inSession)
  {
    hide Events, SeedPosition;
    UnprocessedOnRows(rows, a);
    assert rows[0..] == rows;
    var c := Seed(rows, a.lastEventAt);
    var d := EventSource(rows[c..], if a.lastEventAt.None? then Flat else SeedPosition(rows, a), 0);
    i := c + d;
  }

  lemma CommitCapped(m: Market, l: RiskLimits, p: Poll, plan: Plan, risk: RiskState, count: int)
    requires plan.Ready? && Capped(l, risk)
    ensures Capped(l, Commit(m, l, p, plan, risk, count).1)
  {
    hide PlaceEvent, WithinHours, WithinSizeLimits;
    CapGate(l, NewDay(risk, p.now), plan, p, count);
  }

  lemma CapGate(l: RiskLimits, s: RiskState, plan: Plan, p: Poll, count: int)
    requires plan.Ready?
    ensures IsEntry(plan.event) && Decide(l, s, Ask(plan.event, p, count)).allowed ==>
      s.entriesToday < l.maxTradesPerDay
  {
    if IsEntry(plan.event) {
      EntryAllowedIff(l, s, Ask(plan.event, p, count));
    }
  }

  /** Filling: an entry only below the limit, an exit never blocked for want of a position, and
      a filled event is past the mark and becomes it. */
  lemma FilledLaws(m: Market, l: RiskLimits, p: Poll, plan: Plan, risk: RiskState, count: int)
    requires Suits(plan)
    ensures
      var (a, _, o) := Commit(m, l, p, plan, risk, count);
      && InStep(a) && a.squareOffDate == plan.account.squareOffDate
      && (!o.Acted? ==> a == plan.account)
      && (IsExit(plan.event) ==> (Open(a) ==> Open(plan.account)))
      && (Open(a) && !Open(plan.account) ==> count < l.maxOpenPositions)
      && (count > 0 ==> o != RiskBlocked(plan.event, NothingToExit))
      && (o.Acted? ==>
            && o.order.Placed? && o.event == plan.event && a.lastEventAt == Some(o.event.ts)
            && (plan.account.lastEventAt.Some? ==> o.event.ts > plan.account.lastEventAt.value))
      && (o.Acted? && IsEntry(plan.event) ==> WithinHours(l, p.now))
  {
    CommitLaws(m, l, p, plan, risk, count);
    if IsEntry(plan.event) {
      EntryAllowedIff(l, NewDay(risk, p.now), Ask(plan.event, p, count));
    }
  }

  // ---------------------------------------------------------------- each step keeps the invariant

  /** Changing the account of an index whose lock t holds, and t's own place. */
  ghost predicate Changes(s: System, s': System, t: Thread, id: Index, x: AccountState, p: Place) {
    && s'.accounts == s.accounts[id := x] && s'.places == s.places[t := p]
    && s'.locks == s.locks && s'.guard == s.guard
  }

  /** Other cycles' progress survives it: their own accounts are other ones, and an open-count
      being taken under the guard can only fall unless t holds the guard itself. */
  lemma OthersProgress(site: Site, s: System, s': System, t: Thread, id: Index, x: AccountState, p: Place)
    requires Inv(site, s) && t in s.places && OwnsIndex(s.places[t]) && s.places[t].id == id
    requires Changes(s, s', t, id, x, p)
    requires (id in s.accounts && (Open(x) ==> Open(s.accounts[id]))) || s.guard == Some(t)
    ensures forall u :: u in s'.places && u != t ==> ProgressOk(site, s', s'.places[u])
  {
    forall u | u in s'.places && u != t
      ensures ProgressOk(site, s', s'.places[u])
    {
      var q := s.places[u];
      assert ProgressOk(site, s, q);
      if OwnsIndex(q) {
        assert q.id != id;
        if q.Recounting? {
          assert OwnsGuard(q);
          FewerOpen(s.accounts, s'.accounts, site.order[..q.k]);
        }
      }
    }
  }

  lemma GuardAfterMove(s: System, s': System, t: Thread, p: Place)
    requires GuardHeld(s) && t in s.places && s'.places == s.places[t := p] && s'.guard == s.guard
    requires OwnsGuard(p) <==> OwnsGuard(s.places[t])
    ensures GuardHeld(s')
  {
  }

  /** No clock has gone back. */
  ghost predicate Later(s: System, s': System) { forall id :: ClockOf(s, id) <= ClockOf(s', id) }

  lemma PlansAfterMove(site: Site, s: System, s': System, t: Thread, p: Place)
    requires PlansOk(site, s) && s'.places == s.places[t := p] && Later(s, s')
    requires OwnsIndex(p) ==> PlanOk(site, ClockOf(s', p.id), p)
    ensures PlansOk(site, s')
  {
    hide Suits, IsFresh;
  }

  lemma IndexAfterMove(site: Site, s: System, s': System, t: Thread, p: Place)
    requires IndexHeld(site, s) && t in s.places && OwnsIndex(s.places[t])
    requires s'.places == s.places[t := p] && s'.locks == s.locks
    requires OwnsIndex(p) && p.id == s.places[t].id
    ensures IndexHeld(site, s')
  {
  }

  lemma HeldAfterMove(site: Site, s: System, s': System, t: Thread, p: Place)
    requires Held(site, s) && t in s.places && OwnsIndex(s.places[t])
    requires s'.places == s.places[t := p] && s'.locks == s.locks && s'.guard == s.guard && Later(s, s')
    requires OwnsIndex(p) && p.id == s.places[t].id && (OwnsGuard(p) <==> OwnsGuard(s.places[t]))
    requires PlanOk(site, ClockOf(s', p.id), p)
    ensures Held(site, s')
  {
    hide IndexHeld, GuardHeld, PlansOk, PlanOk, OwnsIndex, OwnsGuard;
    IndexAfterMove(site, s, s', t, p);
    GuardAfterMove(s, s', t, p);
    PlansAfterMove(site, s, s', t, p);
  }

  /** New fills come after everything behind the account. */
  ghost predicate ComesAfter(a: AccountState, more: seq<Done>, id: Index, x: AccountState, clock: int) {
    more == [] ||
    (|more| == 1 && more[0].id == id && x.lastEventAt == Some(more[0].event.ts) &&
     Day(more[0].event.ts) <= Day(clock) &&
     forall ts :: Behind(a, ts) ==> ts < more[0].event.ts)
  }

  lemma RiseKept(s: System, s': System, id: Index, x: AccountState, more: seq<Done>)
    requires FillsRise(s) && id in s.accounts && s'.accounts == s.accounts[id := x] && s'.done == s.done + more
    requires Later(s, s') && StaysBehind(s.accounts[id], x, ClockOf(s, id))
    requires ComesAfter(s.accounts[id], more, id, x, ClockOf(s', id))
    ensures FillsRise(s')
  {
    hide Behind;
    forall i, j | 0 <= i < j < |s'.done| && s'.done[i].id == s'.done[j].id
      ensures s'.done[i].event.ts < s'.done[j].event.ts
    {
      assert s'.done[i] == s.done[i];
      if j < |s.done| {
        assert s'.done[j] == s.done[j];
      }
    }
    forall i | 0 <= i < |s'.done|
      ensures Day(s'.done[i].event.ts) <= Day(ClockOf(s', s'.done[i].id)) && s'.done[i].id in s'.accounts
      ensures Behind(s'.accounts[s'.done[i].id], s'.done[i].event.ts)
    {
      if i < |s.done| {
        assert s'.done[i] == s.done[i];
      } else {
        MarkIsBehind(x, s'.done[i].event.ts);
      }
    }
  }

  lemma MarkIsBehind(x: AccountState, ts: int)
    ensures x.lastEventAt == Some(ts) ==> Behind(x, ts)
  {
  }

  lemma EachKept(site: Site, s: System, s': System, id: Index, x: AccountState)
    requires AccountsOk(site, s) && id in s.accounts && Later(s, s')
    requires s'.accounts == s.accounts[id := x] && InStep(x) && DatePast(x, ClockOf(s', id))
    ensures forall u :: u in s'.accounts ==> InStep(s'.accounts[u]) && DatePast(s'.accounts[u], ClockOf(s', u))
  {
    hide InStep, ClockOf, OpenCount;
  }

  lemma CountKept(site: Site, s: System, s': System, id: Index, x: AccountState)
    requires Shaped(site, s) && AccountsOk(site, s) && id in s.accounts && Later(s, s')
    requires s'.accounts == s.accounts[id := x] && InStep(x) && DatePast(x, ClockOf(s', id))
    requires (Open(x) ==> Open(s.accounts[id])) || OpenCount(s.accounts, site.order) < site.limits.maxOpenPositions
    ensures AccountsOk(site, s')
  {
    hide InStep, DatePast, Later, ClockOf;
    EachKept(site, s, s', id, x);
    if Open(x) && !Open(s.accounts[id]) {
      OneMoreOpen(s.accounts, id, x, site.order);
    } else {
      FewerOpen(s.accounts, s'.accounts, site.order);
    }
  }

  /** Steps that leave accounts and fills alone. */
  lemma SameBooks(site: Site, s: System, s': System)
    requires Shaped(site, s) && AccountsOk(site, s) && FillsRise(s)
    requires s'.accounts == s.accounts && s'.done == s.done && s'.locks.Keys == s.locks.Keys && s'.clocks == s.clocks
    ensures Shaped(site, s') && AccountsOk(site, s') && FillsRise(s')
  {
    hide InStep, Behind;
  }

  lemma ShapedKept(site: Site, s: System, s': System, id: Index, x: AccountState)
    requires Shaped(site, s) && id in s.accounts && s'.accounts == s.accounts[id := x] && s'.locks == s.locks
    requires s'.clocks.Keys == s.clocks.Keys
    ensures Shaped(site, s')
  {
  }

  lemma CountedItself(site: Site, s: System, q: Place)
    requires Shaped(site, s) && q.Counting? && q.k == |site.order| && ProgressOk(site, s, q) && q.id in s.accounts
    ensures Open(s.accounts[q.id]) ==> q.seen > 0
  {
    assert site.order[..q.k] == site.order;
  }

  lemma EvaluatedProgress(site: Site, s: System, s': System, q: Place, plan: Plan, p: Place, m: Market, poll: Poll)
    requires q.Counting? && q.id in s.accounts && s'.accounts == s.accounts[q.id := plan.account]
    requires p ==
      if plan.Finished? then Finishing(q.id)
      else if IsEntry(plan.event) then WantsGuard(q.id, m, poll, plan) else Exiting(q.id, m, poll, plan, q.seen)
    ensures ProgressOk(site, s', p)
  {
  }

  lemma AccountFacts(site: Site, s: System, id: Index, now: int)
    requires AccountsOk(site, s) && id in s.accounts && ClockOf(s, id) <= now
    ensures InStep(s.accounts[id]) && DatePast(s.accounts[id], now)
  {
  }

  lemma EvaluatedPlace(site: Site, plan: Plan, a: AccountState, q: Place, p: Place, m: Market, poll: Poll)
    requires q.Counting? && (Open(a) ==> q.seen > 0)
    requires plan.Ready? ==>
      && Suits(plan) && plan.account.quantity == a.quantity && Day(plan.event.ts) <= Day(poll.now)
      && (IsEntry(plan.event) ==> EntryTimely(site.limits, poll.now, m, poll, plan))
    requires p ==
      if plan.Finished? then Finishing(q.id)
      else if IsEntry(plan.event) then WantsGuard(q.id, m, poll, plan) else Exiting(q.id, m, poll, plan, q.seen)
    ensures OwnsIndex(p) && p.id == q.id && !OwnsGuard(p) && PlanOk(site, poll.now, p)
  {
    hide EntryTimely;
  }

  lemma ClockMoves(s: System, s': System, id: Index, now: int)
    requires s'.clocks == s.clocks[id := now] && ClockOf(s, id) <= now
    ensures Later(s, s') && ClockOf(s', id) == now && (id in s.clocks ==> s'.clocks.Keys == s.clocks.Keys)
  {
  }

  /** What evaluating leaves the thread with. */
  lemma EvaluatedOk(site: Site, s: System, q: Place, m: Market, poll: Poll, p: Place)
    requires Shaped(site, s) && AccountsOk(site, s) && ProgressOk(site, s, q)
    requires q.Counting? && q.k == |site.order| && q.id in s.accounts && ClockOf(s, q.id) <= poll.now
    requires AscendingRaw(poll.data) && NoFuture(poll) && ShortNights(site.limits, m, poll)
    requires
      var plan := Prepare(m, site.limits, poll, s.accounts[q.id], s.risk);
      p == if plan.Finished? then Finishing(q.id)
           else if IsEntry(plan.event) then WantsGuard(q.id, m, poll, plan) else Exiting(q.id, m, poll, plan, q.seen)
    ensures OwnsIndex(p) && p.id == q.id && !OwnsGuard(p) && PlanOk(site, poll.now, p)
  {
    hide Prepare, InStep, AccountsOk, NoFuture, ProgressOk, Suits, PlanOk, Shaped, StaysBehind, DatePast, Capped,
         AscendingRaw, IsFresh, ShortNights, StaleByMorning, ClockOf;
    var a := s.accounts[q.id];
    AccountFacts(site, s, q.id, poll.now);
    var plan := Prepare(m, site.limits, poll, a, s.risk);
    PrepareLaws(m, site.limits, poll, a, s.risk);
    if plan.Ready? {
      ReadyTimely(m, site.limits, poll, a, s.risk);
    }
    CountedItself(site, s, q);
    EvaluatedPlace(site, plan, a, q, p, m, poll);
  }

  lemma EvaluateKeeps(site: Site, s: System, t: Thread, m: Market, poll: Poll)
    requires Inv(site, s) && Enabled(site, s, Evaluate(t, m, poll))
    ensures Inv(site, Do(site, s, Evaluate(t, m, poll)))
  {
    hide Prepare, InStep, Held, AccountsOk, FillsRise, NoFuture, ProgressOk, Suits, PlanOk, StaysBehind, DatePast,
         Capped, AscendingRaw, ComesAfter, IsFresh, ShortNights, Later, ClockOf;
    var q := s.places[t];
    var id := q.id;
    var a := s.accounts[id];
    AccountFacts(site, s, id, poll.now);
    var plan := Prepare(m, site.limits, poll, a, s.risk);
    var s' := Do(site, s, Evaluate(t, m, poll));
    PrepareLaws(m, site.limits, poll, a, s.risk);
    ClockMoves(s, s', id, poll.now);
    assert ProgressOk(site, s, q);
    EvaluatedOk(site, s, q, m, poll, s'.places[t]);
    OthersProgress(site, s, s', t, id, plan.account, s'.places[t]);
    HeldAfterMove(site, s, s', t, s'.places[t]);
    assert s'.done == s.done + [];
    SoonerBehind(a, plan.account, ClockOf(s, id), poll.now);
    NoMore(a, id, plan.account, ClockOf(s', id));
    RiseKept(s, s', id, plan.account, []);
    CountKept(site, s, s', id, plan.account);
    EvaluatedProgress(site, s, s', q, plan, s'.places[t], m, poll);
    ShapedKept(site, s, s', id, plan.account);
  }

  lemma SoonerBehind(a: AccountState, b: AccountState, clock: int, now: int)
    requires StaysBehind(a, b, now) && clock <= now
    ensures StaysBehind(a, b, clock)
  {
    hide Behind;
  }

  lemma NoMore(a: AccountState, id: Index, x: AccountState, clock: int)
    ensures ComesAfter(a, [], id, x, clock)
  {
  }

  lemma PlanOfThread(site: Site, s: System, t: Thread)
    requires t in s.places
    ensures PlansOk(site, s) && OwnsIndex(s.places[t]) ==> PlanOk(site, ClockOf(s, s.places[t].id), s.places[t])
  {
  }

  lemma GuardOfThread(s: System, t: Thread)
    requires GuardHeld(s) && t in s.places && OwnsGuard(s.places[t])
    ensures s.guard == Some(t)
  {
  }

  /** A timely entry comes after everything behind its account: after its mark, and after every bar of the
      day of a square-off, because it is fresh in a session that opens later. */
  lemma EntryIsLater(l: RiskLimits, clock: int, m: Market, poll: Poll, plan: Plan)
    requires Suits(plan) && IsEntry(plan.event) && EntryTimely(l, clock, m, poll, plan) && WithinHours(l, poll.now)
    ensures forall ts :: Behind(plan.account, ts) ==> ts < plan.event.ts
  {
    assert Day(plan.event.ts) >= Day(poll.now);
  }

  lemma ExitIsLater(plan: Plan)
    requires Suits(plan) && IsExit(plan.event)
    ensures forall ts :: Behind(plan.account, ts) ==> ts < plan.event.ts
  {
  }

  /** What a commit leaves behind and what it adds. */
  lemma CommittedRises(
      a: AccountState, id: Index, x: AccountState, o: Outcome, e: Event, clock: int)
    requires !o.Acted? ==> x == a
    requires o.Acted? ==>
      o.order.Placed? && o.event == e && x.lastEventAt == Some(e.ts) && Day(e.ts) <= Day(clock)
    requires o.Acted? ==> forall ts :: Behind(a, ts) ==> ts < e.ts
    ensures StaysBehind(a, x, clock) && ComesAfter(a, DoneOf(id, o), id, x, clock)
  {
    hide Behind;
    if o.Acted? {
      forall ts | Behind(a, ts)
        ensures Behind(x, ts)
      {
        PastMark(x, ts);
      }
    }
  }

  lemma PastMark(x: AccountState, ts: int)
    ensures x.lastEventAt.Some? && ts <= x.lastEventAt.value ==> Behind(x, ts)
  {
  }

  lemma SameDate(site: Site, s: System, id: Index, plan: Plan, x: AccountState)
    requires AccountsOk(site, s) && id in s.accounts && plan.Ready? && plan.account == s.accounts[id]
    requires x.squareOffDate == plan.account.squareOffDate
    ensures DatePast(x, ClockOf(s, id))
  {
  }

  lemma CommitEntryKeeps(site: Site, s: System, t: Thread)
    requires Inv(site, s) && Enabled(site, s, CommitEntry(t))
    ensures Inv(site, Do(site, s, CommitEntry(t)))
  {
    hide Commit, InStep, AccountsOk, FillsRise, Suits, IndexHeld, GuardHeld, PlansOk, Shaped, StaysBehind, DatePast,
         Capped, ComesAfter, EntryTimely, Behind, WithinHours;
    var q := s.places[t];
    var s' := Do(site, s, CommitEntry(t));
    var (x, _, o) := Commit(q.m, site.limits, q.poll, q.plan, s.risk, q.seen);
    GuardOfThread(s, t);
    PlanOfThread(site, s, t);
    FilledLaws(q.m, site.limits, q.poll, q.plan, s.risk, q.seen);
    CommitCapped(q.m, site.limits, q.poll, q.plan, s.risk, q.seen);
    assert ProgressOk(site, s, q);
    assert site.order[..q.k] == site.order;
    OthersProgress(site, s, s', t, q.id, x, s'.places[t]);
    HeldAfterMove(site, s, s', t, s'.places[t]);
    if o.Acted? {
      EntryIsLater(site.limits, ClockOf(s, q.id), q.m, q.poll, q.plan);
      TimelyNow(site.limits, ClockOf(s, q.id), q.m, q.poll, q.plan);
    }
    CommittedRises(q.plan.account, q.id, x, o, q.plan.event, ClockOf(s, q.id));
    RiseKept(s, s', q.id, x, DoneOf(q.id, o));
    SameDate(site, s, q.id, q.plan, x);
    CountKept(site, s, s', q.id, x);
    ShapedKept(site, s, s', q.id, x);
  }

  lemma TimelyNow(l: RiskLimits, clock: int, m: Market, poll: Poll, plan: Plan)
    requires plan.Ready? && EntryTimely(l, clock, m, poll, plan)
    ensures Day(plan.event.ts) <= Day(clock)
  {
  }

  lemma CommitExitKeeps(site: Site, s: System, t: Thread)
    requires Inv(site, s) && Enabled(site, s, CommitExit(t))
    ensures Inv(site, Do(site, s, CommitExit(t)))
  {
    hide Commit, InStep, AccountsOk, FillsRise, Suits, IndexHeld, GuardHeld, PlansOk, Shaped, StaysBehind, DatePast,
         Capped, ComesAfter, EntryTimely, Behind;
    var q := s.places[t];
    var s' := Do(site, s, CommitExit(t));
    var (x, _, o) := Commit(q.m, site.limits, q.poll, q.plan, s.risk, q.seen);
    PlanOfThread(site, s, t);
    FilledLaws(q.m, site.limits, q.poll, q.plan, s.risk, q.seen);
    CommitCapped(q.m, site.limits, q.poll, q.plan, s.risk, q.seen);
    assert ProgressOk(site, s, q);
    OthersProgress(site, s, s', t, q.id, x, s'.places[t]);
    HeldAfterMove(site, s, s', t, s'.places[t]);
    ExitIsLater(q.plan);
    CommittedRises(q.plan.account, q.id, x, o, q.plan.event, ClockOf(s, q.id));
    RiseKept(s, s', q.id, x, DoneOf(q.id, o));
    SameDate(site, s, q.id, q.plan, x);
    CountKept(site, s, s', q.id, x);
    ShapedKept(site, s, s', q.id, x);
  }

  lemma ReadProgress(site: Site, s: System, s': System, q: Place)
    requires s'.accounts == s.accounts && ProgressOk(site, s, q)
    requires (q.Counting? || q.Recounting?) && q.k < |site.order| && site.order[q.k] in s.accounts
    ensures ProgressOk(site, s', Read(site, s, q))
  {
    hide Suits;
    assert site.order[..q.k + 1] == site.order[..q.k] + [site.order[q.k]];
    assert site.order[..q.k + 1][..q.k] == site.order[..q.k];
  }

  /** Steps that touch neither accounts nor the progress of others. */
  lemma OwnStepProgress(site: Site, s: System, s': System, t: Thread)
    requires forall u :: u in s.places ==> ProgressOk(site, s, s.places[u])
    requires s'.accounts == s.accounts && t in s'.places && s'.places == s.places[t := s'.places[t]]
    requires ProgressOk(site, s', s'.places[t])
    ensures forall u :: u in s'.places ==> ProgressOk(site, s', s'.places[u])
  {
    forall u | u in s'.places && u != t
      ensures ProgressOk(site, s', s'.places[u])
    {
      assert ProgressOk(site, s, s.places[u]);
    }
  }

  /** A step of thread t that leaves the books, the clock and the risk state alone keeps the invariant if it
      keeps the lock ownership and t's own progress. */
  lemma OwnStepKeeps(site: Site, s: System, s': System, t: Thread)
    requires Inv(site, s) && t in s.places && t in s'.places && s'.places == s.places[t := s'.places[t]]
    requires s'.accounts == s.accounts && s'.done == s.done && s'.locks.Keys == s.locks.Keys && s'.clocks == s.clocks
    requires s'.risk == s.risk && Held(site, s') && ProgressOk(site, s', s'.places[t])
    ensures Inv(site, s')
  {
    hide Shaped, AccountsOk, FillsRise, Held, Capped, ProgressOk;
    SameBooks(site, s, s');
    OwnStepProgress(site, s, s', t);
  }

  lemma ReadOneKeeps(site: Site, s: System, t: Thread)
    requires Inv(site, s) && Enabled(site, s, ReadOne(t))
    ensures Inv(site, Do(site, s, ReadOne(t)))
  {
    hide Suits, AccountsOk, FillsRise, IndexHeld, GuardHeld, PlansOk, Shaped, EntryTimely, Capped, OpenCount;
    var q := s.places[t];
    var s' := Do(site, s, ReadOne(t));
    PlanOfThread(site, s, t);
    HeldAfterMove(site, s, s', t, s'.places[t]);
    assert ProgressOk(site, s, q);
    ReadProgress(site, s, s', q);
    OwnStepKeeps(site, s, s', t);
  }

  lemma LockTaken(site: Site, s: System, t: Thread)
    requires IndexHeld(site, s) && Enabled(site, s, Acquire(t))
    ensures IndexHeld(site, Do(site, s, Acquire(t)))
  {
  }

  lemma AcquireHeld(site: Site, s: System, t: Thread)
    requires Held(site, s) && Enabled(site, s, Acquire(t))
    ensures Held(site, Do(site, s, Acquire(t)))
  {
    hide Suits, GuardHeld, PlansOk, EntryTimely, IndexHeld;
    var s' := Do(site, s, Acquire(t));
    LockTaken(site, s, t);
    GuardAfterMove(s, s', t, s'.places[t]);
    PlansAfterMove(site, s, s', t, s'.places[t]);
  }

  lemma AcquireKeeps(site: Site, s: System, t: Thread)
    requires Inv(site, s) && Enabled(site, s, Acquire(t))
    ensures Inv(site, Do(site, s, Acquire(t)))
  {
    hide Held, AccountsOk, FillsRise, Capped;
    AcquireHeld(site, s, t);
    OwnStepKeeps(site, s, Do(site, s, Acquire(t)), t);
  }

  lemma TakeGuardHeld(site: Site, s: System, t: Thread)
    requires Held(site, s) && Enabled(site, s, TakeGuard(t))
    ensures Held(site, Do(site, s, TakeGuard(t)))
  {
    hide Suits, IndexHeld, PlansOk, EntryTimely;
    var s' := Do(site, s, TakeGuard(t));
    PlanOfThread(site, s, t);
    IndexAfterMove(site, s, s', t, s'.places[t]);
    PlansAfterMove(site, s, s', t, s'.places[t]);
  }

  lemma TakeGuardKeeps(site: Site, s: System, t: Thread)
    requires Inv(site, s) && Enabled(site, s, TakeGuard(t))
    ensures Inv(site, Do(site, s, TakeGuard(t)))
  {
    hide Held, AccountsOk, FillsRise, Capped, Shaped;
    TakeGuardHeld(site, s, t);
    assert ProgressOk(site, s, s.places[t]);
    OwnStepKeeps(site, s, Do(site, s, TakeGuard(t)), t);
  }

  /** Between idle and waiting no lock changes hands. */
  lemma OutsideHeld(site: Site, s: System, s': System, t: Thread, p: Place)
    requires Held(site, s) && t in s.places && (s.places[t].Idle? || s.places[t].Waiting?)
    requires p.Idle? || (p.Waiting? && p.id in site.order)
    requires s' == Move(s, t, p)
    ensures Held(site, s')
  {
    hide Suits, GuardHeld, PlansOk;
    GuardAfterMove(s, s', t, p);
    PlansAfterMove(site, s, s', t, p);
  }

  lemma StartKeeps(site: Site, s: System, t: Thread, id: Index)
    requires Inv(site, s) && Enabled(site, s, Start(t, id))
    ensures Inv(site, Do(site, s, Start(t, id)))
  {
    hide Held, AccountsOk, FillsRise, Capped, Shaped;
    OutsideHeld(site, s, Do(site, s, Start(t, id)), t, Waiting(id));
    OwnStepKeeps(site, s, Do(site, s, Start(t, id)), t);
  }

  lemma TimeOutKeeps(site: Site, s: System, t: Thread)
    requires Inv(site, s) && Enabled(site, s, TimeOut(t))
    ensures Inv(site, Do(site, s, TimeOut(t)))
  {
    hide Held, AccountsOk, FillsRise, Capped, Shaped;
    OutsideHeld(site, s, Do(site, s, TimeOut(t)), t, Idle);
    OwnStepKeeps(site, s, Do(site, s, TimeOut(t)), t);
  }

  lemma RaiseKeeps(site: Site, s: System, t: Thread)
    requires Inv(site, s) && Enabled(site, s, Raise(t))
    ensures Inv(site, Do(site, s, Raise(t)))
  {
    hide IndexHeld, GuardHeld, PlansOk, AccountsOk, FillsRise, Capped, Shaped, Suits;
    var s' := Do(site, s, Raise(t));
    HeldAfterMove(site, s, s', t, s'.places[t]);
    OwnStepKeeps(site, s, s', t);
  }

  lemma ReleaseGuardHeld(site: Site, s: System, t: Thread)
    requires Held(site, s) && Enabled(site, s, ReleaseGuard(t))
    ensures Held(site, Do(site, s, ReleaseGuard(t)))
  {
    hide Suits, IndexHeld, PlansOk;
    var s' := Do(site, s, ReleaseGuard(t));
    IndexAfterMove(site, s, s', t, s'.places[t]);
    PlansAfterMove(site, s, s', t, s'.places[t]);
  }

  lemma ReleaseGuardKeeps(site: Site, s: System, t: Thread)
    requires Inv(site, s) && Enabled(site, s, ReleaseGuard(t))
    ensures Inv(site, Do(site, s, ReleaseGuard(t)))
  {
    hide Held, AccountsOk, FillsRise, Capped, Shaped;
    ReleaseGuardHeld(site, s, t);
    OwnStepKeeps(site, s, Do(site, s, ReleaseGuard(t)), t);
  }

  lemma ReleaseHeld(site: Site, s: System, t: Thread)
    requires Held(site, s) && Enabled(site, s, Release(t))
    ensures Held(site, Do(site, s, Release(t)))
  {
    hide Suits, GuardHeld, PlansOk;
    var s' := Do(site, s, Release(t));
    GuardAfterMove(s, s', t, s'.places[t]);
    PlansAfterMove(site, s, s', t, s'.places[t]);
  }

  lemma ReleaseKeeps(site: Site, s: System, t: Thread)
    requires Inv(site, s) && Enabled(site, s, Release(t))
    ensures Inv(site, Do(site, s, Release(t)))
  {
    hide Held, AccountsOk, FillsRise, Capped;
    ReleaseHeld(site, s, t);
    OwnStepKeeps(site, s, Do(site, s, Release(t)), t);
  }

  lemma MeddleKeeps(site: Site, s: System, autoTrading: bool, killSwitch: bool, resetHalt: bool)
    requires Inv(site, s)
    ensures Inv(site, Do(site, s, Meddle(autoTrading, killSwitch, resetHalt)))
  {
    hide Suits, AccountsOk, FillsRise, Shaped, IndexHeld, GuardHeld, PlanOk;
    var s' := Do(site, s, Meddle(autoTrading, killSwitch, resetHalt));
    SameBooks(site, s, s');
    SameLocks(site, s, s');
    forall u | u in s'.places
      ensures ProgressOk(site, s', s'.places[u])
    {
      assert ProgressOk(site, s, s.places[u]);
    }
  }

  lemma SameLocks(site: Site, s: System, s': System)
    requires Held(site, s) && s'.places == s.places && s'.locks == s.locks
    requires s'.guard == s.guard && s'.clocks == s.clocks
    ensures Held(site, s')
  {
    hide PlanOk;
  }

  lemma StepKeeps(site: Site, s: System, x: Action)
    requires Inv(site, s) && Enabled(site, s, x)
    ensures Inv(site, Do(site, s, x))
  {
    hide Inv, Enabled, Do;
    match x
    case Evaluate(t, m, poll) => EvaluateKeeps(site, s, t, m, poll);
    case CommitEntry(t) => CommitEntryKeeps(site, s, t);
    case CommitExit(t) => CommitExitKeeps(site, s, t);
    case ReadOne(t) => ReadOneKeeps(site, s, t);
    case Acquire(t) => AcquireKeeps(site, s, t);
    case TakeGuard(t) => TakeGuardKeeps(site, s, t);
    case Meddle(autoTrading, killSwitch, resetHalt) => MeddleKeeps(site, s, autoTrading, killSwitch, resetHalt);
    case Start(t, id) => StartKeeps(site, s, t, id);
    case TimeOut(t) => TimeOutKeeps(site, s, t);
    case Raise(t) => RaiseKeeps(site, s, t);
    case ReleaseGuard(t) => ReleaseGuardKeeps(site, s, t);
    case Release(t) => ReleaseKeeps(site, s, t);
  }

  // ---------------------------------------------------------------- every interleaving

  /** Nothing is running yet. */
  ghost predicate Initial(site: Site, s: System) {
    && Shaped(site, s) && AccountsOk(site, s) && s.done == [] && s.guard.None? && Capped(site.limits, s.risk)
    && (forall t :: t in s.places ==> s.places[t].Idle?)
    && (forall id :: id in s.locks ==> s.locks[id].None?)
  }

  /** A run: any schedule of enabled steps. */
  ghost predicate Run(site: Site, states: seq<System>, actions: seq<Action>) {
    |states| == |actions| + 1 &&
    forall i :: 0 <= i < |actions| ==>
      Enabled(site, states[i], actions[i]) && states[i + 1] == Do(site, states[i], actions[i])
  }

  lemma {:induction false} RunsKeepInv(site: Site, states: seq<System>, actions: seq<Action>)
    requires Run(site, states, actions) && Initial(site, states[0])
    ensures forall i :: 0 <= i < |states| ==> Inv(site, states[i])
  {
    hide Inv, Initial, Do, Enabled;
    if |actions| == 0 {
      InitialInv(site, states[0]);
    } else {
      var n := |actions| - 1;
      RunsKeepInv(site, states[..n + 1], actions[..n]);
      assert states[..n + 1][n] == states[n];
      StepKeeps(site, states[n], actions[n]);
      forall i | 0 <= i < |states|
        ensures Inv(site, states[i])
      {
        if i <= n {
          assert states[..n + 1][i] == states[i];
        }
      }
    }
  }

  lemma InitialInv(site: Site, s: System)
    requires Initial(site, s)
    ensures Inv(site, s)
  {
  }

  /** At every moment of every interleaving: no more accounts are open than the limit allows, no index
      has filled two strategy events of the same bar, and the entries counted today, over all indices,
      do not exceed the cap. */
  lemma InterleavingsAreSafe(site: Site, states: seq<System>, actions: seq<Action>, i: nat)
    requires Run(site, states, actions) && Initial(site, states[0]) && i < |states|
    ensures OpenCount(states[i].accounts, site.order) <= site.limits.maxOpenPositions
    ensures forall j, k :: 0 <= j < k < |states[i].done| && states[i].done[j].id == states[i].done[k].id ==>
      states[i].done[j].event.ts < states[i].done[k].event.ts
    ensures states[i].risk.entriesToday <= 0 || states[i].risk.entriesToday <= site.limits.maxTradesPerDay
  {
    RunsKeepInv(site, states, actions);
    hide Do, Enabled, Held, ProgressOk;
    assert Inv(site, states[i]);
  }

  // ---------------------------------------------------------------- what the entry counter counts

  /** The entries among some fills. */
  function EntriesIn(ds: seq<Done>): nat {
    if |ds| == 0 then 0 else EntriesIn(ds[..|ds| - 1]) + (if IsEntry(ds[|ds| - 1].event) then 1 else 0)
  }

  lemma NoEntries()
    ensures EntriesIn([]) == 0
  {
  }

  lemma {:induction false} EntriesConcat(a: seq<Done>, b: seq<Done>)
    ensures EntriesIn(a + b) == EntriesIn(a) + EntriesIn(b)
  {
    if |b| == 0 {
      assert a + b == a;
    } else {
      EntriesConcat(a, b[..|b| - 1]);
      assert (a + b)[..|a + b| - 1] == a + b[..|b| - 1];
    }
  }

  /** The counter before a step, as it stands once the step has seen its day. */
  function RolledOver(before: RiskState, after: RiskState): int {
    if after.tradeDay == before.tradeDay then before.entriesToday else 0
  }

  lemma CommitCounts(m: Market, l: RiskLimits, p: Poll, plan: Plan, risk: RiskState, count: int, id: Index)
    requires plan.Ready?
    ensures
      var (_, after, o) := Commit(m, l, p, plan, risk, count);
      after.entriesToday == RolledOver(risk, after) + EntriesIn(DoneOf(id, o))
  {
    hide PlaceEvent, Decide;
    assert forall e: Event :: EntriesIn([Done(id, e)]) == if IsEntry(e) then 1 else 0;
  }

  lemma ForceCounts(
      m: Market, l: RiskLimits, bars: seq<Bar>, now: int, a: AccountState, risk: RiskState, missedDay: Option<int>,
      markSquareOff: bool)
    requires bars != []
    ensures
      var plan := ForceClose(m, l, bars, now, a, risk, missedDay, markSquareOff);
      plan.risk.entriesToday == RolledOver(risk, plan.risk)
  {
    hide PlaceEvent;
  }

  lemma JudgeCounts(p: Poll, s: Scanned, risk: RiskState, lastPrice: real)
    ensures Judge(p, s, risk, lastPrice).Finished? ==> Judge(p, s, risk, lastPrice).risk == risk
  {
  }

  lemma PrepareCounts(m: Market, l: RiskLimits, p: Poll, a: AccountState, risk: RiskState)
    requires AscendingRaw(p.data)
    ensures
      var plan := Prepare(m, l, p, a, risk);
      plan.Finished? ==> plan.risk.entriesToday == RolledOver(risk, plan.risk)
  {
    hide ForceClose, Judge, DropInvalid, Scan, Rows, WithinHours, SquareOffDue, AscendingRaw, AscendingRows;
    var bars := DropInvalid(p.data);
    if bars != [] {
      WindowAscending(m, p.data, p.now, a.quantity > 0);
      var s := Scan(WindowRows(m, bars, p.now, a.quantity > 0), m.barLength, p.now, a);
      ForceCounts(m, l, bars, p.now, a, risk, StaleDay(a, p.now), false);
      ForceCounts(m, l, bars, p.now, a, risk, None, true);
      JudgeCounts(p, s, risk, bars[|bars| - 1].close);
    }
  }

  /** Every step adds to the counter exactly the entries it fills, after any change of day. */
  lemma StepCounts(site: Site, s: System, x: Action)
    requires Enabled(site, s, x)
    ensures
      var s' := Do(site, s, x);
      && |s.done| <= |s'.done| && s'.done[..|s.done|] == s.done
      && s'.risk.entriesToday == RolledOver(s.risk, s'.risk) + EntriesIn(s'.done[|s.done|..])
  {
    hide Commit, Prepare, NoFuture, ShortNights, AscendingRaw, EntriesIn;
    NoEntries();
    assert s.done[|s.done|..] == [];
    match x
    case Evaluate(t, m, poll) => PrepareCounts(m, site.limits, poll, s.accounts[s.places[t].id], s.risk);
    case CommitEntry(t) => CommitAdds(site, s, s.places[t]);
    case CommitExit(t) => CommitAdds(site, s, s.places[t]);
    case _ =>
  }

  lemma CommitAdds(site: Site, s: System, p: Place)
    requires (p.Recounting? || p.Exiting?) && p.plan.Ready?
    ensures
      var s' := Filled(site, s, p.id, p.m, p.poll, p.plan, p.seen);
      && |s.done| <= |s'.done| && s'.done[..|s.done|] == s.done
      && s'.risk.entriesToday == RolledOver(s.risk, s'.risk) + EntriesIn(s'.done[|s.done|..])
  {
    hide Commit, EntriesIn;
    CommitCounts(p.m, site.limits, p.poll, p.plan, s.risk, p.seen, p.id);
    var o := Commit(p.m, site.limits, p.poll, p.plan, s.risk, p.seen).2;
    assert (s.done + DoneOf(p.id, o))[|s.done|..] == DoneOf(p.id, o);
  }

  /** How many fills a run had when the counters were last reset, or at its start. */
  ghost function CountedFrom(states: seq<System>, i: nat): nat
    requires i < |states|
  {
    if i == 0 then |states[0].done|
    else if states[i].risk.tradeDay != states[i - 1].risk.tradeDay then |states[i - 1].done|
    else CountedFrom(states, i - 1)
  }

  /** What the counter stood at then. */
  ghost function Carried(states: seq<System>, i: nat): (c: int)
    requires i < |states|
    ensures c == 0 || c == states[0].risk.entriesToday
  {
    if i == 0 then states[0].risk.entriesToday
    else if states[i].risk.tradeDay != states[i - 1].risk.tradeDay then 0
    else Carried(states, i - 1)
  }

  /** The counter is what it was carried over with, and the entries filled from then on. */
  ghost predicate Counts(s: System, from: nat, carried: int) {
    from <= |s.done| && s.risk.entriesToday == carried + EntriesIn(s.done[from..])
  }

  lemma CountsStep(s: System, s': System, from: nat, carried: int)
    requires Counts(s, from, carried) && |s.done| <= |s'.done| && s'.done[..|s.done|] == s.done
    requires s'.risk.entriesToday == RolledOver(s.risk, s'.risk) + EntriesIn(s'.done[|s.done|..])
    ensures if s'.risk.tradeDay != s.risk.tradeDay then Counts(s', |s.done|, 0) else Counts(s', from, carried)
  {
    hide EntriesIn;
    EntriesConcat(s.done[from..], s'.done[|s.done|..]);
    assert s'.done[from..] == s.done[from..] + s'.done[|s.done|..];
  }

  lemma StepOfRun(site: Site, states: seq<System>, actions: seq<Action>, i: nat)
    requires Run(site, states, actions) && i < |actions|
    ensures i + 1 < |states| && Enabled(site, states[i], actions[i])
    ensures states[i + 1] == Do(site, states[i], actions[i])
  {
    hide Enabled, Do;
  }

  /** The counter the cap is put on is the number of entries, over all indices, filled since it was last
      reset, on top of what the run started with if it never was. */
  lemma {:induction false} CounterCountsEntries(site: Site, states: seq<System>, actions: seq<Action>, i: nat)
    requires Run(site, states, actions) && i < |states|
    ensures Counts(states[i], CountedFrom(states, i), Carried(states, i))
  {
    hide Run, Do, Enabled;
    if i == 0 {
      assert states[0].done[|states[0].done|..] == [];
    } else {
      CounterCountsEntries(site, states, actions, i - 1);
      RunShape(site, states, actions);
      StepOfRun(site, states, actions, i - 1);
      StepCounts(site, states[i - 1], actions[i - 1]);
      CountsStep(states[i - 1], states[i], CountedFrom(states, i - 1), Carried(states, i - 1));
    }
  }

  lemma RunShape(site: Site, states: seq<System>, actions: seq<Action>)
    requires Run(site, states, actions)
    ensures |states| == |actions| + 1
  {
  }

  /** So since the counters were last reset no more entries were filled, over all indices, than the cap. */
  lemma EntriesAreCapped(site: Site, states: seq<System>, actions: seq<Action>, i: nat)
    requires Run(site, states, actions) && Initial(site, states[0]) && i < |states|
    requires states[0].risk.entriesToday >= 0
    ensures CountedFrom(states, i) <= |states[i].done|
    ensures
      var entries := EntriesIn(states[i].done[CountedFrom(states, i)..]);
      entries == 0 || entries <= site.limits.maxTradesPerDay
  {
    hide Run, Initial, CountedFrom, EntriesIn;
    InterleavingsAreSafe(site, states, actions, i);
    CounterCountsEntries(site, states, actions, i);
  }

  lemma ExitFacts(site: Site, s: System, t: Thread)
    requires Inv(site, s) && t in s.places && s.places[t].Exiting?
    ensures
      var p := s.places[t];
      && p.plan.Ready? && Suits(p.plan) && IsExit(p.plan.event) && p.seen > 0
      && p.id in s.accounts && p.plan.account == s.accounts[p.id]
  {
    hide Suits, FillsRise, AccountsOk, GuardHeld, IndexHeld, Shaped;
    PlanOfThread(site, s, t);
    assert ProgressOk(site, s, s.places[t]);
  }

  lemma ExitEnabled(site: Site, s: System, x: Action)
    requires Enabled(site, s, x) && x.CommitExit?
    ensures x.t in s.places && s.places[x.t].Exiting?
  {
  }

  lemma ExitServed(site: Site, s: System, t: Thread)
    requires Inv(site, s) && t in s.places && s.places[t].Exiting?
    ensures
      var p := s.places[t];
      && p.plan.Ready? && p.seen > 0 && p.id in s.accounts && Open(s.accounts[p.id])
      && Commit(p.m, site.limits, p.poll, p.plan, s.risk, p.seen).2 != RiskBlocked(p.plan.event, NothingToExit)
  {
    hide Commit, Inv;
    ExitFacts(site, s, t);
    var p := s.places[t];
    SuitsSort(p.plan);
    FilledLaws(p.m, site.limits, p.poll, p.plan, s.risk, p.seen);
  }

  /** An exit is never refused for want of an open position, although the count it is checked
      against was read, one account at a time, before the cycle decided anything. */
  lemma ExitSeesItsPosition(site: Site, states: seq<System>, actions: seq<Action>, i: nat)
    requires Run(site, states, actions) && Initial(site, states[0])
    requires i < |actions| && actions[i].CommitExit?
    ensures
      var s, p := states[i], states[i].places[actions[i].t];
      && p.seen > 0 && Open(s.accounts[p.id])
      && Commit(p.m, site.limits, p.poll, p.plan, s.risk, p.seen).2
           != RiskBlocked(p.plan.event, NothingToExit)
  {
    hide Commit, Inv, Run, Initial, Do, Enabled, Suits, Open;
    RunsKeepInv(site, states, actions);
    StepOfRun(site, states, actions, i);
    ExitEnabled(site, states[i], actions[i]);
    ExitServed(site, states[i], actions[i].t);
  }

  // ---------------------------------------------------------------- no deadlock

  /** t is waiting for a lock that u has. */
  ghost predicate WaitsFor(s: System, t: Thread, u: Thread) {
    && t in s.places && u in s.places
    && ((s.places[t].Waiting? && s.places[t].id in s.locks && s.locks[s.places[t].id] == Some(u))
        || (s.places[t].WantsGuard? && s.guard == Some(u)))
  }

  /** How many kinds of lock a cycle may still have to wait for. */
  function Rank(p: Place): nat { if OwnsGuard(p) then 0 else if OwnsIndex(p) then 1 else 2 }

  lemma WaitingLowersRank(site: Site, s: System, t: Thread, u: Thread)
    requires Inv(site, s) && WaitsFor(s, t, u)
    ensures Rank(s.places[u]) < Rank(s.places[t])
  {
  }

  /** No chain of waiting threads ever closes into a cycle. */
  lemma {:induction false} NoWaitCycle(site: Site, s: System, chain: seq<Thread>)
    requires Inv(site, s) && |chain| >= 2
    requires forall i :: 0 <= i < |chain| - 1 ==> WaitsFor(s, chain[i], chain[i + 1])
    ensures chain[0] in s.places && chain[|chain| - 1] in s.places
    ensures Rank(s.places[chain[|chain| - 1]]) < Rank(s.places[chain[0]])
    ensures chain[0] != chain[|chain| - 1]
  {
    hide Inv;
    var n := |chain| - 1;
    assert WaitsFor(s, chain[n - 1], chain[n]);
    WaitingLowersRank(site, s, chain[n - 1], chain[n]);
    if n > 1 {
      NoWaitCycle(site, s, chain[..n]);
    }
  }

  /** The scheduler's own timeframe. */
  const SCHEDULED := Market("nifty-50", DEFAULTS, 300)

  /** A cycle that has its index's lock and is not waiting for the guard can take its next step. */
  lemma OwnStepEnabled(site: Site, s: System, t: Thread) returns (x: Action)
    requires Inv(site, s) && t in s.places && OwnsIndex(s.places[t]) && !s.places[t].WantsGuard?
    ensures Enabled(site, s, x) && !x.Start? && !x.Meddle? && !x.TimeOut? && !x.Raise?
  {
    hide FillsRise, AccountsOk, GuardHeld, PlansOk;
    var p := s.places[t];
    assert ProgressOk(site, s, p);
    match p
    case Counting(id, k, seen) =>
      var empty := Poll([], ClockOf(s, id), 0, NoResolver, None, None);
      x := if k < |site.order| then ReadOne(t) else Evaluate(t, SCHEDULED, empty);
    case Recounting(_, _, _, _, k, _) => x := if k < |site.order| then ReadOne(t) else CommitEntry(t);
    case GuardDone(_) => x := ReleaseGuard(t);
    case Exiting(_, _, _, _, _) => x := CommitExit(t);
    case Finishing(_) => x := Release(t);
  }

  /** As long as any cycle is under way, some cycle can take a step. */
  lemma SomeCycleProceeds(site: Site, s: System, t: Thread) returns (x: Action)
    requires Inv(site, s) && t in s.places && !s.places[t].Idle?
    ensures Enabled(site, s, x) && !x.Start? && !x.Meddle? && !x.TimeOut? && !x.Raise?
  {
    hide FillsRise, AccountsOk, ProgressOk;
    var p := s.places[t];
    var owner := t;
    if p.Waiting? {
      if s.locks[p.id].None? {
        return Acquire(t);
      }
      owner := s.locks[p.id].value;
    }
    if s.places[owner].WantsGuard? {
      if s.guard.None? {
        return TakeGuard(owner);
      }
      owner := s.guard.value;
    }
    x := OwnStepEnabled(site, s, owner);
  }
}
