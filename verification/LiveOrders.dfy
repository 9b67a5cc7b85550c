/** The live-order path: a signal's lifecycle states, the in-memory signal service, and one
    order attempt driven through them with an arbitrary broker. */
module LiveOrders {
  import opened Common
  import opened Risk

  datatype State =
    | FLAT | SIGNAL_RECEIVED | SIGNAL_VALIDATED | RISK_CHECK | OPTION_SELECTED | ORDER_PENDING | PARTIALLY_FILLED
    | FILLED | POSITION_OPEN | EXIT_PENDING | CLOSED | SIGNAL_REJECTED | RISK_REJECTED | OPTION_SELECTION_FAILED
    | ORDER_REJECTED | ORDER_FAILED | RECONCILIATION_REQUIRED | SYSTEM_HALT

  /** The states a reconciliation mismatch or a system halt may interrupt. */
  predicate Interruptible(s: State) {
    s in {SIGNAL_RECEIVED, SIGNAL_VALIDATED, RISK_CHECK, OPTION_SELECTED, ORDER_PENDING, PARTIALLY_FILLED,
          FILLED, POSITION_OPEN, EXIT_PENDING}
  }

  function HappyAndFailing(s: State): set<State> {
    match s
    case FLAT => {SIGNAL_RECEIVED}
    case SIGNAL_RECEIVED => {SIGNAL_VALIDATED, SIGNAL_REJECTED}
    case SIGNAL_VALIDATED => {RISK_CHECK, SIGNAL_REJECTED}
    case RISK_CHECK => {OPTION_SELECTED, RISK_REJECTED, OPTION_SELECTION_FAILED}
    case OPTION_SELECTED => {ORDER_PENDING, ORDER_REJECTED}
    case ORDER_PENDING => {PARTIALLY_FILLED, FILLED, ORDER_REJECTED, ORDER_FAILED}
    case PARTIALLY_FILLED => {FILLED, PARTIALLY_FILLED, ORDER_FAILED}
    case FILLED => {POSITION_OPEN}
    case POSITION_OPEN => {EXIT_PENDING}
    case EXIT_PENDING => {CLOSED, ORDER_FAILED}
    case _ => {}
  }

  function Allowed(s: State): set<State> {
    HappyAndFailing(s) + (if Interruptible(s) then {RECONCILIATION_REQUIRED, SYSTEM_HALT} else {})
  }

  /** None is the program's InvalidStateTransition. */
  function Transition(current: State, target: State): Option<State> {
    if target in Allowed(current) then Some(target) else None
  }

  /** How far along the lifecycle a state is. */
  function Stage(s: State): nat {
    match s
    case FLAT => 0
    case SIGNAL_RECEIVED => 1
    case SIGNAL_VALIDATED => 2
    case RISK_CHECK => 3
    case OPTION_SELECTED => 4
    case ORDER_PENDING => 5
    case PARTIALLY_FILLED => 6
    case FILLED => 7
    case POSITION_OPEN => 8
    case EXIT_PENDING => 9
    case _ => 10
  }

  ghost predicate LegalPath(path: seq<State>) {
    forall i :: 0 <= i < |path| - 1 ==> Transition(path[i], path[i + 1]).Some?
  }

  /** A lifecycle never goes back: along any legal path the stage only rises, so a state is never
      visited twice, except that further partial fills may follow a partial fill. */
  lemma {:induction false} LifecycleNeverReverses(path: seq<State>, i: nat, j: nat)
    requires LegalPath(path) && i < j < |path|
    ensures Stage(path[i]) < Stage(path[j]) || (path[i] == path[j] == PARTIALLY_FILLED)
    decreases j
  {
    if j > i + 1 {
      LifecycleNeverReverses(path, i, j - 1);
    }
    assert Transition(path[j - 1], path[j]).Some?;
  }

  /** The steps of a life in order; a partial fill may come between the order and its fill. */
  const HAPPY := [FLAT, SIGNAL_RECEIVED, SIGNAL_VALIDATED, RISK_CHECK, OPTION_SELECTED, ORDER_PENDING, FILLED,
                  POSITION_OPEN, EXIT_PENDING, CLOSED]

  /** Which step a state is, of those in order; a partial fill stands where the order does. */
  function StepOf(s: State): Option<nat> {
    match s
    case FLAT => Some(0)
    case SIGNAL_RECEIVED => Some(1)
    case SIGNAL_VALIDATED => Some(2)
    case RISK_CHECK => Some(3)
    case OPTION_SELECTED => Some(4)
    case ORDER_PENDING => Some(5)
    case PARTIALLY_FILLED => Some(5)
    case FILLED => Some(6)
    case POSITION_OPEN => Some(7)
    case EXIT_PENDING => Some(8)
    case CLOSED => Some(9)
    case _ => None
  }

  /** No step is ever skipped: a path that starts flat and has reached a step has been in every one before it. */
  lemma {:induction false} NeverSkips(path: seq<State>, i: nat, k: nat)
    requires LegalPath(path) && |path| > 0 && path[0] == FLAT && i < |path|
    requires StepOf(path[i]).Some? && k <= StepOf(path[i]).value
    ensures exists j :: 0 <= j <= i && path[j] == HAPPY[k]
    decreases i
  {
    if path[i] == HAPPY[k] {
    } else if i > 0 {
      assert Transition(path[i - 1], path[i]).Some?;
      NeverSkips(path, i - 1, k);
    }
  }

  /** A life ends exactly when it is closed, rejected or failed, or handed over to reconciliation or a halt; an
      interruption may come at every step from the signal's arrival to its exit. */
  lemma EndsIff(s: State)
    ensures (forall t :: Transition(s, t).None?) <==>
      s in {CLOSED, SIGNAL_REJECTED, RISK_REJECTED, OPTION_SELECTION_FAILED, ORDER_REJECTED, ORDER_FAILED,
            RECONCILIATION_REQUIRED, SYSTEM_HALT}
    ensures Transition(s, SYSTEM_HALT).Some? <==> Transition(s, RECONCILIATION_REQUIRED).Some?
    ensures Transition(s, SYSTEM_HALT).Some? <==> StepOf(s).Some? && 1 <= StepOf(s).value <= 8
  {
    if s !in {CLOSED, SIGNAL_REJECTED, RISK_REJECTED, OPTION_SELECTION_FAILED, ORDER_REJECTED, ORDER_FAILED,
              RECONCILIATION_REQUIRED, SYSTEM_HALT} {
      assert Transition(s, if s == FLAT then SIGNAL_RECEIVED else SYSTEM_HALT).Some?;
    }
  }

  /** Where a life may fail, and to what: a signal until it is checked, the check for risk or for want of a
      contract, a chosen or pending order by rejection, and a pending, partly filled or exiting one by failure. */
  lemma FailsFrom(s: State)
    ensures Transition(s, SIGNAL_REJECTED).Some? <==> s == SIGNAL_RECEIVED || s == SIGNAL_VALIDATED
    ensures Transition(s, RISK_REJECTED).Some? <==> s == RISK_CHECK
    ensures Transition(s, OPTION_SELECTION_FAILED).Some? <==> s == RISK_CHECK
    ensures Transition(s, ORDER_REJECTED).Some? <==> s == OPTION_SELECTED || s == ORDER_PENDING
    ensures Transition(s, ORDER_FAILED).Some? <==> s == ORDER_PENDING || s == PARTIALLY_FILLED || s == EXIT_PENDING
  {
  }

  // ---------------------------------------------------------------- signals

  datatype Right = CE | PE

  /** The deterministic id: same source, underlying, direction and candle minute. */
  datatype SignalId = SignalId(symbol: string, side: Side, minute: int)

  datatype Signal = Signal(
    symbol: string, side: Side, candleTime: int, price: real, strike: Option<int>, right: Option<Right>)

  const SIGNAL_EXPIRY_SECONDS := 120

  function IdOf(s: Signal): SignalId { SignalId(s.symbol, s.side, s.candleTime / 60) }

  predicate WellFormedSignal(s: Signal) {
    s.symbol != "" && s.price > 0.0 && s.strike.Some? && s.strike.value > 0 && s.right.Some?
  }

  /** The states in which an order exists or may still fill. */
  predicate InFlight(s: State) { s in {ORDER_PENDING, PARTIALLY_FILLED, FILLED, POSITION_OPEN, EXIT_PENDING} }

  type Records = map<SignalId, State>

  datatype IngestOutcome = Accepted | DuplicateSignal | SignalExpired | SignalRejected

  /** Duplicate check, then expiry, then field validation; a duplicate leaves the record alone. */
  function Ingest(records: Records, s: Signal, now: int): (Records, IngestOutcome) {
    if IdOf(s) in records then (records, DuplicateSignal)
    else if now > s.candleTime + SIGNAL_EXPIRY_SECONDS then (records[IdOf(s) := SIGNAL_REJECTED], SignalExpired)
    else if !WellFormedSignal(s) then (records[IdOf(s) := SIGNAL_REJECTED], SignalRejected)
    else (records[IdOf(s) := SIGNAL_VALIDATED], Accepted)
  }

  ghost predicate Conflicts(records: Records, symbol: string, side: Side) {
    exists id :: id in records && id.symbol == symbol && id.side == side && InFlight(records[id])
  }

  /** What ingesting does: a signal is accepted if and only if none with its underlying, direction and candle
      minute was recorded, it is at most two minutes old, and all its fields are there; one already recorded
      changes nothing, any other is recorded as validated or rejected, and no other record changes. */
  lemma IngestLaws(records: Records, s: Signal, now: int)
    ensures
      var id := SignalId(s.symbol, s.side, s.candleTime / 60);
      var (next, outcome) := Ingest(records, s, now);
      var complete := s.symbol != "" && s.price > 0.0 && s.strike.Some? && s.strike.value > 0 && s.right.Some?;
      && (outcome.DuplicateSignal? <==> id in records)
      && (outcome.SignalExpired? <==> id !in records && now - s.candleTime > 120)
      && (outcome.Accepted? <==> id !in records && now - s.candleTime <= 120 && complete)
      && (id in records ==> next == records)
      && (id !in records ==> next == records[id := if outcome.Accepted? then SIGNAL_VALIDATED else SIGNAL_REJECTED])
  {
  }

  class SignalService {
    var records: Records

    constructor ()
      ensures records == map[]
    {
      records := map[];
    }

    method Submit(s: Signal, now: int) returns (outcome: IngestOutcome)
      modifies this
      ensures (records, outcome) == Ingest(old(records), s, now)
    {
      var id := IdOf(s);
      if id in records {
        return DuplicateSignal;
      }
      if now > s.candleTime + SIGNAL_EXPIRY_SECONDS {
        records := records[id := SIGNAL_REJECTED];
        return SignalExpired;
      }
      if !WellFormedSignal(s) {
        records := records[id := SIGNAL_REJECTED];
        return SignalRejected;
      }
      records := records[id := SIGNAL_VALIDATED];
      return Accepted;
    }

    /** False is a raised error: an unknown signal or an illegal transition. */
    method Advance(id: SignalId, target: State) returns (ok: bool)
      modifies this
      ensures ok <==> id in old(records) && Transition(old(records)[id], target).Some?
      ensures records == if ok then old(records)[id := target] else old(records)
    {
      if id !in records {
        return false;
      }
      var next := Transition(records[id], target);
      if next.None? {
        return false;
      }
      records := records[id := next.value];
      return true;
    }

    method CheckDuplicateOrder(symbol: string, side: Side) returns (found: bool)
      ensures found <==> Conflicts(records, symbol, side)
    {
      var todo := records.Keys;
      while todo != {}
        invariant todo <= records.Keys
        invariant forall id :: id in records && id !in todo ==>
          !(id.symbol == symbol && id.side == side && InFlight(records[id]))
        decreases |todo|
      {
        var id :| id in todo;
        if id.symbol == symbol && id.side == side && InFlight(records[id]) {
          return true;
        }
        todo := todo - {id};
      }
      return false;
    }
  }

  // ---------------------------------------------------------------- one attempt

  datatype Resolve = Resolved | NotFound | ResolveCrash

  datatype Execute = OrderId | NoOrderId | ApiError | ExecuteCrash

  datatype Verify = Success | Partial | Failed | Cancelled | Timeout | VerifyCrash

  /** One call, with everything outside the process an arbitrary input: the reconciliation gate, the
      open positions on record, the operator and the broker, crashes included. */
  datatype Attempt = Attempt(
    signal: Signal, gateBlocks: bool, lotSize: int, openPositions: int, resolve: Resolve, liquid: bool,
    confirmed: bool, execute: Execute, verify: Verify)

  /** The live risk check: a plain buy of one lot, at the candle's time. */
  function RiskQuestion(a: Attempt): Question {
    Question(Buy, a.lotSize, a.openPositions, a.signal.candleTime, None, None, false, false)
  }

  predicate RiskAllows(l: RiskLimits, risk: RiskState, a: Attempt) {
    Decide(l, NewDay(risk, a.signal.candleTime), RiskQuestion(a)).allowed
  }

  /** Every gate lets the attempt through to the broker. */
  predicate ReachesBroker(l: RiskLimits, risk: RiskState, a: Attempt) {
    !a.gateBlocks && RiskAllows(l, risk, a) && a.resolve.Resolved? && a.liquid && a.confirmed
  }

  /** The state an accepted attempt leaves its signal in; `conflict` is an in-flight order for the
      same underlying and direction. A crash leaves it where it was. */
  function FinalState(a: Attempt, conflict: bool, allowed: bool): State {
    if a.gateBlocks || conflict || !allowed then RISK_REJECTED
    else if a.resolve.NotFound? then OPTION_SELECTION_FAILED
    else if a.resolve.ResolveCrash? then RISK_CHECK
    else if !a.liquid || !a.confirmed then ORDER_REJECTED
    else match a.execute
      case ApiError => ORDER_FAILED
      case NoOrderId => ORDER_FAILED
      case ExecuteCrash => ORDER_PENDING
      case OrderId => VerifiedState(a.verify)
  }

  function VerifiedState(v: Verify): State {
    match v
    case Success => POSITION_OPEN
    case Partial => PARTIALLY_FILLED
    case Failed => ORDER_FAILED
    case Cancelled => ORDER_REJECTED
    case Timeout => RECONCILIATION_REQUIRED
    case VerifyCrash => ORDER_PENDING
  }

  /** An accepted attempt that is let through this far ends in an uncaught exception: nothing handles it
      and the process ends. */
  predicate Crashes(a: Attempt, conflict: bool, allowed: bool) {
    && !a.gateBlocks && !conflict && allowed
    && (a.resolve.ResolveCrash? ||
        (a.resolve.Resolved? && a.liquid && a.confirmed &&
         (a.execute.ExecuteCrash? || (a.execute.OrderId? && a.verify.VerifyCrash?))))
  }

  predicate Filled(v: Verify) { v.Success? || v.Partial? }

  /** A verified order on record. */
  datatype OrderRow = OrderRow(id: SignalId, outcome: Verify)

  /** The signal records, the risk state, and what has left the process: the ids sent to the broker and
      the order rows, in order. */
  datatype Desk = Desk(records: Records, risk: RiskState, sent: seq<SignalId>, orders: seq<OrderRow>)

  /** What a process starts with: trading enabled, nothing remembered. */
  const STARTED := FRESH_RISK.(autoTrading := true)

  ghost predicate Accepts(d: Desk, a: Attempt) {
    Ingest(d.records, a.signal, a.signal.candleTime).1.Accepted?
  }

  ghost predicate ConflictFor(d: Desk, a: Attempt) {
    Conflicts(Ingest(d.records, a.signal, a.signal.candleTime).0, a.signal.symbol, a.signal.side)
  }

  ghost predicate Sends(l: RiskLimits, d: Desk, a: Attempt) {
    Accepts(d, a) && !ConflictFor(d, a) && ReachesBroker(l, d.risk, a)
  }

  ghost predicate CrashesOn(l: RiskLimits, d: Desk, a: Attempt) {
    Accepts(d, a) && Crashes(a, ConflictFor(d, a), RiskAllows(l, d.risk, a))
  }

  /** The risk state after an attempt: the check rolls the day over, a fill is recorded. */
  ghost function RiskAfter(l: RiskLimits, d: Desk, a: Attempt): RiskState {
    if !Accepts(d, a) || a.gateBlocks || ConflictFor(d, a) then d.risk
    else
      var checked := NewDay(d.risk, a.signal.candleTime);
      if Sends(l, d, a) && a.execute.OrderId? && Filled(a.verify)
      then RecordTrade(l, checked, 0.0, a.signal.candleTime, false) else checked
  }

  /** One attempt, before anything is lost. */
  ghost function AttemptOn(l: RiskLimits, d: Desk, a: Attempt): Desk {
    var (records, outcome) := Ingest(d.records, a.signal, a.signal.candleTime);
    var id := IdOf(a.signal);
    Desk(if outcome.Accepted? then records[id := FinalState(a, ConflictFor(d, a), RiskAllows(l, d.risk, a))]
         else records,
         RiskAfter(l, d, a),
         if Sends(l, d, a) then d.sent + [id] else d.sent,
         if Sends(l, d, a) && a.execute.OrderId? && !a.verify.VerifyCrash?
         then d.orders + [OrderRow(id, a.verify)] else d.orders)
  }

  /** A process that ends takes its memory with it; only with a database do the records and the risk state
      survive. What was sent and recorded outside stays. */
  function Restarted(d: Desk): Desk { Desk(map[], STARTED, d.sent, d.orders) }

  ghost function Next(l: RiskLimits, d: Desk, a: Attempt, durable: bool): Desk {
    if CrashesOn(l, d, a) && !durable then Restarted(AttemptOn(l, d, a)) else AttemptOn(l, d, a)
  }

  datatype Ending = Returned | Crashed | IllegalTransition

  class LiveDesk {
    const service: SignalService
    const risk: RiskManager
    var sent: seq<SignalId>
    var orders: seq<OrderRow>

    ghost function View(): Desk
      reads this, service, risk
    {
      Desk(service.records, risk.state, sent, orders)
    }

    constructor (service: SignalService, risk: RiskManager)
      ensures this.service == service && this.risk == risk && sent == [] && orders == []
    {
      this.service, this.risk := service, risk;
      sent, orders := [], [];
    }

    static lemma TransitionsTaken()
      ensures Transition(SIGNAL_VALIDATED, RISK_CHECK).Some? && Transition(RISK_CHECK, RISK_REJECTED).Some?
    {
    }

    /** The program's attempt. It never raises an illegal transition. */
    method PlaceLiveOrder(a: Attempt) returns (r: Ending)
      modifies this, service, risk`state
      ensures !r.IllegalTransition?
      ensures r.Crashed? <==> CrashesOn(risk.limits, old(View()), a)
      ensures View() == AttemptOn(risk.limits, old(View()), a)
    {
      hide Decide, RecordTrade, NewDay, EntryGatesOpen, ExitGatesOpen, HappyAndFailing, WellFormedSignal;
      TransitionsTaken();
      var id := IdOf(a.signal);
      ghost var d := View();
      var outcome := service.Submit(a.signal, a.signal.candleTime);
      if !outcome.Accepted? {
        return Returned;
      }
      var ok := service.Advance(id, RISK_CHECK);
      if !ok {
        return IllegalTransition;
      }
      if a.gateBlocks {
        ok := service.Advance(id, RISK_REJECTED);
        return if ok then Returned else IllegalTransition;
      }
      var conflict := service.CheckDuplicateOrder(a.signal.symbol, a.signal.side);
      assert conflict == ConflictFor(d, a) by {
        ConflictIgnores(d.records, id, SIGNAL_VALIDATED, RISK_CHECK, a.signal.symbol, a.signal.side);
      }
      if conflict {
        ok := service.Advance(id, RISK_REJECTED);
        return if ok then Returned else IllegalTransition;
      }
      var decision := risk.Check(RiskQuestion(a));
      if !decision.allowed {
        ok := service.Advance(id, RISK_REJECTED);
        return if ok then Returned else IllegalTransition;
      }
      r := Execute(a, id);
    }

    /** From the risk check on: contract, operator, broker, verification. */
    method Execute(a: Attempt, id: SignalId) returns (r: Ending)
      requires id in service.records && service.records[id] == RISK_CHECK && !a.gateBlocks
      modifies this, service, risk`state
      ensures !r.IllegalTransition? && (r.Crashed? <==> Crashes(a, false, true))
      ensures service.records == old(service.records)[id := FinalState(a, false, true)]
      ensures
        var reaches := a.resolve.Resolved? && a.liquid && a.confirmed;
        && sent == (if reaches then old(sent) + [id] else old(sent))
        && orders == (if reaches && a.execute.OrderId? && !a.verify.VerifyCrash?
                      then old(orders) + [OrderRow(id, a.verify)] else old(orders))
        && risk.state == (if reaches && a.execute.OrderId? && Filled(a.verify)
                          then RecordTrade(risk.limits, old(risk.state), 0.0, a.signal.candleTime, false)
                          else old(risk.state))
    {
      hide RecordTrade;
      if a.resolve.NotFound? {
        var ok := service.Advance(id, OPTION_SELECTION_FAILED);
        return if ok then Returned else IllegalTransition;
      }
      if a.resolve.ResolveCrash? {
        return Crashed;
      }
      var ok := service.Advance(id, OPTION_SELECTED);
      if !ok {
        return IllegalTransition;
      }
      if !a.liquid || !a.confirmed {
        ok := service.Advance(id, ORDER_REJECTED);
        return if ok then Returned else IllegalTransition;
      }
      ok := service.Advance(id, ORDER_PENDING);
      if !ok {
        return IllegalTransition;
      }
      sent := sent + [id];
      match a.execute {
        case ExecuteCrash => return Crashed;
        case ApiError =>
          ok := service.Advance(id, ORDER_FAILED);
          return if ok then Returned else IllegalTransition;
        case NoOrderId =>
          ok := service.Advance(id, ORDER_FAILED);
          return if ok then Returned else IllegalTransition;
        case OrderId =>
          if a.verify.VerifyCrash? {
            return Crashed;
          }
          r := Settle(a.verify, id, a.signal.candleTime);
      }
    }

    /** A verified order: its row first, then the signal's state, then the trade counter. */
    method Settle(v: Verify, id: SignalId, now: int) returns (r: Ending)
      requires id in service.records && service.records[id] == ORDER_PENDING && !v.VerifyCrash?
      modifies this`orders, service, risk`state
      ensures r == Returned && orders == old(orders) + [OrderRow(id, v)]
      ensures service.records == old(service.records)[id := VerifiedState(v)]
      ensures risk.state ==
        if Filled(v) then RecordTrade(risk.limits, old(risk.state), 0.0, now, false) else old(risk.state)
    {
      hide RecordTrade;
      orders := orders + [OrderRow(id, v)];
      var ok := true;
      match v {
        case Partial => ok := service.Advance(id, PARTIALLY_FILLED);
        case Success =>
          ok := service.Advance(id, FILLED);
          if ok {
            ok := service.Advance(id, POSITION_OPEN);
          }
        case Failed => ok := service.Advance(id, ORDER_FAILED);
        case Cancelled => ok := service.Advance(id, ORDER_REJECTED);
        case Timeout => ok := service.Advance(id, RECONCILIATION_REQUIRED);
        case VerifyCrash =>
      }
      if !ok {
        return IllegalTransition;
      }
      if Filled(v) {
        risk.Record(0.0, now, false);
      }
      return Returned;
    }
  }

  lemma ConflictIgnores(records: Records, id: SignalId, s: State, t: State, symbol: string, side: Side)
    requires !InFlight(s) && !InFlight(t)
    ensures Conflicts(records[id := s], symbol, side) <==> Conflicts(records[id := t], symbol, side)
  {
    var a, b := records[id := s], records[id := t];
    if Conflicts(a, symbol, side) {
      var x :| x in a && x.symbol == symbol && x.side == side && InFlight(a[x]);
      assert x in b && InFlight(b[x]);
    }
    if Conflicts(b, symbol, side) {
      var x :| x in b && x.symbol == symbol && x.side == side && InFlight(b[x]);
      assert x in a && InFlight(a[x]);
    }
  }

  // ---------------------------------------------------------------- any sequence of attempts

  /** The desk after a sequence of attempts, a new process taking over after every crash. */
  ghost function After(l: RiskLimits, attempts: seq<Attempt>, durable: bool): Desk {
    if |attempts| == 0 then Desk(map[], STARTED, [], [])
    else Next(l, After(l, attempts[..|attempts| - 1], durable), attempts[|attempts| - 1], durable)
  }

  /** At most one signal per underlying and direction has an order that exists or may fill. */
  ghost predicate OneInFlight(records: Records) {
    forall a, b :: (a in records && b in records && InFlight(records[a]) && InFlight(records[b])
                    && a.symbol == b.symbol && a.side == b.side) ==> a == b
  }

  ghost predicate SentOnce(d: Desk) {
    (forall i :: 0 <= i < |d.sent| ==> d.sent[i] in d.records) &&
    (forall i, j :: 0 <= i < j < |d.sent| ==> d.sent[i] != d.sent[j])
  }

  lemma OneInFlightKept(l: RiskLimits, d: Desk, a: Attempt)
    requires OneInFlight(d.records)
    ensures OneInFlight(AttemptOn(l, d, a).records)
  {
    hide RiskAllows, Decide, RiskAfter;
    var id := IdOf(a.signal);
    var records := Ingest(d.records, a.signal, a.signal.candleTime).0;
    var next := AttemptOn(l, d, a).records;
    forall x, y |
      && x in next && y in next && InFlight(next[x]) && InFlight(next[y])
      && x.symbol == y.symbol && x.side == y.side
      ensures x == y
    {
      if x != id {
        assert x in records && InFlight(records[x]);
      } else if y != id {
        assert y in records && InFlight(records[y]);
      }
    }
  }

  lemma SentOnceKept(l: RiskLimits, d: Desk, a: Attempt)
    requires SentOnce(d)
    ensures SentOnce(AttemptOn(l, d, a))
  {
    hide RiskAllows, Decide, RiskAfter, FinalState, ConflictFor;
  }

  lemma EmptySafe()
    ensures OneInFlight(map[])
  {
  }

  /** Whatever survives a crash, no underlying and direction ever has two orders in flight on record. */
  lemma {:induction false} NeverTwoInFlight(l: RiskLimits, attempts: seq<Attempt>, durable: bool)
    ensures OneInFlight(After(l, attempts, durable).records)
  {
    hide AttemptOn, OneInFlight, CrashesOn;
    EmptySafe();
    if |attempts| > 0 {
      NeverTwoInFlight(l, attempts[..|attempts| - 1], durable);
      OneInFlightKept(l, After(l, attempts[..|attempts| - 1], durable), attempts[|attempts| - 1]);
    }
  }

  /** With the records kept across crashes, over any sequence of attempts and any broker behaviour: no
      signal is sent to the broker twice. */
  lemma {:induction false} DurableSendsOnce(l: RiskLimits, attempts: seq<Attempt>)
    ensures SentOnce(After(l, attempts, true))
  {
    hide AttemptOn, CrashesOn;
    if |attempts| > 0 {
      DurableSendsOnce(l, attempts[..|attempts| - 1]);
      SentOnceKept(l, After(l, attempts[..|attempts| - 1], true), attempts[|attempts| - 1]);
    }
  }

  /** An attempt reaches the broker exactly when its signal is new and well formed, nothing is in
      flight for its underlying and direction, and every gate lets it through. */
  lemma SentIff(l: RiskLimits, d: Desk, a: Attempt)
    ensures
      var id := IdOf(a.signal);
      AttemptOn(l, d, a).sent == d.sent + [id] <==>
        && id !in d.records && WellFormedSignal(a.signal)
        && !Conflicts(d.records, a.signal.symbol, a.signal.side) && ReachesBroker(l, d.risk, a)
  {
    hide Decide, RiskAfter, FinalState, RiskAllows;
    var id := IdOf(a.signal);
    assert |d.sent + [id]| == |d.sent| + 1;
    if id !in d.records {
      NewRecordConflict(d.records, id, a.signal.symbol, a.signal.side);
    }
  }

  /** What stands between a signal and the broker, field by field: trading is on and neither switched off nor
      halted, the candle lies within trading hours and not past the entry cutoff, the cooldown is over, the
      day's trades and loss are within their limits, the lot is not too large, and no more positions are open
      than allowed; then there is a liquid contract and the operator agrees. */
  ghost predicate NothingInTheWay(l: RiskLimits, risk: RiskState, a: Attempt) {
    var at, clock := a.signal.candleTime, TimeOfDay(a.signal.candleTime);
    var sameDay := risk.tradeDay == Some(Day(at));
    && !a.gateBlocks
    && risk.autoTrading && !risk.killSwitch && !risk.halted
    && l.tradingStart <= clock && clock <= l.tradingEnd && clock <= l.entryCutoff
    && (risk.lastExitAt.Some? ==> risk.lastExitAt.value + l.cooldown <= at)
    && (if sameDay then risk.tradesToday else 0) < l.maxTradesPerDay
    && (if sameDay then risk.pnlToday else 0.0) > -Abs(l.dailyLossLimit)
    && 0 < a.lotSize && a.lotSize <= l.maxQuantity
    && a.openPositions < l.maxOpenPositions
    && a.resolve == Resolved && a.liquid && a.confirmed
  }

  lemma ReachesIff(l: RiskLimits, risk: RiskState, a: Attempt)
    ensures ReachesBroker(l, risk, a) <==> NothingInTheWay(l, risk, a)
  {
    hide Decide;
    EntryAllowedIff(l, NewDay(risk, a.signal.candleTime), RiskQuestion(a));
  }

  /** The same with every gate spelled out: an order is sent if and only if its signal has not been seen, names
      an underlying, a price, a strike and a right, no order of its underlying and direction may still fill or
      has, and nothing else is in the way. */
  lemma SentExactlyWhen(l: RiskLimits, d: Desk, a: Attempt)
    ensures
      var s, id := a.signal, SignalId(a.signal.symbol, a.signal.side, a.signal.candleTime / 60);
      AttemptOn(l, d, a).sent == d.sent + [id] <==>
        && id !in d.records
        && s.symbol != "" && s.price > 0.0 && s.strike.Some? && s.strike.value > 0 && s.right.Some?
        && (forall r :: r in d.records && r.symbol == s.symbol && r.side == s.side ==>
              d.records[r] !in {ORDER_PENDING, PARTIALLY_FILLED, FILLED, POSITION_OPEN, EXIT_PENDING})
        && NothingInTheWay(l, d.risk, a)
  {
    hide AttemptOn, ReachesBroker, NothingInTheWay;
    SentIff(l, d, a);
    ReachesIff(l, d.risk, a);
  }

  /** What an accepted attempt leaves on record, state by state. */
  lemma RecordLeft(l: RiskLimits, d: Desk, a: Attempt)
    requires Accepts(d, a)
    ensures IdOf(a.signal) in AttemptOn(l, d, a).records
    ensures
      var left, sent := AttemptOn(l, d, a).records[IdOf(a.signal)], Sends(l, d, a);
      var cleared := !a.gateBlocks && !ConflictFor(d, a) && RiskAllows(l, d.risk, a);
      && (left == RISK_REJECTED <==> !cleared)
      && (left == RISK_CHECK <==> cleared && a.resolve.ResolveCrash?)
      && (left == OPTION_SELECTION_FAILED <==> cleared && a.resolve.NotFound?)
      && (left == ORDER_REJECTED <==>
            || (cleared && a.resolve.Resolved? && !(a.liquid && a.confirmed))
            || (sent && a.execute.OrderId? && a.verify.Cancelled?))
      && (left == ORDER_FAILED <==>
            sent && (a.execute.ApiError? || a.execute.NoOrderId? || (a.execute.OrderId? && a.verify.Failed?)))
      && (left == ORDER_PENDING <==> sent && (a.execute.ExecuteCrash? || (a.execute.OrderId? && a.verify.VerifyCrash?)))
      && (left == PARTIALLY_FILLED <==> sent && a.execute.OrderId? && a.verify.Partial?)
      && (left == POSITION_OPEN <==> sent && a.execute.OrderId? && a.verify.Success?)
      && (left == RECONCILIATION_REQUIRED <==> sent && a.execute.OrderId? && a.verify.Timeout?)
  {
    hide RiskAllows, RiskAfter;
  }

  /** An order row is written exactly for an order the broker gave an id for and whose verification came back, full
      fill or not, with the outcome verified; and nothing else touches the rows. */
  lemma RowLeft(l: RiskLimits, d: Desk, a: Attempt)
    ensures
      var after, id := AttemptOn(l, d, a).orders, IdOf(a.signal);
      var verified := Sends(l, d, a) && a.execute == OrderId && a.verify != VerifyCrash;
      && (after == d.orders + [OrderRow(id, a.verify)] <==> verified)
      && (after == d.orders <==> !verified)
  {
    hide Sends, RiskAfter, FinalState;
    assert |d.orders + [OrderRow(IdOf(a.signal), a.verify)]| == |d.orders| + 1;
  }

  /** What an attempt books: nothing before the risk check, the question once it is asked, and one trade
      without P&L for an order that filled or filled partly. */
  ghost function LiveSteps(l: RiskLimits, d: Desk, a: Attempt): seq<Step> {
    var at := a.signal.candleTime;
    if !Accepts(d, a) || a.gateBlocks || ConflictFor(d, a) then []
    else if Sends(l, d, a) && a.execute.OrderId? && (a.verify.Success? || a.verify.Partial?)
    then [Asked(at), Trade(0.0, at, false)] else [Asked(at)]
  }

  lemma AttemptBooks(l: RiskLimits, d: Desk, a: Attempt)
    ensures AttemptOn(l, d, a).risk == ApplyAll(l, d.risk, LiveSteps(l, d, a))
  {
    hide Sends, Accepts, ConflictFor, Decide, RecordTrade, ApplyAll;
    var at := a.signal.candleTime;
    NoSteps(l, d.risk);
    OneStep(l, d.risk, Asked(at));
    TwoSteps(l, d.risk, Asked(at), Trade(0.0, at, false));
  }

  ghost function LiveHistory(l: RiskLimits, attempts: seq<Attempt>): seq<Step> {
    if |attempts| == 0 then []
    else
      var n := |attempts| - 1;
      LiveHistory(l, attempts[..n]) + LiveSteps(l, After(l, attempts[..n], true), attempts[n])
  }

  /** With the risk state kept, over any sequence of attempts it is the history's: so the day's trades are the
      filled orders since the day last changed. */
  lemma {:induction false} LiveBooks(l: RiskLimits, attempts: seq<Attempt>)
    ensures After(l, attempts, true).risk == ApplyAll(l, STARTED, LiveHistory(l, attempts))
  {
    hide AttemptOn, LiveSteps, CrashesOn;
    if |attempts| > 0 {
      var n := |attempts| - 1;
      LiveBooks(l, attempts[..n]);
      AttemptBooks(l, After(l, attempts[..n], true), attempts[n]);
      ApplyConcat(l, STARTED, LiveHistory(l, attempts[..n]), LiveSteps(l, After(l, attempts[..n], true), attempts[n]));
    }
  }

  lemma NewRecordConflict(records: Records, id: SignalId, symbol: string, side: Side)
    requires id !in records
    ensures Conflicts(records[id := SIGNAL_VALIDATED], symbol, side) <==> Conflicts(records, symbol, side)
  {
    var a := records[id := SIGNAL_VALIDATED];
    if Conflicts(records, symbol, side) {
      var x :| x in records && x.symbol == symbol && x.side == side && InFlight(records[x]);
      assert x in a && InFlight(a[x]);
    }
  }

  /** There is at most one order row for each signal sent, and none for any other. */
  lemma {:induction false} RowsAreSent(l: RiskLimits, attempts: seq<Attempt>, durable: bool)
    ensures
      var d := After(l, attempts, durable);
      |d.orders| <= |d.sent| && forall i :: 0 <= i < |d.orders| ==> d.orders[i].id in d.sent
  {
    hide RiskAllows, Decide, RiskAfter, FinalState, ConflictFor, Accepts, Ingest, CrashesOn;
    if |attempts| > 0 {
      RowsAreSent(l, attempts[..|attempts| - 1], durable);
    }
  }

  // ---------------------------------------------------------------- what blocks the next order

  /** The order was sent and filled, filled partly, or was lost to a crash. */
  predicate LeavesOrder(a: Attempt) {
    a.execute.ExecuteCrash? ||
    (a.execute.OrderId? && (a.verify.Success? || a.verify.Partial? || a.verify.VerifyCrash?))
  }

  /** Attempt i sent an order for this underlying and direction that is still held against it. */
  ghost predicate Blocking(l: RiskLimits, attempts: seq<Attempt>, i: nat, symbol: string, side: Side)
    requires i < |attempts|
  {
    var a := attempts[i];
    a.signal.symbol == symbol && a.signal.side == side && Sends(l, After(l, attempts[..i], true), a) && LeavesOrder(a)
  }

  lemma ConflictStep(l: RiskLimits, d: Desk, a: Attempt, symbol: string, side: Side)
    ensures Conflicts(AttemptOn(l, d, a).records, symbol, side) <==>
      Conflicts(d.records, symbol, side) ||
      (a.signal.symbol == symbol && a.signal.side == side && Sends(l, d, a) && LeavesOrder(a))
  {
    hide Decide, RiskAfter, RiskAllows;
    var id, next := IdOf(a.signal), AttemptOn(l, d, a);
    if Conflicts(next.records, symbol, side) {
      var x :| x in next.records && x.symbol == symbol && x.side == side && InFlight(next.records[x]);
      if x != id || id in d.records {
        assert x in d.records && InFlight(d.records[x]);
      }
    }
    if Conflicts(d.records, symbol, side) {
      var x :| x in d.records && x.symbol == symbol && x.side == side && InFlight(d.records[x]);
      assert x in next.records && InFlight(next.records[x]);
    }
    if a.signal.symbol == symbol && a.signal.side == side && Sends(l, d, a) && LeavesOrder(a) {
      assert id in next.records && InFlight(next.records[id]);
    }
  }

  /** With the records kept, what holds the next order of an underlying and direction back: exactly an
      earlier order of theirs that filled, filled partly, or was lost to a crash, for ever after. One
      that timed out does not, although its fate is unknown. */
  lemma {:induction false} BlockedIff(l: RiskLimits, attempts: seq<Attempt>, symbol: string, side: Side)
    ensures Conflicts(After(l, attempts, true).records, symbol, side) <==>
      exists i: nat :: i < |attempts| && Blocking(l, attempts, i, symbol, side)
  {
    hide AttemptOn, LeavesOrder, Conflicts, Sends, CrashesOn;
    if |attempts| == 0 {
      NoConflict(symbol, side);
    } else {
      var n := |attempts| - 1;
      var init := attempts[..n];
      BlockedIff(l, init, symbol, side);
      ConflictStep(l, After(l, init, true), attempts[n], symbol, side);
      forall i: nat | i < n
        ensures Blocking(l, init, i, symbol, side) <==> Blocking(l, attempts, i, symbol, side)
      {
        assert init[..i] == attempts[..i];
      }
      if Conflicts(After(l, init, true).records, symbol, side) {
        var i: nat :| i < n && Blocking(l, init, i, symbol, side);
        assert Blocking(l, attempts, i, symbol, side);
      } else if Conflicts(After(l, attempts, true).records, symbol, side) {
        assert Blocking(l, attempts, n, symbol, side);
      }
    }
  }

  lemma NoConflict(symbol: string, side: Side)
    ensures !Conflicts(map[], symbol, side)
  {
  }

  // ---------------------------------------------------------------- records in memory only

  /** The attempts of the current process: those since the last crash. */
  ghost function SinceCrash(l: RiskLimits, attempts: seq<Attempt>): seq<Attempt> {
    if |attempts| == 0 then []
    else
      var init, last := attempts[..|attempts| - 1], attempts[|attempts| - 1];
      if CrashesOn(l, After(l, init, false), last) then [] else SinceCrash(l, init) + [last]
  }

  /** Without a database the process knows exactly its own attempts. */
  lemma {:induction false} MemoryIsSinceCrash(l: RiskLimits, attempts: seq<Attempt>)
    ensures
      var d, own := After(l, attempts, false), After(l, SinceCrash(l, attempts), true);
      d.records == own.records && d.risk == own.risk
  {
    hide Decide, FinalState, RiskAllows, Ingest, RecordTrade, NewDay, Conflicts;
    if |attempts| > 0 {
      var n := |attempts| - 1;
      var init, last := attempts[..n], attempts[n];
      MemoryIsSinceCrash(l, init);
      var own := SinceCrash(l, init);
      assert (own + [last])[..|own|] == own;
    }
  }

  lemma {:induction false} RecordedIff(l: RiskLimits, attempts: seq<Attempt>, id: SignalId)
    ensures id in After(l, attempts, true).records
      <==> exists i :: 0 <= i < |attempts| && IdOf(attempts[i].signal) == id
  {
    hide Decide, FinalState, RiskAllows, RiskAfter, ConflictFor, Sends, CrashesOn, IdOf;
    if |attempts| > 0 {
      var n := |attempts| - 1;
      RecordedIff(l, attempts[..n], id);
      if exists i :: 0 <= i < n && IdOf(attempts[i].signal) == id {
        var i :| 0 <= i < n && IdOf(attempts[i].signal) == id;
        assert attempts[..n][i] == attempts[i];
      }
      if exists i :: 0 <= i < n && IdOf(attempts[..n][i].signal) == id {
        var i :| 0 <= i < n && IdOf(attempts[..n][i].signal) == id;
        assert attempts[..n][i] == attempts[i];
      }
    }
  }

  /** Without a database, exactly when an attempt is sent, and so when one that was sent before is sent
      again: its signal is well formed, every gate is open, and since the last crash no attempt carried the
      same signal and no order of its underlying and direction is held against it. */
  lemma SentFromMemoryIff(l: RiskLimits, attempts: seq<Attempt>, a: Attempt)
    ensures
      var d, own, id := After(l, attempts, false), SinceCrash(l, attempts), IdOf(a.signal);
      AttemptOn(l, d, a).sent == d.sent + [id] <==>
        && WellFormedSignal(a.signal) && ReachesBroker(l, d.risk, a)
        && (forall i :: 0 <= i < |own| ==> IdOf(own[i].signal) != id)
        && (forall i: nat :: i < |own| ==> !Blocking(l, own, i, a.signal.symbol, a.signal.side))
  {
    hide AttemptOn, Blocking, Conflicts, ReachesBroker, IdOf, After, SinceCrash, WellFormedSignal;
    var d, own, id := After(l, attempts, false), SinceCrash(l, attempts), IdOf(a.signal);
    MemoryIsSinceCrash(l, attempts);
    SentIff(l, d, a);
    RecordedIff(l, own, id);
    BlockedIff(l, own, a.signal.symbol, a.signal.side);
  }

  /** So a signal is sent twice only across a crash. */
  lemma {:induction false} TwiceOnlyAcrossCrash(l: RiskLimits, attempts: seq<Attempt>)
    requires forall k :: 0 <= k < |attempts| ==> !CrashesOn(l, After(l, attempts[..k], false), attempts[k])
    ensures After(l, attempts, false) == After(l, attempts, true) && SentOnce(After(l, attempts, false))
  {
    hide AttemptOn, CrashesOn, SentOnce;
    DurableSendsOnce(l, attempts);
    if |attempts| > 0 {
      var n := |attempts| - 1;
      var init := attempts[..n];
      forall k | 0 <= k < n
        ensures !CrashesOn(l, After(l, init[..k], false), init[k])
      {
        assert init[..k] == attempts[..k];
      }
      TwiceOnlyAcrossCrash(l, init);
      assert !CrashesOn(l, After(l, attempts[..n], false), attempts[n]);
    }
  }

  /** And across one it is: the same attempt made again by the next process, after the first was lost while
      its fill was being verified. */
  lemma CrashSendsTwice(l: RiskLimits, a: Attempt)
    requires WellFormedSignal(a.signal) && ReachesBroker(l, STARTED, a) && a.execute.OrderId? && a.verify.VerifyCrash?
    ensures After(l, [a, a], false).sent == [IdOf(a.signal), IdOf(a.signal)]
  {
    hide RiskAfter, Decide;
    var empty: Records := map[];
    var start := Desk(empty, STARTED, [], []);
    var id := IdOf(a.signal);
    assert [a, a][..1] == [a] && [a][..0] == [];
    assert After(l, [], false) == start;
    NewRecordConflict(empty, id, a.signal.symbol, a.signal.side);
    NoConflict(a.signal.symbol, a.signal.side);
    assert CrashesOn(l, start, a) && Sends(l, start, a);
    assert After(l, [a], false).sent == [id];
    var again := After(l, [a], false);
    assert Sends(l, again, a);
    assert [id] + [id] == [id, id];
  }

  /** The live limits: the defaults with room for every index's lot. */
  const LIVE_LIMITS := DEFAULT_LIMITS.(maxQuantity := 500)

  /** A CALL at ten in the morning that a broker takes, in a process that ends while its fill is verified. */
  const LOST := Attempt(Signal("NIFTY", Call, 36000, 24000.0, Some(24000), Some(CE)), false, 75, 0, Resolved, true,
                        true, OrderId, VerifyCrash)

  /** So under the limits the program runs with, one signal does go to the broker twice. */
  lemma OneSignalTwice()
    ensures After(LIVE_LIMITS, [LOST, LOST], false).sent == [SignalId("NIFTY", Call, 600), SignalId("NIFTY", Call, 600)]
  {
    hide After;
    ReachesIff(LIVE_LIMITS, STARTED, LOST);
    CrashSendsTwice(LIVE_LIMITS, LOST);
  }
}
