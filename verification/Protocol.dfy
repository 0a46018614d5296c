/** The strategy worker's signal-to-order protocol as a transition system: durable tables, one volatile
    work item per worker, one step per commit, and crashes that lose the volatile part
    (backend/app/strategies/service.py, worker.py, backend/app/routers/strategies.py). */
module Protocol {
  import opened Decimals
  import opened Ledger
  import opened Options
  import opened Paper
  import opened Live
  import R = Runs

  datatype StrategyStatus = Draft | Active | Paused | Archived | Erroneous
  datatype RunStatus = Started | Succeeded | NoSignal | Skipped | RunFailed
  datatype SignalStatus = Created | OrderSubmitted | Suppressed | Declined

  datatype Strategy = Strategy(
    user: string, instrument: string, name: string, mode: Mode, status: StrategyStatus, quantity: int, product: Product,
    orderType: OrderType, offsetBps: real, maxPerDay: int, version: int, fast: int, slow: int, timeframe: int)

  /** The fields a PATCH of a strategy carries. */
  datatype Edit = Edit(
    name: Option<string>, timeframe: Option<int>, fast: Option<int>, slow: Option<int>, quantity: Option<int>,
    product: Option<Product>, orderType: Option<OrderType>, offsetBps: Option<real>, maxPerDay: Option<int>)

  /** The unique constraint of the runs table; a run has at most one signal. */
  datatype RunKey = RunKey(strategy: string, candle: int)

  datatype Signal = Signal(
    user: string, side: Side, status: SignalStatus, quantity: int, client: string, order: Option<OrderKey>, at: int)

  /** An order that left: a paper order inserted, or a POST sent to the broker. */
  datatype Sent = Sent(run: RunKey, order: OrderKey)

  /** What one worker holds in memory between commits. */
  datatype Work =
    | Idle
    | Cleared(snap: Strategy, strategy: string)
    | Claimed(snap: Strategy, run: RunKey)
    | Placing(snap: Strategy, run: RunKey, signal: Signal)
    | Posting(snap: Strategy, run: RunKey, signal: Signal, order: OrderKey)
    | Awaiting(snap: Strategy, run: RunKey, signal: Signal, order: OrderKey)
    | Declining(snap: Strategy, run: RunKey, signal: Signal)
    | Linking(snap: Strategy, run: RunKey, signal: Signal, order: OrderKey)

  datatype State = State(
    db: Db, strategies: map<string, Strategy>, runs: map<RunKey, RunStatus>, signals: map<RunKey, Signal>,
    workers: map<nat, Work>, clock: int,
    sent: seq<Sent>, lastBuy: map<string, int>)   // history: what was sent, and each strategy's last linked BUY

  datatype Config = Config(trading: Settings, engine: bool, userPerDay: int, perMinute: int, intervals: set<int>)

  const INDIA_OFFSET := 19800
  const DAY := 86400

  function DayStart(now: int): int {
    now - (now + INDIA_OFFSET) % DAY
  }

  // ---------------------------------------------------------------- reads

  predicate StartedRun(s: State, sid: string) {
    exists r :: r in s.runs && r.strategy == sid && s.runs[r] == Started
  }

  predicate CreatedSignal(s: State, sid: string) {
    exists r :: r in s.signals && r.strategy == sid && s.signals[r].status == Created
  }

  predicate Stranded(s: State, sid: string) {
    StartedRun(s, sid) || CreatedSignal(s, sid)
  }

  /** Orders linked to the strategy's signals. */
  function Linked(signals: map<RunKey, Signal>, sid: string): set<OrderKey> {
    set r | r in signals && r.strategy == sid && signals[r].order.Some? :: signals[r].order.value
  }

  predicate LinkedAnywhere(s: State, k: OrderKey) {
    exists r :: r in s.signals && s.signals[r].order == Some(k)
  }

  predicate HasOpenOrder(s: State, sid: string) {
    exists k :: k in Linked(s.signals, sid) && k in s.db.orders && s.db.orders[k].status in OpenStatuses()
  }

  /** Signed quantity over all executions of the linked orders. */
  function Exposure(es: seq<Execution>, linked: set<OrderKey>): int {
    if es == [] then 0
    else
      var e := es[|es| - 1];
      Exposure(es[..|es| - 1], linked) + if e.order in linked then Signed(e.side, e.quantity) else 0
  }

  function SubmittedSince(s: State, user: string, since: int): set<RunKey> {
    set r | r in s.signals && s.signals[r].user == user && s.signals[r].status == OrderSubmitted
         && s.signals[r].at >= since
  }

  function AttemptsSince(s: State, user: string, since: int): set<RunKey> {
    set r | r in s.signals && s.signals[r].user == user && s.signals[r].status != Suppressed && s.signals[r].at >= since
  }

  // ---------------------------------------------------------------- the routing decision

  datatype Decision = Submit(quantity: int) | Suppress | Limited

  function Route(cfg: Config, s: State, sid: string, snap: Strategy, side: Side): Decision {
    var exposure := Exposure(s.db.executions, Linked(s.signals, sid));
    if |SubmittedSince(s, snap.user, DayStart(s.clock))| >= cfg.userPerDay then Limited
    else if |set r | r in SubmittedSince(s, snap.user, DayStart(s.clock)) && r.strategy == sid| >= snap.maxPerDay then Limited
    else if |AttemptsSince(s, snap.user, s.clock - 60)| >= cfg.perMinute then Limited
    else if HasOpenOrder(s, sid) then Suppress
    else if side == Buy && exposure != 0 then Suppress
    else if side == Sell && exposure <= 0 then Suppress
    else Submit(if side == Buy || snap.quantity < exposure then snap.quantity else exposure)
  }

  /** The reference moved by the offset in the trader's favour. */
  function Target(offsetBps: real, side: Side, reference: real): real {
    reference * (1.0 + (if side == Buy then -offsetBps else offsetBps) / 10000.0)
  }

  /** Whole ticks, rounded in the trader's favour, at least one. */
  function Rounded(target: real, tick: real, side: Side): real {
    var ratio := if tick != 0.0 then target / tick else 0.0;
    var ticks := if side == Buy then ratio.Floor else -((-ratio).Floor);
    Max(tick, ticks as real * tick)
  }

  /** Limit price of an automated order. */
  function LimitPrice(offsetBps: real, tickSize: Option<real>, side: Side, reference: real): real {
    Rounded(Target(offsetBps, side, reference), OrElse(tickSize, 0.05), side)
  }

  function ClientId(sid: string, candle: int): string {
    "s" + Prefix(Strip(sid), 10) + Decimal(candle)
  }

  function Strip(text: string): string {
    if text == "" then "" else (if text[0] == '-' then "" else text[..1]) + Strip(text[1..])
  }

  function Prefix(text: string, n: nat): string {
    if |text| < n then text else text[..n]
  }

  function TicketOf(snap: Strategy, signal: Signal, tickSize: Option<real>, reference: real): Ticket {
    Ticket(signal.client, snap.instrument, signal.side, snap.orderType, snap.product, Day, signal.quantity,
           if snap.orderType == Limit then Some(LimitPrice(snap.offsetBps, tickSize, signal.side, reference)) else None)
  }

  // ---------------------------------------------------------------- steps

  datatype Step =
    | Wait(now: int)
    | Poll(w: nat, strategy: string, snap: Strategy)
    | Claim(w: nat, candle: int)
    | Finish(w: nat, status: RunStatus, broken: bool)
    | Decide(w: nat, side: Side, ready: bool)
    | Submission(w: nat, quote: Option<Quote>, time: real, tickSize: Option<real>, gate: bool, connected: bool, expired: bool)
    | Post(w: nat)
    | Answer(w: nat, reply: Reply)
    | Decline(w: nat)
    | Link(w: nat)
    | Break(w: nat)
    | Crash(w: nat)
    | Activate(strategy: string, allowed: bool)
    | Pause(strategy: string)
    | Update(strategy: string, edit: Edit)
    | Trading(step: R.Step)

  function At(s: State, w: nat): Work {
    if w in s.workers then s.workers[w] else Idle
  }

  predicate InFlight(work: Work) {
    !work.Idle? && !work.Cleared?
  }

  predicate Enabled(cfg: Config, s: State, step: Step) {
    match step
    case Wait(now) => now >= s.clock
    case Poll(w, sid, snap) => w in s.workers && s.workers[w].Idle? && sid in s.strategies && cfg.engine
      && snap.status == Active && snap.quantity >= 1
      && snap.user == s.strategies[sid].user && snap.instrument == s.strategies[sid].instrument
      && snap.mode == s.strategies[sid].mode
      && cfg.trading.mode == (if snap.mode == Mode.Paper then PaperMode else LiveMode)
    case Claim(w, _) => At(s, w).Cleared?
    case Finish(w, status, _) => At(s, w).Claimed? && status in {NoSignal, Skipped, RunFailed}
    case Decide(w, _, _) => At(s, w).Claimed?
    case Submission(w, quote, _, _, _, _, _) => At(s, w).Placing? && quote.Some?
    case Post(w) => At(s, w).Posting?
    case Answer(w, _) => At(s, w).Awaiting?
    case Decline(w) => At(s, w).Declining?
    case Link(w) => At(s, w).Linking?
    case Break(w) => InFlight(At(s, w))
    case Crash(w) => w in s.workers
    case Activate(sid, _) => sid in s.strategies
    case Pause(sid) => sid in s.strategies
    case Update(sid, edit) => sid in s.strategies && AtLeastOne(edit.quantity) && AtLeastOne(edit.maxPerDay)
    case Trading(t) => R.Enabled(s.db, t)
  }

  function Put(s: State, w: nat, work: Work): State {
    s.(workers := s.workers[w := work])
  }

  function SetStatus(s: State, sid: string, status: StrategyStatus): State {
    if sid in s.strategies then s.(strategies := s.strategies[sid := s.strategies[sid].(status := status)]) else s
  }

  /** The rejection commit: signal REJECTED, run FAILED, and a live strategy goes to ERROR. */
  function DeclineSignal(s: State, w: nat, work: Work): State
    requires work.Placing? || work.Declining?
  {
    var s1 := s.(signals := s.signals[work.run := work.signal.(status := Declined)],
                 runs := s.runs[work.run := RunFailed]);
    Put(if work.snap.mode == Mode.Live then SetStatus(s1, work.run.strategy, Erroneous) else s1, w, Idle)
  }

  /** The handler for unexpected errors: roll back, strategy ERROR, run FAILED. */
  function BreakRun(s: State, w: nat, work: Work): State
    requires InFlight(work)
  {
    Put(SetStatus(s.(runs := s.runs[work.run := RunFailed]), work.run.strategy, Erroneous), w, Idle)
  }

  function CreateSignal(s: State, run: RunKey, signal: Signal): State {
    s.(signals := s.signals[run := signal])
  }

  function Submission1(cfg: Config, s: State, step: Step, work: Work): State
    requires step.Submission? && step.quote.Some? && work.Placing?
  {
    var t := TicketOf(work.snap, work.signal, step.tickSize, step.quote.value.ltp);
    var k := OrderKey(work.snap.user, t.client);
    match PlaceLive(cfg.trading, step.gate, step.connected, s.db, work.snap.user, t, step.quote, step.time)
    case Inserted(db2) =>
      var s1 := CreateSignal(s.(db := db2), work.run, work.signal);
      if cfg.trading.mode == PaperMode then
        Put(s1.(sent := s.sent + [Sent(work.run, k)]), step.w, Linking(work.snap, work.run, work.signal, k))
      else Put(s1, step.w, Posting(work.snap, work.run, work.signal, k))
    case Existing => Put(s, step.w, Linking(work.snap, work.run, work.signal, k))
    case Refused(error) =>
      if error == ConnectionRequired && step.expired then
        Put(CreateSignal(s, work.run, work.signal), step.w, Declining(work.snap, work.run, work.signal))
      else DeclineSignal(s, step.w, work)
  }

  function Decide1(cfg: Config, s: State, step: Step, work: Work): State
    requires step.Decide? && work.Claimed?
  {
    var signal := Signal(work.snap.user, step.side, Suppressed, work.snap.quantity,
                         ClientId(work.run.strategy, work.run.candle), None, s.clock);
    match Route(cfg, s, work.run.strategy, work.snap, step.side)
    case Limited => Put(s.(runs := s.runs[work.run := Skipped]), step.w, Idle)
    case Suppress =>
      Put(s.(signals := s.signals[work.run := signal], runs := s.runs[work.run := Skipped]), step.w, Idle)
    case Submit(quantity) =>
      if !step.ready then Put(s.(runs := s.runs[work.run := Skipped]), step.w, Idle)
      else Put(s, step.w, Placing(work.snap, work.run, signal.(status := Created, quantity := quantity)))
  }

  function Link1(s: State, w: nat, work: Work): State
    requires work.Linking?
  {
    if LinkedAnywhere(s, work.order) then BreakRun(s, w, work)   // the unique constraint on order_id
    else
      var signal := work.signal.(status := OrderSubmitted, order := Some(work.order));
      Put(s.(signals := s.signals[work.run := signal], runs := s.runs[work.run := Succeeded],
             lastBuy := if signal.side == Buy then s.lastBuy[work.run.strategy := signal.quantity] else s.lastBuy),
          w, Idle)
  }

  predicate Editable(status: StrategyStatus) {
    status in {Draft, Paused, Erroneous}
  }

  predicate AtLeastOne(value: Option<int>) {
    value.Some? ==> value.value >= 1
  }

  function OrKeep<T>(value: Option<T>, kept: T): T {
    if value.Some? then value.value else kept
  }

  /** The white space that trimming a text removes. */
  predicate IsSpace(c: char) {
    var n := c as int;
    9 <= n <= 13 || 28 <= n <= 32 || n in {0x85, 0xA0, 0x1680, 0x2028, 0x2029, 0x202F, 0x205F, 0x3000} || 0x2000 <= n <= 0x200A
  }

  function Trimmed(text: string): string {
    if text == "" then text
    else if IsSpace(text[0]) then Trimmed(text[1..])
    else if IsSpace(text[|text| - 1]) then Trimmed(text[..|text| - 1])
    else text
  }

  function Applied(row: Strategy, edit: Edit): Strategy {
    row.(name := if edit.name.Some? then Trimmed(edit.name.value) else row.name,
         timeframe := OrKeep(edit.timeframe, row.timeframe), fast := OrKeep(edit.fast, row.fast),
         slow := OrKeep(edit.slow, row.slow), quantity := OrKeep(edit.quantity, row.quantity),
         product := OrKeep(edit.product, row.product), orderType := OrKeep(edit.orderType, row.orderType),
         offsetBps := OrKeep(edit.offsetBps, row.offsetBps), maxPerDay := OrKeep(edit.maxPerDay, row.maxPerDay))
  }

  predicate HasChanges(edit: Edit) {
    edit.name.Some? || edit.timeframe.Some? || edit.fast.Some? || edit.slow.Some? || edit.quantity.Some? || edit.product.Some?
    || edit.orderType.Some? || edit.offsetBps.Some? || edit.maxPerDay.Some?
  }

  /** The unique constraint of the strategies table: another strategy of the same user has the name. */
  predicate Taken(strategies: map<string, Strategy>, sid: string, name: string)
    requires sid in strategies
  {
    exists other :: other in strategies && other != sid && strategies[other].user == strategies[sid].user
                    && strategies[other].name == name
  }

  /** The edit is refused while the strategy runs, with a blank name or one that is taken, with periods out of order, or with an
      interval that is not configured. */
  predicate Refuses(cfg: Config, strategies: map<string, Strategy>, sid: string, edit: Edit)
    requires sid in strategies
  {
    var row := strategies[sid];
    || !Editable(row.status)
    || (edit.name.Some? && (Trimmed(edit.name.value) == "" || Taken(strategies, sid, Trimmed(edit.name.value))))
    || OrKeep(edit.fast, row.fast) >= OrKeep(edit.slow, row.slow)
    || OrKeep(edit.timeframe, row.timeframe) !in cfg.intervals
  }

  /** An accepted edit gives a new version in DRAFT; one that carries nothing leaves the row. */
  function Edited(cfg: Config, strategies: map<string, Strategy>, sid: string, edit: Edit): (edited: Strategy)
    requires sid in strategies
    ensures edited.user == strategies[sid].user && edited.instrument == strategies[sid].instrument
    ensures edited.mode == strategies[sid].mode
    ensures edited.status == Active ==> strategies[sid].status == Active
  {
    var row := strategies[sid];
    if Refuses(cfg, strategies, sid, edit) || !HasChanges(edit) then row
    else Applied(row, edit).(version := row.version + 1, status := Draft)
  }

  /** An order with the client id of one of the strategy's signals is still UNKNOWN. */
  predicate Ambiguous(s: State, sid: string) {
    exists r :: r in s.signals && r.strategy == sid && OrderKey(s.signals[r].user, s.signals[r].client) in s.db.orders
      && s.db.orders[OrderKey(s.signals[r].user, s.signals[r].client)].status == Unknown
  }

  function Next(cfg: Config, s: State, step: Step): State
    requires Enabled(cfg, s, step)
  {
    match step
    case Wait(now) => s.(clock := now)
    case Poll(w, sid, snap) =>
      if Stranded(s, sid) then SetStatus(s, sid, Erroneous) else Put(s, w, Cleared(snap, sid))
    case Claim(w, candle) =>
      var run := RunKey(At(s, w).strategy, candle);
      if run in s.runs then Put(s, w, Idle)
      else Put(s.(runs := s.runs[run := Started]), w, Claimed(At(s, w).snap, run))
    case Finish(w, status, broken) =>
      var s1 := s.(runs := s.runs[At(s, w).run := status]);
      Put(if broken then SetStatus(s1, At(s, w).run.strategy, Erroneous) else s1, w, Idle)
    case Decide(w, _, _) => Decide1(cfg, s, step, At(s, w))
    case Submission(w, _, _, _, _, _, _) => Submission1(cfg, s, step, At(s, w))
    case Post(w) =>
      var work := At(s, w);
      Put(s.(sent := s.sent + [Sent(work.run, work.order)]), w, Awaiting(work.snap, work.run, work.signal, work.order))
    case Answer(w, reply) =>
      var work := At(s, w);
      if work.order !in s.db.orders then s
      else
        var s1 := s.(db := ReplyPlace(s.db, work.order, reply));
        Put(s1, w, if reply.Response? then Linking(work.snap, work.run, work.signal, work.order)
                   else Declining(work.snap, work.run, work.signal))
    case Decline(w) => DeclineSignal(s, w, At(s, w))
    case Link(w) => Link1(s, w, At(s, w))
    case Break(w) => BreakRun(s, w, At(s, w))
    case Crash(w) => Put(s, w, Idle)
    case Activate(sid, allowed) =>
      if Editable(s.strategies[sid].status) && !Stranded(s, sid) && !Ambiguous(s, sid) && allowed
      then SetStatus(s, sid, Active) else s
    case Pause(sid) => SetStatus(s, sid, Paused)
    case Update(sid, edit) => s.(strategies := s.strategies[sid := Edited(cfg, s.strategies, sid, edit)])
    case Trading(t) => s.(db := R.Next(cfg.trading, s.db, t))
  }

  function Initial(strategies: map<string, Strategy>, workers: set<nat>): State {
    State(R.EMPTY, strategies, map[], map[], map w | w in workers :: Idle, 0, [], map[])
  }

  /** The state after a run; a step that is not enabled does nothing. */
  function After(cfg: Config, start: State, steps: seq<Step>): State {
    if steps == [] then start
    else
      var s, step := After(cfg, start, steps[..|steps| - 1]), steps[|steps| - 1];
      if Enabled(cfg, s, step) then Next(cfg, s, step) else s
  }

  // ---------------------------------------------------------------- runs step by step

  lemma AfterOne(cfg: Config, start: State, steps: seq<Step>, step: Step)
    ensures var s := After(cfg, start, steps);
      After(cfg, start, steps + [step]) == if Enabled(cfg, s, step) then Next(cfg, s, step) else s
  {
    assert (steps + [step])[..|steps|] == steps;
    hide Enabled, Next;
  }

  lemma {:induction false} AfterJoins(cfg: Config, start: State, a: seq<Step>, b: seq<Step>)
    ensures After(cfg, start, a + b) == After(cfg, After(cfg, start, a), b)
    decreases |b|
  {
    hide Enabled, Next;
    if b == [] {
      assert a + b == a;
    } else {
      AfterJoins(cfg, start, a, b[..|b| - 1]);
      assert (a + b)[..|a + b| - 1] == a + b[..|b| - 1];
    }
  }

  /** One more step at the end of a run. */
  lemma Extends(cfg: Config, start: State, trace: seq<Step>, s: State, step: Step, s2: State)
    requires s == After(cfg, start, trace) && Enabled(cfg, s, step) && s2 == Next(cfg, s, step)
    ensures s2 == After(cfg, start, trace + [step])
  {
    AfterOne(cfg, start, trace, step);
    hide Enabled, Next, After;
  }

  lemma DecideNext(cfg: Config, s: State, step: Step)
    requires Enabled(cfg, s, step) && step.Decide?
    ensures At(s, step.w).Claimed? && step.w in s.workers && s.workers[step.w] == At(s, step.w)
    ensures Next(cfg, s, step) == Decide1(cfg, s, step, At(s, step.w))
  {
    hide Decide1, R.Enabled, R.Next;
  }

  /** A step that ends a worker's piece of work. */
  lemma EndNext(cfg: Config, s: State, step: Step)
    requires Enabled(cfg, s, step)
    ensures step.Decline? ==> At(s, step.w).Declining? && Next(cfg, s, step) == DeclineSignal(s, step.w, At(s, step.w))
    ensures step.Break? ==> InFlight(At(s, step.w)) && Next(cfg, s, step) == BreakRun(s, step.w, At(s, step.w))
    ensures step.Link? ==> At(s, step.w).Linking? && Next(cfg, s, step) == Link1(s, step.w, At(s, step.w))
  {
    hide Decide1, Submission1, Link1, BreakRun, DeclineSignal, ReplyPlace, Stranded, Ambiguous, R.Enabled, R.Next;
  }
}
