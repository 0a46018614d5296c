/** The strategy worker and the strategy routes in their own form: rows and local variables updated step by step, each
    commit proved to be the step of the protocol it stands for
    (backend/app/strategies/worker.py, backend/app/strategies/service.py, backend/app/routers/strategies.py). */
module Worker {
  import opened Ledger
  import opened Options
  import opened Paper
  import opened Live
  import P = Protocol
  import opened Protocol
  import R = Runs
  import Preview
  import Sma

  /** Everything one evaluation meets from outside: what the gates before the candle window say, the completed candles that
      the query returns, and what the order manager and the broker answer; `reply` is missing when the broker call fails in an unforeseen way. */
  datatype Env = Env(
    candle: Option<int>, skip: Option<RunStatus>, broken: bool, rows: seq<Preview.Row>, available: bool,
    quote: Option<Quote>, time: real, tickSize: Option<real>, gate: bool, connected: bool, expired: bool,
    reply: Option<Reply>)

  /** The memory of the only worker. */
  function Slot(w: nat, work: Work): (slot: map<nat, Work>)
    ensures w in slot && slot[w] == work
  {
    map[w := work]
  }

  lemma SlotMoves(w: nat)
    ensures forall a, b {:trigger Slot(w, a)[w := b]} :: Slot(w, a)[w := b] == Slot(w, b)
  {
  }

  /** Whether the quote and the connection allow an order. */
  predicate Ready(cfg: Config, env: Env) {
    QuoteCheck(cfg.trading, env.quote, env.time).None? && env.available
  }

  /** What an evaluation does once its candle is claimed: it ends at a gate, at a gap between the candles or without a signal,
      or it goes on to the routing decision with the side of the crossover. */
  function Outcome(cfg: Config, w: nat, snap: Strategy, env: Env): Step {
    if env.skip.Some? then Finish(w, env.skip.value, env.broken)
    else
      match Preview.Worker(env.rows, snap.timeframe, snap.fast, snap.slow)
      case CandleGap => Finish(w, Skipped, false)
      case Decided(None) => Finish(w, NoSignal, false)
      case Decided(Some(cross)) =>
        if cross.action.None? then Finish(w, NoSignal, false) else Decide(w, cross.action.value, Ready(cfg, env))
  }

  /** After the gates: a gap between enough candles skips, no crossover at the newest candle ends without a signal, and a
      crossover goes on with its side, as ready as a fresh quote and an available instrument make it. */
  lemma OutcomeExactly(cfg: Config, w: nat, snap: Strategy, env: Env)
    requires env.skip.None?
    ensures var gap := |env.rows| > snap.slow
              && (exists i :: 0 <= i < |env.rows| - 1 && env.rows[i].start + snap.timeframe != env.rows[i + 1].start);
      var cross := Sma.Evaluate(Preview.Closes(env.rows), snap.fast, snap.slow);
      Outcome(cfg, w, snap, env)
      == if gap then Finish(w, Skipped, false)
         else if cross.None? || cross.value.action == None then Finish(w, NoSignal, false)
         else Decide(w, cross.value.action.value,
                     env.available && env.quote.Some? && !env.quote.value.stale
                     && env.time - env.quote.value.receivedAt <= cfg.trading.staleAfter)
  {
    Preview.WorkerStops(env.rows, snap.timeframe, snap.fast, snap.slow);
    hide Preview.Worker, Sma.Evaluate;
  }

  function SubmissionOf(w: nat, env: Env): Step {
    Submission(w, env.quote, env.time, env.tickSize, env.gate, env.connected, env.expired)
  }

  lemma SubmissionStep(cfg: Config, s: State, w: nat, env: Env)
    requires At(s, w).Placing? && env.quote.Some?
    ensures Enabled(cfg, s, SubmissionOf(w, env))
    ensures Next(cfg, s, SubmissionOf(w, env)) == Submission1(cfg, s, SubmissionOf(w, env), At(s, w))
  {
    hide Submission1, R.Enabled, R.Next;
  }

  lemma DecideStep(cfg: Config, s: State, w: nat, side: Side, ready: bool)
    requires At(s, w).Claimed?
    ensures Enabled(cfg, s, Decide(w, side, ready))
    ensures Next(cfg, s, Decide(w, side, ready)) == Decide1(cfg, s, Decide(w, side, ready), At(s, w))
  {
    hide Decide1, R.Enabled, R.Next;
  }

  /** The steps of a worker that holds something. */
  lemma HeldSteps(cfg: Config, s: State, w: nat)
    ensures At(s, w).Cleared? ==> forall candle :: Enabled(cfg, s, Claim(w, candle))
    ensures At(s, w).Posting? ==> Enabled(cfg, s, Post(w))
    ensures At(s, w).Awaiting? ==> forall reply :: Enabled(cfg, s, Answer(w, reply))
    ensures At(s, w).Linking? ==> Enabled(cfg, s, Link(w)) && Next(cfg, s, Link(w)) == Link1(s, w, At(s, w))
    ensures At(s, w).Declining? ==> Enabled(cfg, s, Decline(w)) && Next(cfg, s, Decline(w)) == DeclineSignal(s, w, At(s, w))
    ensures InFlight(At(s, w)) ==> Enabled(cfg, s, Break(w)) && Next(cfg, s, Break(w)) == BreakRun(s, w, At(s, w))
    ensures At(s, w).Claimed? ==> forall status, broken ::
      status in {NoSignal, Skipped, RunFailed} ==> Enabled(cfg, s, Finish(w, status, broken))
  {
    hide R.Enabled, R.Next, Link1, DeclineSignal, BreakRun;
  }

  lemma LiveRowIsThere(cfg: Settings, gate: bool, connected: bool, db: Db, user: string, t: Ticket, quote: Option<Quote>, now: real)
    requires cfg.mode != PaperMode
    ensures var r := PlaceLive(cfg, gate, connected, db, user, t, quote, now);
      r.Inserted? ==> OrderKey(user, t.client) in r.db.orders
  {
    hide QuoteCheck, RiskCheck;
  }

  /** Rows are never removed, and whose they are, for what and in which mode never changes. */
  ghost predicate SameOwners(a: map<string, Strategy>, b: map<string, Strategy>) {
    && a.Keys == b.Keys
    && forall sid :: sid in a ==>
         a[sid].user == b[sid].user && a[sid].instrument == b[sid].instrument && a[sid].mode == b[sid].mode
  }

  /** What the query for strategies to run selects; a row's quantity is at least one. */
  predicate Runnable(cfg: Config, row: Strategy) {
    && row.status == Active && row.quantity >= 1
    && cfg.trading.mode == (if row.mode == Mode.Paper then PaperMode else LiveMode)
  }

  lemma Same(a: map<string, Strategy>)
    ensures SameOwners(a, a)
  {
  }

  class StrategyWorker {
    const cfg: Config
    const w: nat
    var db: Db
    var strategies: map<string, Strategy>
    var runs: map<RunKey, RunStatus>
    var signals: map<RunKey, Signal>
    var clock: int
    var work: Work
    var sent: seq<Sent>
    var lastBuy: map<string, int>

    function View(): State
      reads this
    {
      State(db, strategies, runs, signals, Slot(w, work), clock, sent, lastBuy)
    }

    constructor (cfg: Config, w: nat, strategies: map<string, Strategy>)
      ensures this.cfg == cfg && this.w == w && View() == Initial(strategies, {w})
    {
      this.cfg, this.w, this.strategies := cfg, w, strategies;
      db, runs, signals, clock, work, sent, lastBuy := R.EMPTY, map[], map[], 0, Idle, [], map[];
      new;
      assert View().workers == Initial(strategies, {w}).workers;
    }

    // -------------------------------------------------------------- one commit each

    method SetStrategyStatus(sid: string, status: StrategyStatus)
      modifies this`strategies
      ensures View() == SetStatus(old(View()), sid, status)
      ensures SameOwners(old(strategies), strategies)
    {
      if sid in strategies {
        strategies := strategies[sid := strategies[sid].(status := status)];
      }
    }

    /** The run row is claimed before anything else is done for the candle. */
    method ClaimRun(candle: int) returns (claimed: bool)
      requires work.Cleared?
      modifies this
      ensures View() == Next(cfg, old(View()), Claim(w, candle)) && SameOwners(old(strategies), strategies)
      ensures claimed == work.Claimed? && (!claimed ==> work.Idle?)
      ensures claimed == old(RunKey(work.strategy, candle) !in runs) && (claimed ==> work.snap == old(work.snap))
    {
      SlotMoves(w);
      hide Slot;
      var run := RunKey(work.strategy, candle);
      if run in runs {
        work := Idle;
        claimed := false;
      } else {
        runs := runs[run := Started];
        work := Claimed(work.snap, run);
        claimed := true;
      }
    }

    method FinishRun(status: RunStatus, broken: bool)
      requires work.Claimed? && status in {NoSignal, Skipped, RunFailed}
      modifies this
      ensures View() == Next(cfg, old(View()), Finish(w, status, broken)) && work.Idle?
      ensures SameOwners(old(strategies), strategies)
    {
      SlotMoves(w);
      hide Slot;
      runs := runs[work.run := status];
      if broken {
        SetStrategyStatus(work.run.strategy, Erroneous);
      }
      work := Idle;
    }

    /** Counts, open orders and exposure, in this order, decide. */
    method ChooseRoute(side: Side) returns (decision: Decision)
      requires work.Claimed?
      ensures decision == Route(cfg, View(), work.run.strategy, work.snap, side)
    {
      hide Exposure, HasOpenOrder, Linked, SubmittedSince, AttemptsSince, DayStart, Slot;
      var s, sid, snap := View(), work.run.strategy, work.snap;
      var today := SubmittedSince(s, snap.user, DayStart(clock));
      if |today| >= cfg.userPerDay {
        return Limited;
      }
      var own := set r | r in today && r.strategy == sid;
      if |own| >= snap.maxPerDay {
        return Limited;
      }
      var recent := AttemptsSince(s, snap.user, clock - 60);
      if |recent| >= cfg.perMinute {
        return Limited;
      }
      if HasOpenOrder(s, sid) {
        return Decision.Suppress;
      }
      var exposure := Exposure(db.executions, Linked(signals, sid));
      if side == Buy && exposure != 0 {
        return Decision.Suppress;
      }
      if side == Sell && exposure <= 0 {
        return Decision.Suppress;
      }
      return Submit(if side == Buy || snap.quantity < exposure then snap.quantity else exposure);
    }

    /** A suppressed signal is a row at once, an accepted one is not yet committed. */
    method RouteSignal(side: Side, ready: bool)
      requires work.Claimed?
      modifies this
      ensures View() == Decide1(cfg, old(View()), Decide(w, side, ready), old(work)) && (work.Idle? || (ready && work.Placing?))
      ensures SameOwners(old(strategies), strategies)
    {
      SlotMoves(w);
      hide Route, ClientId, Slot;
      var run, snap := work.run, work.snap;
      var signal := Signal(snap.user, side, Suppressed, snap.quantity, ClientId(run.strategy, run.candle), None, clock);
      var decision := ChooseRoute(side);
      match decision {
        case Limited =>
          runs := runs[run := Skipped];
          work := Idle;
        case Suppress =>
          signals := signals[run := signal];
          runs := runs[run := Skipped];
          work := Idle;
        case Submit(quantity) =>
          if ready {
            work := Placing(snap, run, signal.(status := Created, quantity := quantity));
          } else {
            runs := runs[run := Skipped];
            work := Idle;
          }
      }
    }

    /** Hands the order over: a row (and for paper the order itself), or a refusal. */
    method SubmitOrder(env: Env)
      requires work.Placing? && env.quote.Some?
      modifies this
      ensures View() == Submission1(cfg, old(View()), SubmissionOf(w, env), old(work))
      ensures work.Idle? || work.Linking? || work.Declining? || (work.Posting? && work.order in db.orders)
      ensures SameOwners(old(strategies), strategies)
    {
      SlotMoves(w);
      hide PlaceLive, TicketOf, Slot, DeclineSignal, SameOwners;
      Same(strategies);
      var t := TicketOf(work.snap, work.signal, env.tickSize, env.quote.value.ltp);
      var k := OrderKey(work.snap.user, t.client);
      if cfg.trading.mode != PaperMode {
        LiveRowIsThere(cfg.trading, env.gate, env.connected, db, work.snap.user, t, env.quote, env.time);
      }
      match PlaceLive(cfg.trading, env.gate, env.connected, db, work.snap.user, t, env.quote, env.time) {
        case Inserted(db2) =>
          db := db2;
          signals := signals[work.run := work.signal];
          if cfg.trading.mode == PaperMode {
            sent := sent + [Sent(work.run, k)];
            work := Linking(work.snap, work.run, work.signal, k);
          } else {
            work := Posting(work.snap, work.run, work.signal, k);
          }
        case Existing =>
          work := Linking(work.snap, work.run, work.signal, k);
        case Refused(error) =>
          if error == ConnectionRequired && env.expired {
            signals := signals[work.run := work.signal];
            work := Declining(work.snap, work.run, work.signal);
          } else {
            Reject();
          }
      }
    }

    /** The handler of trading errors; a live strategy stops. */
    method Reject()
      requires work.Placing? || work.Declining?
      modifies this
      ensures View() == DeclineSignal(old(View()), w, old(work)) && work.Idle?
      ensures SameOwners(old(strategies), strategies)
    {
      SlotMoves(w);
      hide Slot;
      signals := signals[work.run := work.signal.(status := Declined)];
      runs := runs[work.run := RunFailed];
      if work.snap.mode == Mode.Live {
        SetStrategyStatus(work.run.strategy, Erroneous);
      }
      work := Idle;
    }

    /** The one POST. */
    method PostOrder()
      requires work.Posting?
      modifies this
      ensures View() == Next(cfg, old(View()), Post(w)) && work.Awaiting? && work.order == old(work.order)
      ensures SameOwners(old(strategies), strategies) && db == old(db)
    {
      SlotMoves(w);
      hide Slot;
      sent := sent + [Sent(work.run, work.order)];
      work := Awaiting(work.snap, work.run, work.signal, work.order);
    }

    method TakeReply(reply: Reply)
      requires work.Awaiting? && work.order in db.orders
      modifies this
      ensures View() == Next(cfg, old(View()), Answer(w, reply)) && (work.Linking? || work.Declining?)
      ensures SameOwners(old(strategies), strategies)
    {
      SlotMoves(w);
      hide PlaceReplied, Slot;
      db := ReplyPlace(db, work.order, reply);
      work := if reply.Response? then Linking(work.snap, work.run, work.signal, work.order)
              else Declining(work.snap, work.run, work.signal);
    }

    method LinkOrder()
      requires work.Linking?
      modifies this
      ensures View() == Link1(old(View()), w, old(work)) && work.Idle?
      ensures SameOwners(old(strategies), strategies)
    {
      SlotMoves(w);
      hide LinkedAnywhere, Slot;
      if LinkedAnywhere(View(), work.order) {
        FailRun();
      } else {
        var signal := work.signal.(status := OrderSubmitted, order := Some(work.order));
        signals := signals[work.run := signal];
        runs := runs[work.run := Succeeded];
        if signal.side == Buy {
          lastBuy := lastBuy[work.run.strategy := signal.quantity];
        }
        work := Idle;
      }
    }

    /** The handler of unforeseen errors: uncommitted writes are gone, the strategy stops, the run failed. */
    method FailRun()
      requires InFlight(work)
      modifies this
      ensures View() == BreakRun(old(View()), w, old(work)) && work.Idle?
      ensures SameOwners(old(strategies), strategies)
    {
      SlotMoves(w);
      hide Slot;
      runs := runs[work.run := RunFailed];
      SetStrategyStatus(work.run.strategy, Erroneous);
      work := Idle;
    }

    // -------------------------------------------------------------- evaluations

    /** From the order ticket to the linked or rejected signal, through at most one POST. */
    method PlaceSignal(env: Env, ghost start: State, ghost before: seq<Step>) returns (ghost trace: seq<Step>)
      requires work.Placing? && env.quote.Some? && View() == After(cfg, start, before)
      modifies this
      ensures work.Idle? && SameOwners(old(strategies), strategies) && View() == After(cfg, start, trace)
      ensures before <= trace
    {
      hide Next, Enabled, After, Submission1, Link1, DeclineSignal, BreakRun, SameOwners, Slot;
      ghost var s := View();
      SubmissionStep(cfg, s, w, env);
      SubmitOrder(env);
      trace := before + [SubmissionOf(w, env)];
      Extends(cfg, start, before, s, SubmissionOf(w, env), View());
      if work.Posting? {
        trace := SendOnce(env, start, trace);
      }
      s := View();
      HeldSteps(cfg, s, w);
      if work.Linking? {
        LinkOrder();
        Extends(cfg, start, trace, s, Link(w), View());
        trace := trace + [Link(w)];
      } else if work.Declining? {
        Reject();
        Extends(cfg, start, trace, s, Decline(w), View());
        trace := trace + [Decline(w)];
      }
      SameTrans();
    }

    /** The POST and what comes back. */
    method SendOnce(env: Env, ghost start: State, ghost before: seq<Step>) returns (ghost trace: seq<Step>)
      requires work.Posting? && work.order in db.orders && View() == After(cfg, start, before)
      modifies this
      ensures work.Idle? || work.Linking? || work.Declining?
      ensures SameOwners(old(strategies), strategies) && View() == After(cfg, start, trace)
      ensures before <= trace
    {
      hide Next, Enabled, After, BreakRun, SameOwners, Slot;
      ghost var s := View();
      HeldSteps(cfg, s, w);
      PostOrder();
      Extends(cfg, start, before, s, Post(w), View());
      trace := before + [Post(w)];
      s := View();
      HeldSteps(cfg, s, w);
      if env.reply.None? {
        FailRun();
        Extends(cfg, start, trace, s, Break(w), View());
        trace := trace + [Break(w)];
      } else {
        TakeReply(env.reply.value);
        Extends(cfg, start, trace, s, Answer(w, env.reply.value), View());
        trace := trace + [Answer(w, env.reply.value)];
      }
      SameTrans();
    }

    /** One strategy, one candle. */
    method Evaluate(candle: int, env: Env, ghost start: State, ghost before: seq<Step>) returns (ghost trace: seq<Step>)
      requires work.Cleared? && View() == After(cfg, start, before)
      requires env.skip.Some? ==> env.skip.value in {NoSignal, Skipped, RunFailed}
      modifies this
      ensures work.Idle? && SameOwners(old(strategies), strategies) && View() == After(cfg, start, trace)
      ensures before + [Claim(w, candle)] <= trace
      ensures old(RunKey(work.strategy, candle) !in runs) ==>
        before + [Claim(w, candle), Outcome(cfg, w, old(work.snap), env)] <= trace
    {
      hide Next, Enabled, After, Decide1, SameOwners, Slot, Preview.Worker;
      SameTrans();
      ghost var s := View();
      HeldSteps(cfg, s, w);
      var claimed := ClaimRun(candle);
      Extends(cfg, start, before, s, Claim(w, candle), View());
      trace := before + [Claim(w, candle)];
      if !claimed {
        return;
      }
      s := View();
      HeldSteps(cfg, s, w);
      var status, broken, side := NoSignal, false, None;
      if env.skip.Some? {
        status, broken := env.skip.value, env.broken;
      } else {
        var snap := work.snap;
        var verdict := Preview.Worker(env.rows, snap.timeframe, snap.fast, snap.slow);
        if verdict.CandleGap? {
          status := Skipped;
        } else if verdict.cross.Some? {
          side := verdict.cross.value.action;
        }
      }
      if side.None? {
        FinishRun(status, broken);
        Extends(cfg, start, trace, s, Finish(w, status, broken), View());
        trace := trace + [Finish(w, status, broken)];
        assert trace == before + [Claim(w, candle), Finish(w, status, broken)];
        return;
      }
      var ready := Ready(cfg, env);
      DecideStep(cfg, s, w, side.value, ready);
      RouteSignal(side.value, ready);
      Extends(cfg, start, trace, s, Decide(w, side.value, ready), View());
      trace := trace + [Decide(w, side.value, ready)];
      assert trace == before + [Claim(w, candle), Decide(w, side.value, ready)];
      if work.Placing? {
        trace := PlaceSignal(env, start, trace);
      }
    }

    /** One round over the active strategies: a stranded one is stopped, the others are evaluated on their newest candle. */
    method RunOnce(listed: seq<string>, envs: seq<Env>) returns (ghost trace: seq<Step>)
      requires work.Idle? && |envs| == |listed|
      requires forall i :: 0 <= i < |listed| ==> listed[i] in strategies && Runnable(cfg, strategies[listed[i]])
      requires forall i :: 0 <= i < |envs| && envs[i].skip.Some? ==> envs[i].skip.value in {NoSignal, Skipped, RunFailed}
      modifies this
      ensures work.Idle? && SameOwners(old(strategies), strategies) && View() == After(cfg, old(View()), trace)
    {
      hide Next, Enabled, After, Slot;
      trace := [];
      ghost var start := View();
      AfterNone(cfg, start);
      if !cfg.engine {
        return;
      }
      var rows := strategies;
      for i := 0 to |listed|
        invariant work.Idle? && SameOwners(rows, strategies) && View() == After(cfg, start, trace)
      {
        var sid, env := listed[i], envs[i];
        ghost var s := View();
        PollStep(cfg, s, w, sid, rows[sid]);
        if Stranded(View(), sid) {
          SetStrategyStatus(sid, Erroneous);
          Extends(cfg, start, trace, s, Poll(w, sid, rows[sid]), View());
          trace := trace + [Poll(w, sid, rows[sid])];
        } else if env.candle.Some? && RunKey(sid, env.candle.value) !in runs {
          Clear(rows[sid], sid);
          Extends(cfg, start, trace, s, Poll(w, sid, rows[sid]), View());
          trace := trace + [Poll(w, sid, rows[sid])];
          trace := Evaluate(env.candle.value, env, start, trace);
        }
      }
    }

    method Clear(snap: Strategy, sid: string)
      requires work.Idle?
      modifies this`work
      ensures View() == P.Put(old(View()), w, Cleared(snap, sid)) && work == Cleared(snap, sid)
    {
      SlotMoves(w);
      hide Slot;
      work := Cleared(snap, sid);
    }

    // -------------------------------------------------------------- the routes

    method ActivateStrategy(sid: string, allowed: bool) returns (ok: bool)
      requires sid in strategies
      modifies this`strategies
      ensures View() == Next(cfg, old(View()), Activate(sid, allowed))
      ensures ok ==> !Stranded(old(View()), sid) && !Ambiguous(old(View()), sid) && strategies[sid].status == Active
      ensures !ok ==> strategies == old(strategies)
    {
      hide Stranded, Ambiguous, R.Next, R.Enabled;
      if !Editable(strategies[sid].status) {
        return false;
      }
      if Stranded(View(), sid) {
        return false;
      }
      if Ambiguous(View(), sid) {
        return false;
      }
      if !allowed {
        return false;
      }
      SetStrategyStatus(sid, Active);
      return true;
    }

    method PauseStrategy(sid: string)
      requires sid in strategies
      modifies this`strategies
      ensures View() == Next(cfg, old(View()), Pause(sid))
      ensures strategies == old(strategies)[sid := old(strategies)[sid].(status := Paused)]
    {
      hide R.Next, R.Enabled;
      SetStrategyStatus(sid, Paused);
    }

    method UpdateStrategy(sid: string, edit: Edit) returns (ok: bool)
      requires sid in strategies && AtLeastOne(edit.quantity) && AtLeastOne(edit.maxPerDay)
      modifies this`strategies
      ensures View() == Next(cfg, old(View()), Update(sid, edit))
      ensures ok == old(IsGoodEdit(cfg, strategies, sid, edit))
      ensures ok && HasChanges(edit) ==> strategies[sid].status == Draft && strategies[sid].version == old(strategies)[sid].version + 1
      ensures ok ==>
        && strategies.Keys == old(strategies).Keys
        && (forall other :: other in strategies && other != sid ==> strategies[other] == old(strategies)[other])
        && Carries(old(strategies)[sid], edit, strategies[sid])
      ensures !ok || !HasChanges(edit) ==> strategies == old(strategies)
      ensures old(DistinctNames(strategies)) ==> DistinctNames(strategies)
    {
      UpdateStep(cfg, View(), sid, edit);
      GoodEdits(cfg, strategies, sid, edit);
      hide Next, Enabled, Applied, Trimmed, Refuses, Edited, IsGoodEdit, Carries, DistinctNames, Taken;
      ghost var before := strategies;
      var row := strategies[sid];
      if row.status !in {Draft, Paused, Erroneous} {
        return false;
      }
      if edit.name.Some? && Trimmed(edit.name.value) == "" {
        return false;
      }
      if OrKeep(edit.fast, row.fast) >= OrKeep(edit.slow, row.slow) {
        return false;
      }
      if OrKeep(edit.timeframe, row.timeframe) !in cfg.intervals {
        return false;
      }
      AppliedFields(row, edit);
      row := SetFields(row, edit);
      if HasChanges(edit) {
        row := row.(version := row.version + 1);
        row := row.(status := Draft);
      }
      if edit.name.Some? && Taken(strategies, sid, row.name) {
        return false;
      }
      strategies := strategies[sid := row];
      CarriesOn(before[sid], edit, Applied(before[sid], edit), row);
      if edit.name.Some? || row.name == before[sid].name {
        RenameKeeps(before, sid, row);
      }
      return true;
    }
  }

  /** The route's step, with the row it leaves. */
  lemma UpdateStep(cfg: Config, s: State, sid: string, edit: Edit)
    requires sid in s.strategies && AtLeastOne(edit.quantity) && AtLeastOne(edit.maxPerDay)
    ensures Enabled(cfg, s, Update(sid, edit))
    ensures var row := s.strategies[sid];
      Next(cfg, s, Update(sid, edit))
      == if Refuses(cfg, s.strategies, sid, edit) || !HasChanges(edit) then s
         else s.(strategies := s.strategies[sid := Applied(row, edit).(version := row.version + 1, status := Draft)])
  {
    hide R.Next, R.Enabled, Decide1, Submission1, Link1, BreakRun, DeclineSignal, ReplyPlace, Stranded, Ambiguous, Applied,
      Refuses;
    assert s.strategies[sid := s.strategies[sid]] == s.strategies;
  }

  lemma CarriesOn(row: Strategy, edit: Edit, row2: Strategy, row3: Strategy)
    requires Carries(row, edit, row2) && row3 == row2.(version := row3.version, status := row3.status)
    ensures Carries(row, edit, row3)
  {
  }

  lemma RenameKeeps(strategies: map<string, Strategy>, sid: string, row: Strategy)
    requires sid in strategies && row.user == strategies[sid].user
    requires row.name == strategies[sid].name || !Taken(strategies, sid, row.name)
    ensures DistinctNames(strategies) ==> DistinctNames(strategies[sid := row])
  {
  }

  /** The strategy is stopped, a name that the edit carries is not blank and, trimmed, no other strategy of the user has it, and
      the periods and the interval that result are in order. */
  predicate IsGoodEdit(cfg: Config, strategies: map<string, Strategy>, sid: string, edit: Edit)
    requires sid in strategies
  {
    var row := strategies[sid];
    && row.status in {Draft, Paused, Erroneous}
    && (edit.name.Some? ==>
          && (exists i :: 0 <= i < |edit.name.value| && !IsSpace(edit.name.value[i]))
          && forall other :: other in strategies && other != sid && strategies[other].user == row.user ==>
               strategies[other].name != Trimmed(edit.name.value))
    && (if edit.fast.Some? then edit.fast.value else row.fast) < (if edit.slow.Some? then edit.slow.value else row.slow)
    && (if edit.timeframe.Some? then edit.timeframe.value else row.timeframe) in cfg.intervals
  }

  lemma GoodEdits(cfg: Config, strategies: map<string, Strategy>, sid: string, edit: Edit)
    requires sid in strategies
    ensures IsGoodEdit(cfg, strategies, sid, edit) <==> !Refuses(cfg, strategies, sid, edit)
    ensures var row := strategies[sid];
      IsGoodEdit(cfg, strategies, sid, edit) <==>
        && row.status in {Draft, Paused, Erroneous}
        && (edit.name.Some? ==> Trimmed(edit.name.value) != "" && !Taken(strategies, sid, Trimmed(edit.name.value)))
        && OrKeep(edit.fast, row.fast) < OrKeep(edit.slow, row.slow) && OrKeep(edit.timeframe, row.timeframe) in cfg.intervals
  {
    if edit.name.Some? {
      var from, to := TrimmedIs(edit.name.value);
    }
    hide Trimmed, IsSpace;
  }

  /** Trimming takes away white space at both ends and nothing else. */
  lemma {:induction false} TrimmedIs(text: string) returns (from: nat, to: nat)
    ensures from <= to <= |text| && Trimmed(text) == text[from..to]
    ensures forall i :: 0 <= i < |text| && !(from <= i < to) ==> IsSpace(text[i])
    ensures from < to ==> !IsSpace(text[from]) && !IsSpace(text[to - 1])
    ensures Trimmed(text) == "" <==> forall i :: 0 <= i < |text| ==> IsSpace(text[i])
    decreases |text|
  {
    hide IsSpace;
    if text == "" {
      from, to := 0, 0;
    } else if IsSpace(text[0]) {
      from, to := TrimmedIs(text[1..]);
      assert text[1..][from..to] == text[from + 1..to + 1];
      from, to := from + 1, to + 1;
      assert forall i :: 1 <= i < |text| ==> text[i] == text[1..][i - 1];
    } else if IsSpace(text[|text| - 1]) {
      from, to := TrimmedIs(text[..|text| - 1]);
    } else {
      from, to := 0, |text|;
      assert text[0..|text|] == text;
    }
  }

  /** Each field has the value the edit carries for it, or the one it had; what no edit can carry is as before. */
  predicate Carries(row: Strategy, edit: Edit, row2: Strategy) {
    && row2.user == row.user && row2.instrument == row.instrument && row2.mode == row.mode
    && (if edit.name.Some? then row2.name == Trimmed(edit.name.value) else row2.name == row.name)
    && (if edit.timeframe.Some? then row2.timeframe == edit.timeframe.value else row2.timeframe == row.timeframe)
    && (if edit.fast.Some? then row2.fast == edit.fast.value else row2.fast == row.fast)
    && (if edit.slow.Some? then row2.slow == edit.slow.value else row2.slow == row.slow)
    && (if edit.quantity.Some? then row2.quantity == edit.quantity.value else row2.quantity == row.quantity)
    && (if edit.product.Some? then row2.product == edit.product.value else row2.product == row.product)
    && (if edit.orderType.Some? then row2.orderType == edit.orderType.value else row2.orderType == row.orderType)
    && (if edit.offsetBps.Some? then row2.offsetBps == edit.offsetBps.value else row2.offsetBps == row.offsetBps)
    && (if edit.maxPerDay.Some? then row2.maxPerDay == edit.maxPerDay.value else row2.maxPerDay == row.maxPerDay)
  }

  /** No two strategies of one user share a name. */
  ghost predicate DistinctNames(strategies: map<string, Strategy>) {
    forall a, b :: a in strategies && b in strategies && a != b && strategies[a].user == strategies[b].user
      ==> strategies[a].name != strategies[b].name
  }

  /** The loop over the fields an edit carries. */
  method SetFields(row: Strategy, edit: Edit) returns (changed: Strategy)
    ensures changed == Applied(row, edit)
  {
    changed := row;
    if edit.name.Some? {
      changed := changed.(name := Trimmed(edit.name.value));
    }
    if edit.timeframe.Some? {
      changed := changed.(timeframe := edit.timeframe.value);
    }
    if edit.fast.Some? {
      changed := changed.(fast := edit.fast.value);
    }
    if edit.slow.Some? {
      changed := changed.(slow := edit.slow.value);
    }
    if edit.quantity.Some? {
      changed := changed.(quantity := edit.quantity.value);
    }
    if edit.product.Some? {
      changed := changed.(product := edit.product.value);
    }
    if edit.orderType.Some? {
      changed := changed.(orderType := edit.orderType.value);
    }
    if edit.offsetBps.Some? {
      changed := changed.(offsetBps := edit.offsetBps.value);
    }
    if edit.maxPerDay.Some? {
      changed := changed.(maxPerDay := edit.maxPerDay.value);
    }
  }

  lemma AppliedFields(row: Strategy, edit: Edit)
    ensures Applied(row, edit).version == row.version && Carries(row, edit, Applied(row, edit))
    ensures Applied(row, edit).name == if edit.name.Some? then Trimmed(edit.name.value) else row.name
    ensures !HasChanges(edit) ==> Applied(row, edit) == row
  {
  }

  lemma SameTrans()
    ensures forall a, b, c :: SameOwners(a, b) && SameOwners(b, c) ==> SameOwners(a, c)
    ensures forall a :: SameOwners(a, a)
  {
  }

  lemma AfterNone(cfg: Config, start: State)
    ensures After(cfg, start, []) == start
  {
  }

  lemma PollStep(cfg: Config, s: State, w: nat, sid: string, snap: Strategy)
    requires w in s.workers && s.workers[w].Idle? && sid in s.strategies && cfg.engine && snap.status == Active
    requires snap.quantity >= 1 && snap.user == s.strategies[sid].user && snap.instrument == s.strategies[sid].instrument
    requires snap.mode == s.strategies[sid].mode
    requires cfg.trading.mode == (if snap.mode == Mode.Paper then PaperMode else LiveMode)
    ensures Enabled(cfg, s, Poll(w, sid, snap))
    ensures Next(cfg, s, Poll(w, sid, snap))
         == if Stranded(s, sid) then SetStatus(s, sid, Erroneous) else P.Put(s, w, Cleared(snap, sid))
  {
    hide R.Enabled, R.Next, Stranded;
  }
}
