/** What becomes of a crossover signal: whether it is handed on and for how much, what is ordered for it, and what a refusal or
    an error leaves behind (backend/app/strategies/service.py). */
module Signals {
  import opened Ledger
  import opened Live
  import opened Options
  import opened Paper
  import opened Protocol
  import opened Reconcile
  import opened StrategyCap
  import A = AtMostOnce
  import R = Runs
  import Range
  import Replies
  import W = Windows

  // ---------------------------------------------------------------- the decision

  /** One of the three caps is reached: the user's orders or the strategy's of this day, or the user's attempts of the last
      minute. */
  ghost predicate Reached(cfg: Config, s: State, sid: string, snap: Strategy, day: int) {
    || |W.SubmittedOn(s.signals, snap.user, day)| >= cfg.userPerDay
    || |OrdersOn(s.signals, sid, day)| >= snap.maxPerDay
    || |W.AttemptsIn(s.signals, snap.user, s.clock - 60)| >= cfg.perMinute
  }

  ghost predicate Rests(s: State, sid: string) {
    exists k :: k in Linked(s.signals, sid) && k in s.db.orders
      && s.db.orders[k].status in {Pending, Open, PartiallyFilled, CancelPending, Unknown}
  }

  /** The windows of the caps are what the count check sees. */
  lemma CountsAgree(cfg: Config, s: State, sid: string, snap: Strategy, day: int)
    requires W.NoneAfter(s.signals, s.clock) && OwnedBy(s.signals, sid, snap.user)
    requires W.IsMidnight(day) && day <= s.clock < day + 86400
    ensures DayStart(s.clock) == day
    ensures SubmittedSince(s, snap.user, day) == W.SubmittedOn(s.signals, snap.user, day)
    ensures (set r | r in SubmittedSince(s, snap.user, day) && r.strategy == sid) == OrdersOn(s.signals, sid, day)
    ensures AttemptsSince(s, snap.user, s.clock - 60) == W.AttemptsIn(s.signals, snap.user, s.clock - 60)
  {
    W.SameDay(day, s.clock);
  }

  /** Main result: a signal is dropped exactly when a cap is reached; otherwise it is suppressed exactly when an order of the
      strategy rests, when it buys on top of something or when it sells nothing; otherwise it is handed on, a BUY for the
      strategy's quantity and a SELL for the smaller of that and what is held. */
  lemma RouteExactly(cfg: Config, s: State, sid: string, snap: Strategy, side: Side, day: int)
    requires W.NoneAfter(s.signals, s.clock) && OwnedBy(s.signals, sid, snap.user)
    requires (day + 5 * 3600 + 30 * 60) % 86400 == 0 && day <= s.clock < day + 86400
    ensures var d, held := Route(cfg, s, sid, snap, side), Exposure(s.db.executions, Linked(s.signals, sid));
      && (d.Limited? <==> Reached(cfg, s, sid, snap, day))
      && (d.Suppress? <==> !d.Limited? && (Rests(s, sid) || if side == Buy then held != 0 else held <= 0))
      && (d.Submit? && side == Buy ==> d.quantity == snap.quantity)
      && (d.Submit? && side == Sell ==>
            d.quantity <= snap.quantity && d.quantity <= held && (d.quantity == snap.quantity || d.quantity == held))
  {
    assert W.IsMidnight(day);
    CountsAgree(cfg, s, sid, snap, day);
    assert HasOpenOrder(s, sid) <==> Rests(s, sid);
    hide HasOpenOrder, Rests, SubmittedSince, AttemptsSince, W.SubmittedOn, W.AttemptsIn, OrdersOn, DayStart, Exposure, Linked,
      W.NoneAfter, OwnedBy;
  }

  /** Orders that do not rest keep what they filled while orders advance. */
  lemma DoneStays(s: State, sid: string, db2: Db, k: OrderKey)
    requires !Rests(s, sid) && R.AdvancesOn(s.db, db2, Linked(s.signals, sid))
    requires k in Linked(s.signals, sid) && k in s.db.orders
    ensures k in db2.orders && Range.Held(db2.orders[k]) == Range.Held(s.db.orders[k])
  {
    hide Linked;
    assert s.db.orders[k].status !in OpenStatuses();
  }

  /** A SELL takes off the exposure what it fills, when it was handed on while nothing else of the strategy was open. */
  lemma ExitTakesOff(s: State, sid: string, s2: State, k: OrderKey)
    requires Good(s.db) && Good(s2.db) && R.AdvancesOn(s.db, s2.db, Linked(s.signals, sid)) && !Rests(s, sid)
    requires forall k2 :: k2 in Linked(s.signals, sid) ==> k2 in s.db.orders
    requires k !in Linked(s.signals, sid) && Linked(s2.signals, sid) == Linked(s.signals, sid) + {k}
    requires k in s2.db.orders && s2.db.orders[k].side == Sell
    ensures Exposure(s2.db.executions, Linked(s2.signals, sid))
         == Exposure(s.db.executions, Linked(s.signals, sid)) - s2.db.orders[k].filled
  {
    hide Good, Rests, Exposure, Linked, R.AdvancesOn, Range.Sum;
    var linked := Linked(s.signals, sid);
    Range.ExposureIsHeld(s.db, linked);
    Range.ExposureIsHeld(s2.db, linked + {k});
    forall k2 | k2 in linked
      ensures k2 in s2.db.orders && Range.Held(s2.db.orders[k2]) == Range.Held(s.db.orders[k2])
    {
      DoneStays(s, sid, s2.db, k2);
    }
    Range.SumMonotone(s.db.orders, s2.db.orders, linked, Range.Held, Range.Held);
    Range.SumMonotone(s2.db.orders, s.db.orders, linked, Range.Held, Range.Held);
    Range.SumLinks(s2.db.orders, linked, Range.Held, k);
  }

  /** Main result: a SELL of a strategy whose quantity covers what it holds closes it: linked and filled whole, it leaves the
      exposure at zero, so that the next BUY is not suppressed. */
  lemma ExitIsFlat(cfg: Config, s: State, sid: string, snap: Strategy, day: int, s2: State, k: OrderKey)
    requires W.NoneAfter(s.signals, s.clock) && OwnedBy(s.signals, sid, snap.user)
    requires (day + 5 * 3600 + 30 * 60) % 86400 == 0 && day <= s.clock < day + 86400
    requires Route(cfg, s, sid, snap, Sell).Submit? && snap.quantity >= Exposure(s.db.executions, Linked(s.signals, sid))
    requires Good(s.db) && Good(s2.db) && R.AdvancesOn(s.db, s2.db, Linked(s.signals, sid))
    requires forall k2 :: k2 in Linked(s.signals, sid) ==> k2 in s.db.orders
    requires k !in Linked(s.signals, sid) && Linked(s2.signals, sid) == Linked(s.signals, sid) + {k}
    requires k in s2.db.orders && s2.db.orders[k].side == Sell
    requires s2.db.orders[k].filled == Route(cfg, s, sid, snap, Sell).quantity
    ensures Exposure(s2.db.executions, Linked(s2.signals, sid)) == 0
  {
    hide Route, Exposure, Linked, Rests, Reached, Good, OwnedBy, W.NoneAfter, R.AdvancesOn;
    RouteExactly(cfg, s, sid, snap, Sell, day);
    ExitTakesOff(s, sid, s2, k);
  }

  // ---------------------------------------------------------------- before the decision

  /** A polled strategy with a run that is STARTED or a signal that is CREATED stops in ERROR; any other is cleared. */
  lemma PollsExactly(cfg: Config, s: State, w: nat, sid: string, snap: Strategy)
    requires Enabled(cfg, s, Poll(w, sid, snap))
    ensures Next(cfg, s, Poll(w, sid, snap))
      == if (exists r :: r in s.runs && r.strategy == sid && s.runs[r] == Started)
            || (exists r :: r in s.signals && r.strategy == sid && s.signals[r].status == Created)
         then s.(strategies := s.strategies[sid := s.strategies[sid].(status := Erroneous)])
         else s.(workers := s.workers[w := Cleared(snap, sid)])
  {
    hide R.Enabled, R.Next;
  }

  /** A candle is claimed once: the first claim makes its run STARTED, any other changes nothing but the worker's memory. */
  lemma ClaimsExactly(cfg: Config, s: State, w: nat, candle: int)
    requires Enabled(cfg, s, Claim(w, candle))
    ensures var run, s2 := RunKey(At(s, w).strategy, candle), Next(cfg, s, Claim(w, candle));
      && s2 == s.(runs := s2.runs, workers := s.workers[w := At(s2, w)])
      && if run in s.runs then s2.runs == s.runs && At(s2, w).Idle?
         else s2.runs == s.runs[run := Started] && At(s2, w) == Claimed(At(s, w).snap, run)
  {
    hide R.Enabled, R.Next;
  }

  /** A run that ends before the decision gets its status and nothing else, and stops its strategy only where it is told to. */
  lemma FinishesExactly(cfg: Config, s: State, w: nat, status: RunStatus, broken: bool)
    requires Enabled(cfg, s, Finish(w, status, broken))
    ensures var run, s2 := At(s, w).run, Next(cfg, s, Finish(w, status, broken));
      && s2 == s.(runs := s.runs[run := status], workers := s.workers[w := Idle], strategies := s2.strategies)
      && s2.strategies.Keys == s.strategies.Keys
      && forall sid :: sid in s.strategies ==>
           s2.strategies[sid] == if broken && sid == run.strategy then s.strategies[sid].(status := Erroneous)
                                 else s.strategies[sid]
  {
    hide R.Enabled, R.Next;
  }

  // ---------------------------------------------------------------- what the decision writes

  /** What a worker that has claimed a candle holds or writes after the decision. */
  lemma DecisionWrites(cfg: Config, s: State, w: nat, side: Side, ready: bool)
    requires Enabled(cfg, s, Decide(w, side, ready))
    ensures var work, s2 := At(s, w), Next(cfg, s, Decide(w, side, ready));
      var d := Route(cfg, s, work.run.strategy, work.snap, side);
      && s2.db == s.db && s2.strategies == s.strategies && s2.sent == s.sent
      && if d.Submit? && ready then
           && s2.runs == s.runs && s2.signals == s.signals && s2.workers[w].Placing?
           && s2.workers[w].run == work.run && s2.workers[w].snap == work.snap
           && var signal := s2.workers[w].signal;
           && signal.side == side && signal.quantity == d.quantity && signal.status == Created && signal.order == None
           && signal.at == s.clock && signal.user == work.snap.user
           && signal.client == ClientId(work.run.strategy, work.run.candle)
         else
           && s2.runs == s.runs[work.run := Skipped] && s2.workers[w].Idle?
           && if !d.Suppress? then s2.signals == s.signals
              else work.run in s2.signals && s2.signals == s.signals[work.run := s2.signals[work.run]]
                   && s2.signals[work.run].status == Suppressed && s2.signals[work.run].side == side
                   && s2.signals[work.run].order == None && s2.signals[work.run].at == s.clock
  {
    DecideNext(cfg, s, Decide(w, side, ready));
    hide Route, ClientId, Next, Enabled;
  }

  /** A live order that is written for a signal is the signal's: its side and quantity, the strategy's instrument and product,
      valid for the day, and priced by the strategy's offset only if the strategy uses limit orders. Nothing is sent yet. */
  lemma SubmissionWrites(cfg: Config, s: State, w: nat, q: Quote, time: real, tickSize: Option<real>, gate: bool,
                         connected: bool, expired: bool)
    requires cfg.trading.mode == LiveMode
    requires At(s, w).Placing? && w in s.workers
    requires Next(cfg, s, Submission(w, Some(q), time, tickSize, gate, connected, expired)).workers[w].Posting?
    ensures var work, s2 := At(s, w), Next(cfg, s, Submission(w, Some(q), time, tickSize, gate, connected, expired));
      var signal, k := work.signal, OrderKey(work.snap.user, work.signal.client);
      && s2.workers[w] == Posting(work.snap, work.run, signal, k)
      && s2.signals == s.signals[work.run := signal] && s2.runs == s.runs && s2.sent == s.sent
      && k !in s.db.orders && k in s2.db.orders
      && var o := s2.db.orders[k];
      && o.mode == Mode.Live && o.status == Pending && o.side == signal.side && o.quantity == signal.quantity
      && o.instrument == work.snap.instrument && o.product == work.snap.product && o.validity == Day
      && o.orderType == work.snap.orderType
      && o.limitPrice == (if work.snap.orderType == Market then None
                          else Some(LimitPrice(work.snap.offsetBps, tickSize, signal.side, q.ltp)))
  {
    var work, step := At(s, w), Submission(w, Some(q), time, tickSize, gate, connected, expired);
    var t := TicketOf(work.snap, work.signal, tickSize, q.ltp);
    SubmissionNext(cfg, s, step);
    hide Next, Enabled, PlaceLive, LimitPrice, DeclineSignal;
    DeclineLeavesIdle(s, w, work);
    if PlaceLive(cfg.trading, gate, connected, s.db, work.snap.user, t, Some(q), time).Inserted? {
      Replies.PlacedPending(cfg.trading, gate, connected, s.db, work.snap.user, t, Some(q), time);
    }
  }

  lemma SubmissionNext(cfg: Config, s: State, step: Step)
    requires step.Submission? && step.quote.Some? && At(s, step.w).Placing?
    ensures Enabled(cfg, s, step) && Next(cfg, s, step) == Submission1(cfg, s, step, At(s, step.w))
  {
    hide Submission1, R.Enabled, R.Next;
  }

  lemma DeclineLeavesIdle(s: State, w: nat, work: Work)
    requires work.Placing? || work.Declining?
    ensures DeclineSignal(s, w, work).workers == s.workers[w := Idle]
  {
  }

  // ---------------------------------------------------------------- refusals and errors

  /** A refused order ends the run as failed and its signal as rejected; a live strategy stops, a paper strategy goes on. */
  lemma RefusalStopsLive(s: State, w: nat, work: Work)
    requires work.Placing? || work.Declining?
    ensures var s2, sid := DeclineSignal(s, w, work), work.run.strategy;
      && s2.runs == s.runs[work.run := RunFailed] && s2.workers == s.workers[w := Idle] && s2.db == s.db
      && work.run in s2.signals && s2.signals == s.signals[work.run := s2.signals[work.run]]
      && s2.signals[work.run] == work.signal.(status := Declined)
      && s2.strategies.Keys == s.strategies.Keys
      && (forall other :: other in s.strategies && other != sid ==> s2.strategies[other] == s.strategies[other])
      && (sid in s.strategies ==>
            s2.strategies[sid] == s.strategies[sid].(status := if work.snap.mode == Mode.Live then Erroneous
                                                               else s.strategies[sid].status))
  {
  }

  /** An unforeseen error stops the strategy in either mode and fails the run, and leaves no trace of an uncommitted signal. */
  lemma BreakStopsAll(s: State, w: nat, work: Work)
    requires InFlight(work)
    ensures var s2, sid := BreakRun(s, w, work), work.run.strategy;
      && s2.runs == s.runs[work.run := RunFailed] && s2.workers == s.workers[w := Idle] && s2.db == s.db
      && s2.signals == s.signals && s2.strategies.Keys == s.strategies.Keys
      && (forall other :: other in s.strategies && other != sid ==> s2.strategies[other] == s.strategies[other])
      && (sid in s.strategies ==> s2.strategies[sid] == s.strategies[sid].(status := Erroneous))
  {
  }

  /** After the commit that gives a signal its order, the signal is ORDER_SUBMITTED with that order and its run has SUCCEEDED. */
  lemma LinkingWrites(s: State, w: nat, work: Work)
    requires work.Linking? && forall r :: r in s.signals ==> s.signals[r].order != Some(work.order)
    ensures var s2 := Link1(s, w, work);
      && s2.runs == s.runs[work.run := Succeeded] && s2.workers == s.workers[w := Idle] && s2.db == s.db
      && s2.strategies == s.strategies && work.run in s2.signals && s2.signals == s.signals[work.run := s2.signals[work.run]]
      && s2.signals[work.run] == work.signal.(status := OrderSubmitted, order := Some(work.order))
  {
  }

  /** A strategy becomes ACTIVE exactly when it was stopped, it is allowed, no run of it is STARTED, no signal of it is CREATED
      and no order of its signals is UNKNOWN; otherwise nothing changes. */
  lemma ActivatesExactly(cfg: Config, s: State, sid: string, allowed: bool)
    requires sid in s.strategies
    ensures var s2 := Next(cfg, s, Activate(sid, allowed));
      if && allowed && s.strategies[sid].status in {Draft, Paused, Erroneous}
         && (forall r :: r in s.runs && r.strategy == sid ==> s.runs[r] != Started)
         && (forall r :: r in s.signals && r.strategy == sid ==> s.signals[r].status != Created)
         && (forall r :: r in s.signals && r.strategy == sid && OrderKey(s.signals[r].user, s.signals[r].client) in s.db.orders
               ==> s.db.orders[OrderKey(s.signals[r].user, s.signals[r].client)].status != Unknown)
      then s2 == s.(strategies := s.strategies[sid := s.strategies[sid].(status := Active)])
      else s2 == s
  {
    hide R.Next, R.Enabled;
  }

  /** An order of one of its signals that is UNKNOWN keeps a strategy from being activated. */
  lemma UnknownBlocks(cfg: Config, s: State, r: RunKey, allowed: bool)
    requires r in s.signals && r.strategy in s.strategies
    requires var k := OrderKey(s.signals[r].user, s.signals[r].client); k in s.db.orders && s.db.orders[k].status == Unknown
    ensures Next(cfg, s, Activate(r.strategy, allowed)) == s
  {
    ActivatesExactly(cfg, s, r.strategy, allowed);
    hide R.Next, R.Enabled, Next, Enabled;
  }

  /** The state after an error of a strategy's POST, and after the rejection that follows it. */
  lemma ErrorSteps(cfg: Config, s: State, w: nat, reply: Reply)
    requires w in s.workers && At(s, w).Awaiting? && At(s, w).order in s.db.orders && reply.BrokerError?
    ensures var work := At(s, w);
      var s1 := s.(db := ReplyPlace(s.db, work.order, reply),
                   workers := s.workers[w := Declining(work.snap, work.run, work.signal)]);
      && Next(cfg, s, Answer(w, reply)) == s1 && Enabled(cfg, s1, Decline(w))
      && Next(cfg, s1, Decline(w)) == DeclineSignal(s1, w, Declining(work.snap, work.run, work.signal))
  {
    hide R.Next, R.Enabled, ReplyPlace, DeclineSignal, Decide1, Submission1, Link1, BreakRun, Edited, Stranded, Ambiguous;
  }

  /** After the broker's error and the rejection that follows it: an order that the broker may have is UNKNOWN and read by the
      next reconciler pass, and the strategy cannot be activated; one that it refused is REJECTED, closed and not read again. */
  ghost predicate Settles(cfg: Config, s: State, sid: string, k: OrderKey, ambiguous: bool, allowed: bool) {
    && k in s.db.orders
    && if ambiguous then
         && s.db.orders[k].status == Unknown
         && k in SelectedLive(s.db, k.user)
         && (sid in s.strategies ==> Next(cfg, s, Activate(sid, allowed)) == s)
       else s.db.orders[k].status == Rejected && s.db.orders[k].completed && k !in SelectedLive(s.db, k.user)
  }

  lemma ErrorSettles(cfg: Config, s: State, w: nat, code: string, ambiguous: bool, allowed: bool)
    requires w in s.workers && At(s, w).Awaiting? && At(s, w).order in s.db.orders
    requires At(s, w).order == OrderKey(At(s, w).signal.user, At(s, w).signal.client)
    requires s.db.orders[At(s, w).order].mode == Mode.Live
    ensures var work, s1 := At(s, w), Next(cfg, s, Answer(w, BrokerError(code, ambiguous)));
      && Enabled(cfg, s1, Decline(w))
      && var s2 := Next(cfg, s1, Decline(w));
      && work.run in s2.signals && s2.signals[work.run].status == Declined
      && work.run in s2.runs && s2.runs[work.run] == RunFailed
      && Settles(cfg, s2, work.run.strategy, work.order, ambiguous, allowed)
  {
    var work, k, reply := At(s, w), At(s, w).order, BrokerError(code, ambiguous);
    var sid, last := work.run.strategy, Declining(work.snap, work.run, work.signal);
    ErrorSteps(cfg, s, w, reply);
    ErrorRow(s.db, k, code, ambiguous);
    hide Next, Enabled, ReplyPlace, SelectedLive;
    var s1 := Next(cfg, s, Answer(w, reply));
    var s2 := DeclineSignal(s1, w, last);
    RefusalStopsLive(s1, w, last);
    hide DeclineSignal;
    if ambiguous && sid in s2.strategies {
      UnknownBlocks(cfg, s2, work.run, allowed);
    }
  }

  lemma ErrorRow(db: Db, k: OrderKey, code: string, ambiguous: bool)
    requires k in db.orders && db.orders[k].mode == Mode.Live
    ensures var db2 := ReplyPlace(db, k, BrokerError(code, ambiguous));
      && k in db2.orders
      && if ambiguous then db2.orders[k].status == Unknown && k in SelectedLive(db2, k.user)
         else db2.orders[k].status == Rejected && db2.orders[k].completed && k !in SelectedLive(db2, k.user)
  {
  }

  /** Main result, with any number of workers: in whatever run, when the answer to a strategy's POST leaves the result open, the
      order becomes UNKNOWN and stays in the reconciler's sight, the signal is rejected, and nobody can activate the strategy
      while the order is UNKNOWN; when the broker refuses, the order is closed and does not stand in the way. */
  lemma EveryOpenResultBlocks(
      cfg: Config, strategies: map<string, Strategy>, workers: set<nat>, steps: seq<Step>, w: nat, code: string,
      ambiguous: bool, allowed: bool)
    requires At(After(cfg, Initial(strategies, workers), steps), w).Awaiting?
    ensures var s := After(cfg, Initial(strategies, workers), steps);
      var work, s1 := At(s, w), Next(cfg, s, Answer(w, BrokerError(code, ambiguous)));
      && Enabled(cfg, s1, Decline(w))
      && Settles(cfg, Next(cfg, s1, Decline(w)), work.run.strategy, work.order, ambiguous, allowed)
  {
    var s := After(cfg, Initial(strategies, workers), steps);
    A.EveryRunIsSafe(cfg, strategies, workers, steps);
    hide After, Settles, Next, Enabled;
    AwaitingRow(s, w);
    ErrorSettles(cfg, s, w, code, ambiguous, allowed);
  }

  lemma AwaitingRow(s: State, w: nat)
    requires A.Safe(s) && A.Asked(s) && At(s, w).Awaiting?
    ensures w in s.workers && At(s, w).order in s.db.orders && s.db.orders[At(s, w).order].mode == Mode.Live
    ensures At(s, w).order == OrderKey(At(s, w).signal.user, At(s, w).signal.client)
  {
    assert A.AskedBy(s.workers[w]);
    hide Good;
  }
}
