/** Any number of workers, crashes anywhere: each (strategy, candle) sends at most one order. */
module AtMostOnce {
  import opened Ledger
  import opened Options
  import opened Paper
  import opened Live
  import opened Reconcile
  import opened Protocol
  import R = Runs

  /** Rows a worker needs before it may send: no entry of `sent` is for its run. */
  predicate Unsent(work: Work) {
    work.Claimed? || work.Placing? || work.Posting?
  }

  /** Every run in flight is durably STARTED and has one worker. */
  ghost predicate Owned(s: State) {
    && (forall w :: w in s.workers && InFlight(s.workers[w]) ==>
          s.workers[w].run in s.runs && s.runs[s.workers[w].run] == Started)
    && (forall w, v :: w in s.workers && v in s.workers && w != v && InFlight(s.workers[w]) && InFlight(s.workers[v]) ==>
          s.workers[w].run != s.workers[v].run)
  }

  /** A POST about to be sent has its durable order row and CREATED signal, and its order is no one else's. */
  ghost predicate Prepared(s: State) {
    && (forall w :: w in s.workers && (s.workers[w].Posting? || s.workers[w].Awaiting?) ==>
          s.workers[w].order in s.db.orders && s.db.orders[s.workers[w].order].mode == Mode.Live)
    && (forall w :: w in s.workers && s.workers[w].Posting? ==>
          s.workers[w].run in s.signals && s.signals[s.workers[w].run].status == Created)
    && (forall w, v :: w in s.workers && v in s.workers && w != v && s.workers[w].Posting? && s.workers[v].Posting? ==>
          s.workers[w].order != s.workers[v].order)
  }

  ghost predicate SentOnce(s: State) {
    && (forall i :: 0 <= i < |s.sent| ==> s.sent[i].run in s.runs && s.sent[i].order in s.db.orders)
    && (forall i, j :: 0 <= i < j < |s.sent| ==> s.sent[i].run != s.sent[j].run && s.sent[i].order != s.sent[j].order)
    && (forall i, w :: 0 <= i < |s.sent| && w in s.workers && Unsent(s.workers[w]) ==> s.sent[i].run != s.workers[w].run)
    && (forall i, w :: 0 <= i < |s.sent| && w in s.workers && s.workers[w].Posting? ==> s.sent[i].order != s.workers[w].order)
  }

  ghost predicate Safe(s: State) {
    Good(s.db) && Owned(s) && Prepared(s) && SentOnce(s)
  }

  /** The order table only grows, and no order changes between paper and live. */
  ghost predicate RowsStay(db: Db, db2: Db) {
    forall k :: k in db.orders ==> k in db2.orders && db2.orders[k].mode == db.orders[k].mode
  }

  /** Replacing the trading tables by a later version of them. */
  lemma DbMoves(s: State, db2: Db)
    requires Safe(s) && Good(db2) && RowsStay(s.db, db2)
    ensures Safe(s.(db := db2))
  {
    hide Good;
  }

  /** Only the rows of one worker's run may have changed. */
  ghost predicate OwnRunOnly(s: State, w: nat, s2: State) {
    && w in s.workers && s2.db == s.db && s2.sent == s.sent
    && (forall r :: r in s.runs ==> r in s2.runs)
    && (forall r :: r in s.runs && !(InFlight(s.workers[w]) && r == s.workers[w].run) ==> s2.runs[r] == s.runs[r])
    && (forall r :: !(InFlight(s.workers[w]) && r == s.workers[w].run) ==>
          (r in s2.signals <==> r in s.signals) && (r in s.signals ==> s2.signals[r] == s.signals[r]))
  }

  lemma DropOwned(s: State, w: nat, s2: State)
    requires Owned(s) && OwnRunOnly(s, w, s2) && s2.workers == s.workers[w := Idle]
    ensures Owned(s2)
  {
  }

  lemma DropPrepared(s: State, w: nat, s2: State)
    requires Owned(s) && Prepared(s) && OwnRunOnly(s, w, s2) && s2.workers == s.workers[w := Idle]
    ensures Prepared(s2)
  {
  }

  lemma DropSent(s: State, w: nat, s2: State)
    requires SentOnce(s) && OwnRunOnly(s, w, s2) && s2.workers == s.workers[w := Idle]
    ensures SentOnce(s2)
  {
  }

  /** A worker that drops what it holds, whatever it writes on its own run. */
  lemma WorkerDrops(s: State, w: nat, s2: State)
    requires Safe(s) && OwnRunOnly(s, w, s2) && s2.workers == s.workers[w := Idle]
    ensures Safe(s2)
  {
    DropOwned(s, w, s2);
    DropPrepared(s, w, s2);
    DropSent(s, w, s2);
    hide Good, Owned, Prepared, SentOnce;
  }

  /** An idle worker clears a strategy: nothing durable changes. */
  lemma ClearSafe(s: State, w: nat, snap: Strategy, sid: string)
    requires Safe(s) && w in s.workers && s.workers[w].Idle?
    ensures Safe(Put(s, w, Cleared(snap, sid)))
  {
    hide Good;
  }

  lemma SameTablesSafe(s: State, s2: State)
    requires Safe(s) && s2.db == s.db && s2.sent == s.sent && s2.workers == s.workers
    requires s2.runs == s.runs && s2.signals == s.signals
    ensures Safe(s2)
  {
    hide Good;
  }

  lemma PollSafe(cfg: Config, s: State, step: Step)
    requires Safe(s) && Enabled(cfg, s, step) && step.Poll?
    ensures Safe(Next(cfg, s, step))
  {
    hide Safe, Stranded;
    if Stranded(s, step.strategy) {
      SameTablesSafe(s, Next(cfg, s, step));
    } else {
      ClearSafe(s, step.w, step.snap, step.strategy);
    }
  }

  /** A run that was in no table is claimed by one worker. */
  lemma FreshRunSafe(s: State, w: nat, snap: Strategy, run: RunKey)
    requires Safe(s) && w in s.workers && !InFlight(s.workers[w]) && run !in s.runs
    ensures Safe(Put(s.(runs := s.runs[run := Started]), w, Claimed(snap, run)))
  {
    FreshOwned(s, w, snap, run);
    FreshSent(s, w, snap, run);
    hide Good, Owned, SentOnce;
  }

  lemma FreshOwned(s: State, w: nat, snap: Strategy, run: RunKey)
    requires Owned(s) && w in s.workers && run !in s.runs
    ensures Owned(Put(s.(runs := s.runs[run := Started]), w, Claimed(snap, run)))
  {
  }

  lemma FreshSent(s: State, w: nat, snap: Strategy, run: RunKey)
    requires SentOnce(s) && w in s.workers && run !in s.runs
    ensures SentOnce(Put(s.(runs := s.runs[run := Started]), w, Claimed(snap, run)))
  {
  }

  lemma ClaimSafe(cfg: Config, s: State, step: Step)
    requires Safe(s) && Enabled(cfg, s, step) && step.Claim?
    ensures Safe(Next(cfg, s, step))
  {
    hide Safe;
    var run := RunKey(At(s, step.w).strategy, step.candle);
    if run in s.runs {
      WorkerDrops(s, step.w, Next(cfg, s, step));
    } else {
      FreshRunSafe(s, step.w, At(s, step.w).snap, run);
    }
  }

  lemma StagedSafe(s: State, w: nat, work: Work)
    requires Safe(s) && w in s.workers && s.workers[w].Claimed? && work.Placing? && work.run == s.workers[w].run
    ensures Safe(Put(s, w, work))
  {
    hide Good;
  }

  lemma DecideSafe(cfg: Config, s: State, step: Step)
    requires Safe(s) && Enabled(cfg, s, step) && step.Decide?
    ensures Safe(Next(cfg, s, step))
  {
    hide Safe, Route, ClientId, Next, Enabled;
    DecideNext(cfg, s, step);
    var s2, work := Next(cfg, s, step), At(s, step.w);
    match Route(cfg, s, work.run.strategy, work.snap, step.side)
    case Limited => WorkerDrops(s, step.w, s2);
    case Suppress => WorkerDrops(s, step.w, s2);
    case Submit(_) =>
      if step.ready {
        StagedSafe(s, step.w, s2.workers[step.w]);
      } else {
        WorkerDrops(s, step.w, s2);
      }
  }

  lemma PlaceGood(cfg: Settings, db: Db, user: string, t: Ticket, quote: Option<Quote>, now: real, gate: bool, connected: bool)
    requires Good(db) && t.quantity >= 1
    ensures var r := PlaceLive(cfg, gate, connected, db, user, t, quote, now);
      r.Inserted? ==>
        && Good(r.db) && RowsStay(db, r.db)
        && OrderKey(user, t.client) !in db.orders && OrderKey(user, t.client) in r.db.orders
        && (cfg.mode != PaperMode ==> r.db.orders[OrderKey(user, t.client)].mode == Mode.Live)
  {
    var step := R.Place(user, t, quote, now, gate, connected);
    R.StepKeepsGood(cfg, db, step);
    R.StepKeepsRows(cfg, db, step);
    PlaceKeepsRules(cfg, db, user, t, quote, now);
    hide Good, PlacePaper, RiskCheck, QuoteCheck, Sound, PaperRules;
  }

  lemma SubmissionSafe(cfg: Config, s: State, step: Step)
    requires Safe(s) && Enabled(cfg, s, step) && step.Submission? && At(s, step.w).signal.quantity >= 1
    requires At(s, step.w).signal.status == Created
    ensures Safe(Next(cfg, s, step))
  {
    hide Safe, Submission1, R.Enabled, R.Next, Decide1, Link1, Stranded, Ambiguous, ReplyPlace, BreakRun, DeclineSignal;
    SubmittedSafe(cfg, s, step, At(s, step.w));
  }

  lemma SubmittedSafe(cfg: Config, s: State, step: Step, work: Work)
    requires Safe(s) && step.Submission? && step.quote.Some? && step.w in s.workers && s.workers[step.w] == work
    requires work.Placing? && work.signal.quantity >= 1 && work.signal.status == Created
    ensures Safe(Submission1(cfg, s, step, work))
  {
    hide Good, PlaceLive, TicketOf, Owned, Prepared, SentOnce, DeclineSignal;
    var t, s2 := TicketOf(work.snap, work.signal, step.tickSize, step.quote.value.ltp), Submission1(cfg, s, step, work);
    TicketShape(work.snap, work.signal, step.tickSize, step.quote.value.ltp);
    PlaceGood(cfg.trading, s.db, work.snap.user, t, step.quote, step.time, step.gate, step.connected);
    match PlaceLive(cfg.trading, step.gate, step.connected, s.db, work.snap.user, t, step.quote, step.time)
    case Inserted(db2) => InsertSafe(cfg, s, step.w, db2, OrderKey(work.snap.user, t.client), s2);
    case Existing => HoldSafe(s, step.w, s2);
    case Refused(error) =>
      if error == ConnectionRequired && step.expired {
        HoldSafe(s, step.w, s2);
      } else {
        DeclinedSafe(s, step.w);
      }
  }

  lemma DeclinedSafe(s: State, w: nat)
    requires Safe(s) && w in s.workers && s.workers[w].Placing?
    ensures Safe(DeclineSignal(s, w, s.workers[w]))
  {
    hide Safe;
    WorkerDrops(s, w, DeclineSignal(s, w, s.workers[w]));
  }

  lemma TicketShape(snap: Strategy, signal: Signal, tickSize: Option<real>, reference: real)
    ensures var t := TicketOf(snap, signal, tickSize, reference);
      t.quantity == signal.quantity && t.client == signal.client && t.side == signal.side
  {
    hide LimitPrice;
  }

  /** A worker moves on to a later stage that no longer sends, having written only its own signal. */
  lemma HoldSafe(s: State, w: nat, s2: State)
    requires Safe(s) && w in s.workers && InFlight(s.workers[w]) && s2.db == s.db && s2.sent == s.sent && s2.runs == s.runs
    requires w in s2.workers && s2.workers == s.workers[w := s2.workers[w]]
    requires (s2.workers[w].Linking? || s2.workers[w].Declining?) && s2.workers[w].run == s.workers[w].run
    requires forall r :: r != s.workers[w].run ==>
      (r in s2.signals <==> r in s.signals) && (r in s.signals ==> s2.signals[r] == s.signals[r])
    ensures Safe(s2)
  {
    HoldOwned(s, w, s2);
    HoldPrepared(s, w, s2);
    HoldSent(s, w, s2);
    hide Good, Owned, Prepared, SentOnce;
  }

  lemma HoldPrepared(s: State, w: nat, s2: State)
    requires Owned(s) && Prepared(s) && w in s.workers && InFlight(s.workers[w]) && s2.db == s.db
    requires w in s2.workers && s2.workers == s.workers[w := s2.workers[w]] && (s2.workers[w].Linking? || s2.workers[w].Declining?)
    requires forall r :: r != s.workers[w].run ==>
      (r in s2.signals <==> r in s.signals) && (r in s.signals ==> s2.signals[r] == s.signals[r])
    ensures Prepared(s2)
  {
  }

  lemma HoldSent(s: State, w: nat, s2: State)
    requires SentOnce(s) && w in s.workers && InFlight(s.workers[w]) && s2.db == s.db && s2.sent == s.sent && s2.runs == s.runs
    requires w in s2.workers && s2.workers == s.workers[w := s2.workers[w]] && (s2.workers[w].Linking? || s2.workers[w].Declining?)
    ensures SentOnce(s2)
  {
  }

  lemma HoldOwned(s: State, w: nat, s2: State)
    requires Owned(s) && w in s.workers && InFlight(s.workers[w]) && s2.runs == s.runs
    requires w in s2.workers && s2.workers == s.workers[w := s2.workers[w]] && (s2.workers[w].Linking? || s2.workers[w].Declining?)
    requires s2.workers[w].run == s.workers[w].run
    ensures Owned(s2)
  {
  }

  lemma InsertSafe(cfg: Config, s: State, w: nat, db2: Db, k: OrderKey, s2: State)
    requires Safe(s) && w in s.workers && s.workers[w].Placing? && s.workers[w].signal.status == Created
    requires Good(db2) && RowsStay(s.db, db2) && k !in s.db.orders && k in db2.orders
    requires s2.db == db2 && s2.runs == s.runs && s2.signals == s.signals[s.workers[w].run := s.workers[w].signal]
    requires cfg.trading.mode == PaperMode ==>
      s2.sent == s.sent + [Sent(s.workers[w].run, k)]
      && s2.workers == s.workers[w := Linking(s.workers[w].snap, s.workers[w].run, s.workers[w].signal, k)]
    requires cfg.trading.mode != PaperMode ==>
      s2.sent == s.sent && db2.orders[k].mode == Mode.Live
      && s2.workers == s.workers[w := Posting(s.workers[w].snap, s.workers[w].run, s.workers[w].signal, k)]
    ensures Safe(s2)
  {
    hide Safe;
    if cfg.trading.mode == PaperMode {
      PaperInsertSafe(s, w, db2, k, s2);
    } else {
      LiveInsertSafe(s, w, db2, k, s2);
    }
  }

  lemma PaperInsertSafe(s: State, w: nat, db2: Db, k: OrderKey, s2: State)
    requires Safe(s) && w in s.workers && s.workers[w].Placing?
    requires Good(db2) && RowsStay(s.db, db2) && k !in s.db.orders && k in db2.orders
    requires s2.db == db2 && s2.runs == s.runs && s2.signals == s.signals[s.workers[w].run := s.workers[w].signal]
    requires s2.sent == s.sent + [Sent(s.workers[w].run, k)]
    requires s2.workers == s.workers[w := Linking(s.workers[w].snap, s.workers[w].run, s.workers[w].signal, k)]
    ensures Safe(s2)
  {
    InsertSent(s, w, k, s2);
    InsertOwned(s, w, s2);
    PaperPrepared(s, w, k, s2);
    hide Good, SentOnce, Owned, Prepared;
  }

  lemma PaperPrepared(s: State, w: nat, k: OrderKey, s2: State)
    requires Owned(s) && Prepared(s) && w in s.workers && s.workers[w].Placing? && RowsStay(s.db, s2.db)
    requires s2.signals == s.signals[s.workers[w].run := s.workers[w].signal]
    requires s2.workers == s.workers[w := Linking(s.workers[w].snap, s.workers[w].run, s.workers[w].signal, k)]
    ensures Prepared(s2)
  {
  }

  lemma InsertSent(s: State, w: nat, k: OrderKey, s2: State)
    requires Owned(s) && SentOnce(s) && w in s.workers && s.workers[w].Placing?
    requires RowsStay(s.db, s2.db) && k !in s.db.orders && k in s2.db.orders && s2.runs == s.runs
    requires s2.sent == s.sent + [Sent(s.workers[w].run, k)]
    requires s2.workers == s.workers[w := Linking(s.workers[w].snap, s.workers[w].run, s.workers[w].signal, k)]
    requires Prepared(s)
    ensures SentOnce(s2)
  {
    AppendSent(s, s2, Sent(s.workers[w].run, k));
  }

  lemma InsertOwned(s: State, w: nat, s2: State)
    requires Owned(s) && w in s.workers && InFlight(s.workers[w]) && s2.runs == s.runs
    requires w in s2.workers && s2.workers == s.workers[w := s2.workers[w]] && InFlight(s2.workers[w])
    requires s2.workers[w].run == s.workers[w].run
    ensures Owned(s2)
  {
  }

  lemma AppendSent(s: State, s2: State, p: Sent)
    requires SentOnce(s) && s2.sent == s.sent + [p]
    requires (forall r :: r in s.runs ==> r in s2.runs) && (forall k :: k in s.db.orders ==> k in s2.db.orders)
    requires p.run in s2.runs && p.order in s2.db.orders
    requires forall i :: 0 <= i < |s.sent| ==> s.sent[i].run != p.run && s.sent[i].order != p.order
    requires forall w :: w in s2.workers && Unsent(s2.workers[w]) ==>
      w in s.workers && s2.workers[w] == s.workers[w] && s2.workers[w].run != p.run
      && (s2.workers[w].Posting? ==> s2.workers[w].order != p.order)
    ensures SentOnce(s2)
  {
  }

  lemma LiveInsertSafe(s: State, w: nat, db2: Db, k: OrderKey, s2: State)
    requires Safe(s) && w in s.workers && s.workers[w].Placing? && s.workers[w].signal.status == Created
    requires Good(db2) && RowsStay(s.db, db2) && k !in s.db.orders && k in db2.orders && db2.orders[k].mode == Mode.Live
    requires s2.db == db2 && s2.runs == s.runs && s2.signals == s.signals[s.workers[w].run := s.workers[w].signal]
    requires s2.sent == s.sent
    requires s2.workers == s.workers[w := Posting(s.workers[w].snap, s.workers[w].run, s.workers[w].signal, k)]
    ensures Safe(s2)
  {
    InsertOwned(s, w, s2);
    LivePrepared(s, w, db2, k, s2);
    LiveSent(s, w, k, s2);
    hide Good, Owned, SentOnce, Prepared;
  }

  lemma LivePrepared(s: State, w: nat, db2: Db, k: OrderKey, s2: State)
    requires Owned(s) && Prepared(s) && w in s.workers && s.workers[w].Placing? && s.workers[w].signal.status == Created
    requires RowsStay(s.db, db2) && k !in s.db.orders && k in db2.orders && db2.orders[k].mode == Mode.Live
    requires s2.db == db2 && s2.signals == s.signals[s.workers[w].run := s.workers[w].signal]
    requires s2.workers == s.workers[w := Posting(s.workers[w].snap, s.workers[w].run, s.workers[w].signal, k)]
    ensures Prepared(s2)
  {
  }

  lemma LiveSent(s: State, w: nat, k: OrderKey, s2: State)
    requires SentOnce(s) && w in s.workers && s.workers[w].Placing?
    requires RowsStay(s.db, s2.db) && k !in s.db.orders && s2.runs == s.runs && s2.sent == s.sent
    requires s2.workers == s.workers[w := Posting(s.workers[w].snap, s.workers[w].run, s.workers[w].signal, k)]
    ensures SentOnce(s2)
  {
  }

  lemma PostedSafe(s: State, w: nat, s2: State)
    requires Safe(s) && w in s.workers && s.workers[w].Posting? && s2.db == s.db && s2.runs == s.runs
    requires s2.signals == s.signals && s2.sent == s.sent + [Sent(s.workers[w].run, s.workers[w].order)]
    requires s2.workers
      == s.workers[w := Awaiting(s.workers[w].snap, s.workers[w].run, s.workers[w].signal, s.workers[w].order)]
    ensures Safe(s2)
  {
    hide Good;
    AppendSent(s, s2, Sent(s.workers[w].run, s.workers[w].order));
    hide SentOnce;
  }

  lemma PostSafe(cfg: Config, s: State, step: Step)
    requires Safe(s) && Enabled(cfg, s, step) && step.Post?
    ensures Safe(Next(cfg, s, step))
  {
    hide Safe;
    PostedSafe(s, step.w, Next(cfg, s, step));
  }

  lemma AnswerSafe(cfg: Config, s: State, step: Step)
    requires Safe(s) && Enabled(cfg, s, step) && step.Answer?
    ensures Safe(Next(cfg, s, step))
  {
    hide Good, PlaceReplied;
    var work := At(s, step.w);
    var t := R.PlaceAnswer(work.order, step.reply);
    R.StepKeepsGood(cfg.trading, s.db, t);
    R.StepKeepsRows(cfg.trading, s.db, t);
    DbMoves(s, ReplyPlace(s.db, work.order, step.reply));
    hide Safe;
    HoldSafe(s.(db := ReplyPlace(s.db, work.order, step.reply)), step.w, Next(cfg, s, step));
  }

  /** Signals in memory ask for at least one unit, are CREATED and not yet linked, and belong to the strategy's user; the order a
      worker holds is the one with its signal's client id. */
  ghost predicate AskedBy(work: Work) {
    if work.Idle? then true
    else if work.Cleared? || work.Claimed? then work.snap.quantity >= 1
    else
      && work.signal.quantity >= 1 && work.signal.status == Created && work.signal.order.None?
      && work.signal.user == work.snap.user
      && (work.Posting? || work.Awaiting? || work.Linking? ==> work.order == OrderKey(work.signal.user, work.signal.client))
  }

  ghost predicate Asked(s: State) {
    forall w :: w in s.workers ==> AskedBy(s.workers[w])
  }

  lemma DecideAsks(cfg: Config, s: State, step: Step)
    requires Asked(s) && Enabled(cfg, s, step) && step.Decide?
    ensures Asked(Next(cfg, s, step))
  {
    hide Next, Enabled;
    DecideNext(cfg, s, step);
    var s2 := Next(cfg, s, step);
    assert AskedBy(s2.workers[step.w]) by {
      hide ClientId, Exposure, SubmittedSince, AttemptsSince, HasOpenOrder;
    }
    hide Route, ClientId;
    PutAsks(s, step.w, s2);
  }

  lemma PutAsks(s: State, w: nat, s2: State)
    requires Asked(s) && w in s2.workers && AskedBy(s2.workers[w]) && s2.workers == s.workers[w := s2.workers[w]]
    ensures Asked(s2)
  {
    hide AskedBy;
  }

  lemma AskedStays(cfg: Config, s: State, step: Step)
    requires Asked(s) && Enabled(cfg, s, step)
    ensures Asked(Next(cfg, s, step))
  {
    hide Asked, Next, Enabled;
    match step
    case Decide(_, _, _) => DecideAsks(cfg, s, step);
    case Submission(_, _, _, _, _, _, _) => SubmissionAsks(cfg, s, step);
    case Answer(_, _) => AnswerAsks(cfg, s, step);
    case Poll(_, _, _) => EarlyAsks(cfg, s, step);
    case Claim(_, _) => EarlyAsks(cfg, s, step);
    case Post(_) => EarlyAsks(cfg, s, step);
    case Finish(_, _, _) => DropAsks(cfg, s, step);
    case Decline(_) => DropAsks(cfg, s, step);
    case Link(_) => DropAsks(cfg, s, step);
    case Break(_) => DropAsks(cfg, s, step);
    case Crash(_) => DropAsks(cfg, s, step);
    case _ => UserAsks(cfg, s, step);
  }

  lemma EarlyAsks(cfg: Config, s: State, step: Step)
    requires Asked(s) && Enabled(cfg, s, step) && (step.Poll? || step.Claim? || step.Post?)
    ensures Asked(Next(cfg, s, step))
  {
    AskedOne(s, step.w);
    hide Asked, Stranded;
    if step.Poll? && Stranded(s, step.strategy) {
      SameWorkersAsk(s, Next(cfg, s, step));
    } else {
      PutAsks(s, step.w, Next(cfg, s, step));
    }
  }

  lemma SubmissionAsks(cfg: Config, s: State, step: Step)
    requires Asked(s) && Enabled(cfg, s, step) && step.Submission?
    ensures Asked(Next(cfg, s, step))
  {
    AskedOne(s, step.w);
    SubmittedShape(cfg, s, step, At(s, step.w));
    SubmittedOrder(cfg, s, step, At(s, step.w));
    hide Asked, Submission1, R.Enabled, R.Next, Decide1, Link1, Stranded, Ambiguous, ReplyPlace, BreakRun, DeclineSignal;
    PutAsks(s, step.w, Next(cfg, s, step));
  }

  /** A submission leaves the worker idle, or a stage further with the same signal. */
  lemma SubmittedShape(cfg: Config, s: State, step: Step, work: Work)
    requires step.Submission? && step.quote.Some? && step.w in s.workers && s.workers[step.w] == work && work.Placing?
    ensures var s2 := Submission1(cfg, s, step, work);
      && step.w in s2.workers && s2.workers == s.workers[step.w := s2.workers[step.w]]
      && (s2.workers[step.w].Idle?
          || (InFlight(s2.workers[step.w]) && !s2.workers[step.w].Claimed? && s2.workers[step.w].signal == work.signal))
  {
    hide PlaceLive, TicketOf, DeclineSignal;
    DeclineIdles(s, step.w);
    var t := TicketOf(work.snap, work.signal, step.tickSize, step.quote.value.ltp);
    match PlaceLive(cfg.trading, step.gate, step.connected, s.db, work.snap.user, t, step.quote, step.time)
    case Inserted(_) =>
    case Existing =>
    case Refused(_) =>
  }

  /** The order that a submission leaves in the worker's memory is the one with the signal's client id. */
  lemma SubmittedOrder(cfg: Config, s: State, step: Step, work: Work)
    requires step.Submission? && step.quote.Some? && step.w in s.workers && s.workers[step.w] == work && work.Placing?
    ensures var workers := Submission1(cfg, s, step, work).workers;
      && step.w in workers
      && (InFlight(workers[step.w]) ==> workers[step.w].snap == work.snap)
      && (workers[step.w].Posting? || workers[step.w].Linking? ==>
            workers[step.w].order == OrderKey(work.snap.user, work.signal.client))
      && !workers[step.w].Awaiting?
  {
    var t := TicketOf(work.snap, work.signal, step.tickSize, step.quote.value.ltp);
    assert t.client == work.signal.client;
    hide PlaceLive, TicketOf, DeclineSignal;
    DeclineIdles(s, step.w);
    var r := PlaceLive(cfg.trading, step.gate, step.connected, s.db, work.snap.user, t, step.quote, step.time);
  }

  lemma DeclineIdles(s: State, w: nat)
    requires w in s.workers && s.workers[w].Placing?
    ensures DeclineSignal(s, w, s.workers[w]).workers == s.workers[w := Idle]
  {
  }

  lemma DropAsks(cfg: Config, s: State, step: Step)
    requires Asked(s) && Enabled(cfg, s, step)
    requires step.Finish? || step.Decline? || step.Link? || step.Break? || step.Crash?
    ensures Asked(Next(cfg, s, step))
  {
    DropsIdle(cfg, s, step);
    hide Asked, Next, Enabled;
    PutAsks(s, step.w, Next(cfg, s, step));
  }

  /** The steps that end a worker's piece of work write its own run and signal only. */
  ghost predicate EndsWork(s: State, w: nat, s2: State) {
    && w in s.workers && s2.db == s.db && s2.sent == s.sent && s2.workers == s.workers[w := Idle]
    && (s2.runs == s.runs
        || (InFlight(s.workers[w]) && s.workers[w].run in s2.runs
            && s2.runs == s.runs[s.workers[w].run := s2.runs[s.workers[w].run]]))
    && (s2.signals == s.signals
        || (InFlight(s.workers[w]) && s.workers[w].run in s2.signals
            && s2.signals == s.signals[s.workers[w].run := s2.signals[s.workers[w].run]]))
  }

  lemma DropsIdle(cfg: Config, s: State, step: Step)
    requires Enabled(cfg, s, step)
    requires step.Finish? || step.Decline? || step.Link? || step.Break? || step.Crash?
    ensures EndsWork(s, step.w, Next(cfg, s, step))
  {
    EndNext(cfg, s, step);
    if step.Link? {
      hide *;
      LinkIdle(s, step.w);
    } else if step.Decline? || step.Break? {
      hide Next, Enabled, Link1;
    } else {
      hide R.Enabled, R.Next, Decide1, Submission1, Stranded, Ambiguous, ReplyPlace, Link1, BreakRun, DeclineSignal;
    }
  }

  lemma LinkIdle(s: State, w: nat)
    requires At(s, w).Linking?
    ensures EndsWork(s, w, Link1(s, w, At(s, w)))
  {
    hide LinkedAnywhere;
  }

  lemma UserAsks(cfg: Config, s: State, step: Step)
    requires Asked(s) && Enabled(cfg, s, step)
    requires step.Wait? || step.Activate? || step.Pause? || step.Update? || step.Trading?
    ensures Asked(Next(cfg, s, step))
  {
    hide Asked, Stranded, Ambiguous, R.Next, R.Enabled;
    SameWorkersAsk(s, Next(cfg, s, step));
  }

  lemma AnswerAsks(cfg: Config, s: State, step: Step)
    requires Asked(s) && Enabled(cfg, s, step) && step.Answer?
    ensures Asked(Next(cfg, s, step))
  {
    hide Asked, PlaceReplied;
    if At(s, step.w).order in s.db.orders {
      AskedOne(s, step.w);
      PutAsks(s, step.w, Next(cfg, s, step));
    }
  }

  lemma AskedOne(s: State, w: nat)
    requires Asked(s) && w in s.workers
    ensures AskedBy(s.workers[w])
  {
  }

  lemma SameWorkersAsk(s: State, s2: State)
    requires Asked(s) && s2.workers == s.workers
    ensures Asked(s2)
  {
  }

  lemma DropSafe(cfg: Config, s: State, step: Step)
    requires Safe(s) && Enabled(cfg, s, step)
    requires step.Finish? || step.Decline? || step.Link? || step.Break? || step.Crash?
    ensures Safe(Next(cfg, s, step))
  {
    hide Safe, Next, Enabled, EndsWork, OwnRunOnly;
    DropsIdle(cfg, s, step);
    EndsOwn(s, step.w, Next(cfg, s, step));
    WorkerDrops(s, step.w, Next(cfg, s, step));
  }

  lemma EndsOwn(s: State, w: nat, s2: State)
    requires EndsWork(s, w, s2)
    ensures OwnRunOnly(s, w, s2) && s2.workers == s.workers[w := Idle]
  {
  }

  lemma UserSafe(cfg: Config, s: State, step: Step)
    requires Safe(s) && Enabled(cfg, s, step)
    requires step.Wait? || step.Activate? || step.Pause? || step.Update?
    ensures Safe(Next(cfg, s, step))
  {
    hide Safe, Stranded, Ambiguous;
    SameTablesSafe(s, Next(cfg, s, step));
  }

  lemma TradingSafe(cfg: Config, s: State, step: Step)
    requires Safe(s) && Enabled(cfg, s, step) && step.Trading?
    ensures Safe(Next(cfg, s, step))
  {
    hide R.Enabled, R.Next;
    R.StepKeepsGood(cfg.trading, s.db, step.step);
    R.StepKeepsRows(cfg.trading, s.db, step.step);
    hide Good;
    DbMoves(s, R.Next(cfg.trading, s.db, step.step));
  }

  lemma StepIsSafe(cfg: Config, s: State, step: Step)
    requires Safe(s) && Asked(s) && Enabled(cfg, s, step)
    ensures Safe(Next(cfg, s, step))
  {
    hide Safe, Next, R.Enabled;
    match step
    case Poll(_, _, _) => PollSafe(cfg, s, step);
    case Claim(_, _) => ClaimSafe(cfg, s, step);
    case Decide(_, _, _) => DecideSafe(cfg, s, step);
    case Submission(_, _, _, _, _, _, _) => SubmissionSafe(cfg, s, step);
    case Post(_) => PostSafe(cfg, s, step);
    case Answer(_, _) => AnswerSafe(cfg, s, step);
    case Trading(_) => TradingSafe(cfg, s, step);
    case Wait(_) => UserSafe(cfg, s, step);
    case Activate(_, _) => UserSafe(cfg, s, step);
    case Pause(_) => UserSafe(cfg, s, step);
    case Update(_, _) => UserSafe(cfg, s, step);
    case _ => DropSafe(cfg, s, step);
  }

  lemma {:induction false} EveryRunIsSafe(cfg: Config, strategies: map<string, Strategy>, workers: set<nat>, steps: seq<Step>)
    ensures Safe(After(cfg, Initial(strategies, workers), steps)) && Asked(After(cfg, Initial(strategies, workers), steps))
    decreases |steps|
  {
    if steps == [] {
      R.EmptyIsGood(cfg.trading);
    } else {
      EveryRunIsSafe(cfg, strategies, workers, steps[..|steps| - 1]);
      hide Safe, Asked, Next, Enabled;
      var s, step := After(cfg, Initial(strategies, workers), steps[..|steps| - 1]), steps[|steps| - 1];
      if Enabled(cfg, s, step) {
        AskedStays(cfg, s, step);
        StepIsSafe(cfg, s, step);
      }
    }
  }

  /** Main result: over all runs, no two orders leave for one (strategy, candle), no order leaves twice,
      and each that left has its durable run claim and its durable order row. */
  lemma AtMostOneOrder(cfg: Config, strategies: map<string, Strategy>, workers: set<nat>, steps: seq<Step>, i: nat, j: nat)
    ensures var s := After(cfg, Initial(strategies, workers), steps);
      && (i < j < |s.sent| ==> s.sent[i].run != s.sent[j].run && s.sent[i].order != s.sent[j].order)
      && (i < |s.sent| ==> s.sent[i].run in s.runs && s.sent[i].order in s.db.orders)
  {
    EveryRunIsSafe(cfg, strategies, workers, steps);
  }

  /** At the moment of a POST the claim, the CREATED signal and the order row are committed, and nothing was sent for
      that run or that order before. */
  lemma PostIsPrepared(cfg: Config, strategies: map<string, Strategy>, workers: set<nat>, steps: seq<Step>, w: nat)
    ensures var s := After(cfg, Initial(strategies, workers), steps);
      Enabled(cfg, s, Post(w)) ==>
        && At(s, w).run in s.runs && s.runs[At(s, w).run] == Started
        && At(s, w).run in s.signals && s.signals[At(s, w).run].status == Created
        && At(s, w).order in s.db.orders
        && forall i :: 0 <= i < |s.sent| ==> s.sent[i].run != At(s, w).run && s.sent[i].order != At(s, w).order
  {
    EveryRunIsSafe(cfg, strategies, workers, steps);
    hide Good;
  }
}
