/** Where an order that left is found again: linked to its signal, or its signal says that something went wrong. */
module Accounted {
  import opened Ledger
  import opened Options
  import opened Paper
  import opened Live
  import opened Protocol
  import opened AtMostOnce
  import Reconcile
  import R = Runs

  /** The signal is linked to the order, or is unresolved (CREATED) or rejected and linked to none. */
  predicate Explains(signal: Signal, k: OrderKey) {
    signal.order == Some(k) || (signal.order.None? && signal.status in {Created, Declined})
  }

  predicate Carries(work: Work) {
    work.Awaiting? || work.Linking?
  }

  ghost predicate Accounted(s: State) {
    && (forall i :: 0 <= i < |s.sent| ==>
          s.sent[i].run in s.signals && Explains(s.signals[s.sent[i].run], s.sent[i].order))
    && (forall i, w :: 0 <= i < |s.sent| && w in s.workers && Carries(s.workers[w]) && s.sent[i].run == s.workers[w].run ==>
          s.sent[i].order == s.workers[w].order)
    && (forall r :: r in s.signals && s.signals[r].status == Created ==> s.signals[r].order.None?)
  }

  /** Workers and signals may change as long as signals that were sent for keep explaining, and no one takes up a sent run. */
  lemma QuietStep(s: State, s2: State, w: nat)
    requires Accounted(s) && s2.sent == s.sent && s2.signals == s.signals
    requires s2.workers == s.workers || (w in s2.workers && s2.workers == s.workers[w := s2.workers[w]]
                                         && !Carries(s2.workers[w]))
    ensures Accounted(s2)
  {
    hide Explains;
  }

  /** A worker writes the signal of its own run and lets go of it. */
  lemma OwnSignalStep(s: State, s2: State, w: nat, signal: Signal)
    requires Accounted(s) && w in s.workers && InFlight(s.workers[w]) && s2.sent == s.sent
    requires s2.signals == s.signals[s.workers[w].run := signal]
    requires w in s2.workers && s2.workers == s.workers[w := s2.workers[w]]
    requires Carries(s2.workers[w]) ==> s2.workers[w].run == s.workers[w].run
    requires Carries(s2.workers[w]) ==>
      forall i :: 0 <= i < |s.sent| && s.sent[i].run == s.workers[w].run ==> s.sent[i].order == s2.workers[w].order
    requires signal.status == Created ==> signal.order.None?
    requires forall i :: 0 <= i < |s.sent| && s.sent[i].run == s.workers[w].run ==> Explains(signal, s.sent[i].order)
    ensures Accounted(s2)
  {
    hide Explains;
  }

  lemma UnsentRun(s: State, w: nat)
    requires Safe(s) && w in s.workers && Unsent(s.workers[w])
    ensures forall i :: 0 <= i < |s.sent| ==> s.sent[i].run != s.workers[w].run
  {
    hide Reconcile.Good, Owned, Prepared;
  }

  lemma OwnRunAlone(s: State, w: nat)
    requires Safe(s) && w in s.workers && InFlight(s.workers[w])
    ensures forall v :: v in s.workers && v != w && InFlight(s.workers[v]) ==> s.workers[v].run != s.workers[w].run
  {
    hide Reconcile.Good, Prepared, SentOnce;
  }

  lemma DecideAccounts(cfg: Config, s: State, w: nat, side: Side, ready: bool)
    requires Accounted(s) && Safe(s) && w in s.workers && s.workers[w].Claimed?
    ensures Accounted(Decide1(cfg, s, Decide(w, side, ready), s.workers[w]))
  {
    hide Safe, Accounted, Route, ClientId;
    UnsentRun(s, w);
    var work, s2 := s.workers[w], Decide1(cfg, s, Decide(w, side, ready), s.workers[w]);
    match Route(cfg, s, work.run.strategy, work.snap, side)
    case Limited => QuietStep(s, s2, w);
    case Suppress => OwnSignalStep(s, s2, w, s2.signals[work.run]);
    case Submit(_) => QuietStep(s, s2, w);
  }

  lemma SubmissionAccounts(cfg: Config, s: State, step: Step, work: Work)
    requires Accounted(s) && Safe(s) && Asked(s) && step.Submission? && step.quote.Some?
    requires step.w in s.workers && s.workers[step.w] == work && work.Placing?
    ensures Accounted(Submission1(cfg, s, step, work))
  {
    hide Safe, Accounted, Asked, PlaceLive, TicketOf;
    UnsentRun(s, step.w);
    AskedOne(s, step.w);
    var s2, w := Submission1(cfg, s, step, work), step.w;
    var t := TicketOf(work.snap, work.signal, step.tickSize, step.quote.value.ltp);
    match PlaceLive(cfg.trading, step.gate, step.connected, s.db, work.snap.user, t, step.quote, step.time)
    case Inserted(_) =>
      InsertAccounts(cfg, s, s2, w, OrderKey(work.snap.user, t.client));
    case Existing => CarryStep(s, s2, w);
    case Refused(error) =>
      if error == ConnectionRequired && step.expired {
        OwnSignalStep(s, s2, w, work.signal);
      } else {
        OwnSignalStep(s, s2, w, work.signal.(status := Declined));
      }
  }

  lemma InsertAccounts(cfg: Config, s: State, s2: State, w: nat, k: OrderKey)
    requires Accounted(s) && Safe(s) && Asked(s) && w in s.workers && s.workers[w].Placing?
    requires s2.signals == s.signals[s.workers[w].run := s.workers[w].signal]
    requires cfg.trading.mode == PaperMode ==>
      s2.sent == s.sent + [Sent(s.workers[w].run, k)]
      && s2.workers == s.workers[w := Linking(s.workers[w].snap, s.workers[w].run, s.workers[w].signal, k)]
    requires cfg.trading.mode != PaperMode ==>
      s2.sent == s.sent
      && s2.workers == s.workers[w := Posting(s.workers[w].snap, s.workers[w].run, s.workers[w].signal, k)]
    ensures Accounted(s2)
  {
    hide Safe, Accounted, Asked;
    var work := s.workers[w];
    UnsentRun(s, w);
    AskedOne(s, w);
    var mid := s2.(sent := s.sent, workers := s.workers[w := Posting(work.snap, work.run, work.signal, k)]);
    OwnSignalStep(s, mid, w, work.signal);
    if cfg.trading.mode == PaperMode {
      OwnRunAlone(s, w);
      SendStep(mid, s2, w, Sent(work.run, k));
    }
  }

  /** An order leaves for a CREATED signal, with nothing sent for that run before. */
  lemma SendStep(s: State, s2: State, w: nat, p: Sent)
    requires Accounted(s) && s2.sent == s.sent + [p] && s2.signals == s.signals
    requires p.run in s.signals && s.signals[p.run].status == Created
    requires w in s2.workers && s2.workers == s.workers[w := s2.workers[w]]
    requires Carries(s2.workers[w]) && s2.workers[w].run == p.run && s2.workers[w].order == p.order
    requires forall i :: 0 <= i < |s.sent| ==> s.sent[i].run != p.run
    requires forall v :: v in s.workers && v != w && Carries(s.workers[v]) ==> s.workers[v].run != p.run
    ensures Accounted(s2)
  {
  }

  lemma CarryStep(s: State, s2: State, w: nat)
    requires Accounted(s) && s2.sent == s.sent && s2.signals == s.signals && w in s2.workers
    requires s2.workers == s.workers[w := s2.workers[w]] && Carries(s2.workers[w])
    requires forall i :: 0 <= i < |s.sent| && s.sent[i].run == s2.workers[w].run ==> s.sent[i].order == s2.workers[w].order
    ensures Accounted(s2)
  {
    hide Explains;
  }

  lemma PostAccounts(cfg: Config, s: State, w: nat)
    requires Accounted(s) && Safe(s) && w in s.workers && s.workers[w].Posting?
    ensures Accounted(Next(cfg, s, Post(w)))
  {
    UnsentRun(s, w);
    OwnRunAlone(s, w);
    PostedSignal(s, w);
    hide Safe, Accounted;
    SendStep(s, Next(cfg, s, Post(w)), w, Sent(s.workers[w].run, s.workers[w].order));
  }

  lemma PostedSignal(s: State, w: nat)
    requires Safe(s) && w in s.workers && s.workers[w].Posting?
    ensures s.workers[w].run in s.signals && s.signals[s.workers[w].run].status == Created
  {
    hide Reconcile.Good, Owned, SentOnce;
  }

  lemma CarriedIs(s: State, w: nat)
    requires Accounted(s) && w in s.workers && Carries(s.workers[w])
    ensures forall i :: 0 <= i < |s.sent| && s.sent[i].run == s.workers[w].run ==> s.sent[i].order == s.workers[w].order
  {
    hide Explains;
  }

  lemma AnswerAccounts(cfg: Config, s: State, w: nat, reply: Reply)
    requires Accounted(s) && w in s.workers && s.workers[w].Awaiting?
    ensures Accounted(Next(cfg, s, Answer(w, reply)))
  {
    CarriedIs(s, w);
    hide Accounted, ReplyPlace;
    var s2 := Next(cfg, s, Answer(w, reply));
    if s2 != s && reply.Response? {
      CarryStep(s, s2, w);
    } else {
      QuietStep(s, s2, w);
    }
  }

  lemma LinkAccounts(s: State, w: nat)
    requires Accounted(s) && w in s.workers && s.workers[w].Linking?
    ensures Accounted(Link1(s, w, s.workers[w]))
  {
    CarriedIs(s, w);
    hide Accounted, LinkedAnywhere;
    var work, s2 := s.workers[w], Link1(s, w, s.workers[w]);
    if LinkedAnywhere(s, work.order) {
      QuietStep(s, s2, w);
    } else {
      OwnSignalStep(s, s2, w, work.signal.(status := OrderSubmitted, order := Some(work.order)));
    }
  }

  lemma DeclineAccounts(s: State, w: nat)
    requires Accounted(s) && Asked(s) && w in s.workers && s.workers[w].Declining?
    ensures Accounted(DeclineSignal(s, w, s.workers[w]))
  {
    AskedOne(s, w);
    hide Accounted, Asked;
    OwnSignalStep(s, DeclineSignal(s, w, s.workers[w]), w, s.workers[w].signal.(status := Declined));
  }

  lemma QuietAccounts(cfg: Config, s: State, step: Step)
    requires Accounted(s) && Enabled(cfg, s, step)
    requires step.Poll? || step.Claim? || step.Finish? || step.Break? || step.Crash?
    ensures Accounted(Next(cfg, s, step))
  {
    hide Accounted, Stranded, R.Enabled, R.Next, Decide1, Submission1, Link1, DeclineSignal, ReplyPlace, Ambiguous;
    QuietStep(s, Next(cfg, s, step), step.w);
  }

  lemma UserAccounts(cfg: Config, s: State, step: Step)
    requires Accounted(s) && Enabled(cfg, s, step)
    requires step.Wait? || step.Activate? || step.Pause? || step.Update? || step.Trading?
    ensures Accounted(Next(cfg, s, step))
  {
    hide Accounted, Stranded, Ambiguous, R.Enabled, R.Next, Decide1, Submission1, Link1, DeclineSignal, ReplyPlace, BreakRun;
    QuietStep(s, Next(cfg, s, step), 0);
  }

  lemma StepAccounts(cfg: Config, s: State, step: Step)
    requires Accounted(s) && Safe(s) && Asked(s) && Enabled(cfg, s, step)
    ensures Accounted(Next(cfg, s, step))
  {
    hide Accounted, Safe, Asked, R.Enabled, R.Next, Decide1, Submission1, Link1, DeclineSignal, ReplyPlace, BreakRun,
      Stranded, Ambiguous;
    match step
    case Decide(w, side, ready) => DecideAccounts(cfg, s, w, side, ready);
    case Submission(w, _, _, _, _, _, _) => SubmissionAccounts(cfg, s, step, s.workers[w]);
    case Post(w) => PostAccounts(cfg, s, w);
    case Answer(w, reply) => AnswerAccounts(cfg, s, w, reply);
    case Link(w) => LinkAccounts(s, w);
    case Decline(w) => DeclineAccounts(s, w);
    case Poll(_, _, _) => QuietAccounts(cfg, s, step);
    case Claim(_, _) => QuietAccounts(cfg, s, step);
    case Finish(_, _, _) => QuietAccounts(cfg, s, step);
    case Break(_) => QuietAccounts(cfg, s, step);
    case Crash(_) => QuietAccounts(cfg, s, step);
    case _ => UserAccounts(cfg, s, step);
  }

  lemma {:induction false} EveryRunAccounts(cfg: Config, strategies: map<string, Strategy>, workers: set<nat>, steps: seq<Step>)
    ensures Accounted(After(cfg, Initial(strategies, workers), steps))
    decreases |steps|
  {
    if steps != [] {
      var init := steps[..|steps| - 1];
      EveryRunAccounts(cfg, strategies, workers, init);
      EveryRunIsSafe(cfg, strategies, workers, init);
      hide Accounted, Safe, Asked, Next, Enabled;
      var s, step := After(cfg, Initial(strategies, workers), init), steps[|steps| - 1];
      if Enabled(cfg, s, step) {
        StepAccounts(cfg, s, step);
      }
    }
  }

  /** Main result, with any number of workers and crashes: an order that left is linked to its run's signal, or that signal is
      CREATED, which stops the strategy, or rejected. So exposure over linked orders misses no order of an undisturbed run. */
  lemma EverySendIsAccounted(cfg: Config, strategies: map<string, Strategy>, workers: set<nat>, steps: seq<Step>, i: nat)
    ensures var s := After(cfg, Initial(strategies, workers), steps);
      i < |s.sent| ==>
        && s.sent[i].run in s.signals
        && (s.sent[i].order in Linked(s.signals, s.sent[i].run.strategy)
            || Stranded(s, s.sent[i].run.strategy) || s.signals[s.sent[i].run].status == Declined)
  {
    EveryRunAccounts(cfg, strategies, workers, steps);
    var s := After(cfg, Initial(strategies, workers), steps);
    hide After;
    if i < |s.sent| {
      var p := s.sent[i];
      assert Explains(s.signals[p.run], p.order);
    }
  }
}
