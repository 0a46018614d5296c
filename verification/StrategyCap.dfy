/** A strategy's own daily order limit holds on every India day, under every version of the strategy that had it. */
module StrategyCap {
  import opened Ledger
  import opened Options
  import opened Live
  import opened Totals
  import opened Protocol
  import opened Windows
  import R = Runs

  /** Orders a strategy submitted on the day that starts at `from`. */
  function OrdersOn(signals: map<RunKey, Signal>, sid: string, from: int): set<RunKey> {
    set r | r in signals && r.strategy == sid && signals[r].status == OrderSubmitted && from <= signals[r].at < from + 86400
  }

  ghost predicate DaysCapped(signals: map<RunKey, Signal>, sid: string, cap: int) {
    forall day :: IsMidnight(day) ==> |OrdersOn(signals, sid, day)| <= cap
  }

  ghost predicate OwnedBy(signals: map<RunKey, Signal>, sid: string, user: string) {
    forall r :: r in signals && r.strategy == sid ==> signals[r].user == user
  }

  /** The strategy a worker works on. */
  predicate On(work: Work, sid: string) {
    (work.Cleared? && work.strategy == sid) || (InFlight(work) && work.run.strategy == sid)
  }

  ghost predicate HasRoom(s: State, work: Work, sid: string, cap: int) {
    On(work, sid) ==>
      && sid in s.strategies && work.snap.user == s.strategies[sid].user && work.snap.maxPerDay <= cap
      && (Held(work) ==>
            work.signal.status == Created && work.signal.user == work.snap.user
            && |OrdersOn(s.signals, sid, DayStart(work.signal.at))| < cap)
  }

  ghost predicate Within(s: State, sid: string, cap: int) {
    && OneWorker(s) && DaysCapped(s.signals, sid, cap)
    && (sid in s.strategies ==> OwnedBy(s.signals, sid, s.strategies[sid].user))
    && (sid !in s.strategies ==> forall r :: r in s.signals ==> r.strategy != sid)
    && forall w :: w in s.workers ==> HasRoom(s, s.workers[w], sid, cap)
  }

  ghost predicate SameOwner(s: State, s2: State, sid: string) {
    (sid in s2.strategies <==> sid in s.strategies)
    && (sid in s.strategies ==> s2.strategies[sid].user == s.strategies[sid].user)
  }

  /** Every poll of the strategy reads a version whose own limit is at most `cap`. */
  predicate PollsWithin(step: Step, sid: string, cap: int) {
    step.Poll? && step.strategy == sid ==> step.snap.maxPerDay <= cap
  }

  // ---------------------------------------------------------------- one more signal

  lemma SignalAdds(signals: map<RunKey, Signal>, run: RunKey, signal: Signal, sid: string, cap: int)
    requires DaysCapped(signals, sid, cap)
    requires run.strategy == sid && signal.status == OrderSubmitted ==> |OrdersOn(signals, sid, DayStart(signal.at))| < cap
    ensures DaysCapped(signals[run := signal], sid, cap)
  {
    var after := signals[run := signal];
    forall day | IsMidnight(day)
      ensures |OrdersOn(after, sid, day)| <= cap
    {
      if run.strategy == sid && signal.status == OrderSubmitted && day <= signal.at < day + 86400 {
        SameDay(day, signal.at);
        SubsetSize(OrdersOn(after, sid, day), OrdersOn(signals, sid, day) + {run});
      } else {
        SubsetSize(OrdersOn(after, sid, day), OrdersOn(signals, sid, day));
      }
    }
  }

  lemma CreatedAddsNone(signals: map<RunKey, Signal>, run: RunKey, signal: Signal, sid: string, day: int)
    requires signal.status != OrderSubmitted
    ensures |OrdersOn(signals[run := signal], sid, day)| <= |OrdersOn(signals, sid, day)|
  {
    SubsetSize(OrdersOn(signals[run := signal], sid, day), OrdersOn(signals, sid, day));
  }

  // ---------------------------------------------------------------- steps

  lemma SameSignals(s: State, s2: State, w: nat, sid: string, cap: int)
    requires Within(s, sid, cap) && s2.signals == s.signals && SameOwner(s, s2, sid)
    requires w in s.workers && w in s2.workers && s2.workers == s.workers[w := s2.workers[w]]
    requires HasRoom(s2, s2.workers[w], sid, cap)
    ensures Within(s2, sid, cap)
  {
    hide DaysCapped, OwnedBy;
  }

  lemma SameWorkers(s: State, s2: State, sid: string, cap: int)
    requires Within(s, sid, cap) && s2.signals == s.signals && SameOwner(s, s2, sid) && s2.workers == s.workers
    ensures Within(s2, sid, cap)
  {
    hide DaysCapped, OwnedBy;
  }

  /** The worker writes its signal. */
  lemma Commits(s: State, s2: State, w: nat, signal: Signal, sid: string, cap: int)
    requires Within(s, sid, cap) && SameOwner(s, s2, sid) && w in s.workers && InFlight(s.workers[w])
    requires Held(s.workers[w]) || signal.status == Suppressed
    requires if Held(s.workers[w]) then signal.user == s.workers[w].signal.user && signal.at == s.workers[w].signal.at
             else signal.user == s.workers[w].snap.user
    requires s2.signals == s.signals[s.workers[w].run := signal]
    requires w in s2.workers && s2.workers == s.workers[w := s2.workers[w]]
    requires s2.workers[w].Idle?
      || ((On(s.workers[w], sid) ==> signal.status == Created) && Held(s.workers[w]) && Held(s2.workers[w]) && s2.workers[w].run == s.workers[w].run
          && s2.workers[w].signal == s.workers[w].signal && s2.workers[w].snap == s.workers[w].snap)
    ensures Within(s2, sid, cap)
  {
    var work := s.workers[w];
    assert HasRoom(s, work, sid, cap);
    SignalAdds(s.signals, work.run, signal, sid, cap);
    if !s2.workers[w].Idle? && work.run.strategy == sid {
      CreatedAddsNone(s.signals, work.run, signal, sid, DayStart(work.signal.at));
    }
    hide DaysCapped, OrdersOn, DayStart;
  }

  /** The check at the routing decision leaves room for one more order of the strategy. */
  lemma RouteLeavesRoom(cfg: Config, s: State, sid: string, snap: Strategy, side: Side)
    requires OwnedBy(s.signals, sid, snap.user) && Route(cfg, s, sid, snap, side).Submit?
    ensures |OrdersOn(s.signals, sid, DayStart(s.clock))| < snap.maxPerDay
  {
    hide HasOpenOrder, Exposure, Linked, DayStart;
    SubsetSize(OrdersOn(s.signals, sid, DayStart(s.clock)),
               (set r | r in SubmittedSince(s, snap.user, DayStart(s.clock)) && r.strategy == sid));
  }

  lemma DecideWithin(cfg: Config, s: State, step: Step, sid: string, cap: int)
    requires Within(s, sid, cap) && Enabled(cfg, s, step) && step.Decide?
    ensures Within(Next(cfg, s, step), sid, cap)
  {
    hide R.Enabled, R.Next, Submission1, Link1, Stranded, Ambiguous, ReplyPlace, BreakRun, DeclineSignal, Route, ClientId,
      DaysCapped, OrdersOn, OwnedBy, DayStart;
    var w, s2, work := step.w, Next(cfg, s, step), At(s, step.w);
    assert HasRoom(s, work, sid, cap);
    match Route(cfg, s, work.run.strategy, work.snap, step.side)
    case Limited => SameSignals(s, s2, w, sid, cap);
    case Suppress =>
      hide Within;
      Commits(s, s2, w, s2.signals[work.run], sid, cap);
    case Submit(_) =>
      if work.run.strategy == sid {
        RouteLeavesRoom(cfg, s, sid, work.snap, step.side);
      }
      hide Within;
      SameSignals(s, s2, w, sid, cap);
  }

  lemma DeclinedWithin(s: State, w: nat, sid: string, cap: int)
    requires Within(s, sid, cap) && w in s.workers && (s.workers[w].Placing? || s.workers[w].Declining?)
    ensures Within(DeclineSignal(s, w, s.workers[w]), sid, cap)
  {
    hide Within;
    var work := s.workers[w];
    Commits(s, DeclineSignal(s, w, work), w, work.signal.(status := Declined), sid, cap);
  }

  lemma StageWithin(s: State, s2: State, w: nat, sid: string, cap: int)
    requires Within(s, sid, cap) && Stage(s, s2, w)
    ensures Within(s2, sid, cap)
  {
    hide OrdersOn, Within;
    RoomOf(s, w, sid, cap);
    if s2.signals == s.signals {
      SameSignals(s, s2, w, sid, cap);
    } else {
      Commits(s, s2, w, s.workers[w].signal, sid, cap);
    }
  }

  lemma RoomOf(s: State, w: nat, sid: string, cap: int)
    requires Within(s, sid, cap) && w in s.workers
    ensures HasRoom(s, s.workers[w], sid, cap)
  {
  }

  lemma SubmissionWithin(cfg: Config, s: State, step: Step, work: Work, sid: string, cap: int)
    requires Within(s, sid, cap) && step.Submission? && step.quote.Some? && work.Placing?
    requires step.w in s.workers && s.workers[step.w] == work
    ensures Within(Submission1(cfg, s, step, work), sid, cap)
  {
    hide Within, Stage, Submission1, DeclineSignal;
    SubmissionStages(cfg, s, step, work);
    if Stage(s, Submission1(cfg, s, step, work), step.w) {
      StageWithin(s, Submission1(cfg, s, step, work), step.w, sid, cap);
    } else {
      DeclinedWithin(s, step.w, sid, cap);
    }
  }

  lemma IdleHasRoom(s: State, sid: string, cap: int)
    ensures HasRoom(s, Idle, sid, cap)
  {
  }

  lemma LinkWithin(s: State, w: nat, sid: string, cap: int)
    requires Within(s, sid, cap) && w in s.workers && s.workers[w].Linking?
    ensures Within(Link1(s, w, s.workers[w]), sid, cap)
  {
    var s2, work := Link1(s, w, s.workers[w]), s.workers[w];
    hide Within, LinkedAnywhere, HasRoom;
    if LinkedAnywhere(s, work.order) {
      IdleHasRoom(s2, sid, cap);
      SameSignals(s, s2, w, sid, cap);
    } else {
      Commits(s, s2, w, work.signal.(status := OrderSubmitted, order := Some(work.order)), sid, cap);
    }
  }

  lemma EndWithin(cfg: Config, s: State, step: Step, sid: string, cap: int)
    requires Within(s, sid, cap) && Enabled(cfg, s, step)
    requires step.Finish? || step.Break? || step.Crash?
    ensures Within(Next(cfg, s, step), sid, cap)
  {
    var s2 := Next(cfg, s, step);
    hide R.Enabled, R.Next, Decide1, Submission1, Stranded, Ambiguous, ReplyPlace, Within, Link1, HasRoom, DeclineSignal;
    IdleHasRoom(s2, sid, cap);
    SameSignals(s, s2, step.w, sid, cap);
  }

  lemma OtherWithin(cfg: Config, s: State, step: Step, sid: string, cap: int)
    requires Within(s, sid, cap) && Enabled(cfg, s, step) && PollsWithin(step, sid, cap)
    requires step.Poll? || step.Claim? || step.Post? || step.Answer?
    ensures Within(Next(cfg, s, step), sid, cap)
  {
    hide Stranded, PlaceReplied, Within, OrdersOn, Decide1, Submission1, Link1, BreakRun, DeclineSignal, R.Enabled, R.Next;
    RoomOf(s, step.w, sid, cap);
    var s2 := Next(cfg, s, step);
    if s2.workers == s.workers {
      SameWorkers(s, s2, sid, cap);
    } else {
      SameSignals(s, s2, step.w, sid, cap);
    }
  }

  lemma UserWithin(cfg: Config, s: State, step: Step, sid: string, cap: int)
    requires Within(s, sid, cap) && Enabled(cfg, s, step)
    requires step.Wait? || step.Activate? || step.Pause? || step.Update? || step.Trading?
    ensures Within(Next(cfg, s, step), sid, cap)
  {
    hide Stranded, Ambiguous, R.Next, R.Enabled, Decide1, Submission1, Link1, ReplyPlace, BreakRun, DeclineSignal, Within;
    SameWorkers(s, Next(cfg, s, step), sid, cap);
  }

  lemma StepKeepsWithin(cfg: Config, s: State, step: Step, sid: string, cap: int)
    requires Within(s, sid, cap) && Enabled(cfg, s, step) && PollsWithin(step, sid, cap)
    ensures Within(Next(cfg, s, step), sid, cap)
  {
    hide Within, R.Enabled, R.Next, Decide1, Submission1, Link1, ReplyPlace, BreakRun, DeclineSignal, Stranded, Ambiguous;
    match step
    case Decide(_, _, _) => DecideWithin(cfg, s, step, sid, cap);
    case Submission(w, _, _, _, _, _, _) => SubmissionWithin(cfg, s, step, s.workers[w], sid, cap);
    case Finish(_, _, _) => EndWithin(cfg, s, step, sid, cap);
    case Break(_) => EndWithin(cfg, s, step, sid, cap);
    case Crash(_) => EndWithin(cfg, s, step, sid, cap);
    case Link(w) => LinkWithin(s, w, sid, cap);
    case Decline(w) => DeclinedWithin(s, w, sid, cap);
    case Poll(_, _, _) => OtherWithin(cfg, s, step, sid, cap);
    case Claim(_, _) => OtherWithin(cfg, s, step, sid, cap);
    case Post(_) => OtherWithin(cfg, s, step, sid, cap);
    case Answer(_, _) => OtherWithin(cfg, s, step, sid, cap);
    case _ => UserWithin(cfg, s, step, sid, cap);
  }

  lemma {:induction false} EveryRunWithin(
      cfg: Config, strategies: map<string, Strategy>, w: nat, steps: seq<Step>, sid: string, cap: nat)
    requires forall i :: 0 <= i < |steps| ==> PollsWithin(steps[i], sid, cap)
    ensures Within(After(cfg, Initial(strategies, {w}), steps), sid, cap)
    decreases |steps|
  {
    if steps == [] {
      var signals := Initial(strategies, {w}).signals;
      assert forall day :: OrdersOn(signals, sid, day) == {};
    } else {
      EveryRunWithin(cfg, strategies, w, steps[..|steps| - 1], sid, cap);
      assert PollsWithin(steps[|steps| - 1], sid, cap);
      hide Within, Next, Enabled, PollsWithin;
      var s, step := After(cfg, Initial(strategies, {w}), steps[..|steps| - 1]), steps[|steps| - 1];
      if Enabled(cfg, s, step) {
        StepKeepsWithin(cfg, s, step, sid, cap);
      }
    }
  }

  /** Main result, with one worker: on no day from midnight to midnight in India does a strategy submit more orders than its own
      limit allows, when every version of it that was polled had a limit of at most `cap`. */
  lemma EveryDayIsCapped(
      cfg: Config, strategies: map<string, Strategy>, w: nat, steps: seq<Step>, sid: string, cap: nat, day: int)
    requires forall i :: 0 <= i < |steps| ==> PollsWithin(steps[i], sid, cap)
    requires (day + 5 * 3600 + 30 * 60) % 86400 == 0
    ensures |OrdersOn(After(cfg, Initial(strategies, {w}), steps).signals, sid, day)| <= cap
  {
    EveryRunWithin(cfg, strategies, w, steps, sid, cap);
    assert IsMidnight(day);
    hide IsMidnight, OrdersOn;
  }
}
