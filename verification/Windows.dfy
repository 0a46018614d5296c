/** The order-rate limits of automated strategies hold over every window, not only at the moments they are checked. */
module Windows {
  import opened Ledger
  import opened Options
  import opened Live
  import opened Totals
  import opened Protocol
  import R = Runs

  /** Order attempts of a user in the closed minute that starts at `from`. */
  function AttemptsIn(signals: map<RunKey, Signal>, user: string, from: int): set<RunKey> {
    set r | r in signals && signals[r].user == user && signals[r].status != Suppressed
         && from <= signals[r].at <= from + 60
  }

  /** Submitted orders of a user on the day that starts at `from`. */
  function SubmittedOn(signals: map<RunKey, Signal>, user: string, from: int): set<RunKey> {
    set r | r in signals && signals[r].user == user && signals[r].status == OrderSubmitted
         && from <= signals[r].at < from + 86400
  }

  /** Midnight in India, which is five and a half hours ahead of UTC. */
  predicate IsMidnight(t: int) {
    (t + 5 * 3600 + 30 * 60) % 86400 == 0
  }

  ghost predicate Capped(cfg: Config, signals: map<RunKey, Signal>) {
    && (forall user, from :: |AttemptsIn(signals, user, from)| <= cfg.perMinute)
    && (forall user, day :: IsMidnight(day) ==> |SubmittedOn(signals, user, day)| <= cfg.userPerDay)
  }

  ghost predicate NoneAfter(signals: map<RunKey, Signal>, t: int) {
    forall r :: r in signals ==> signals[r].at <= t
  }

  /** The attempt is already counted, or there is room for it. */
  ghost predicate MinuteRoom(cfg: Config, signals: map<RunKey, Signal>, run: RunKey, signal: Signal) {
    || |AttemptsIn(signals, signal.user, signal.at - 60)| < cfg.perMinute
    || (run in signals && signals[run].user == signal.user && signals[run].at == signal.at
        && signals[run].status != Suppressed)
  }

  ghost predicate DayRoom(cfg: Config, signals: map<RunKey, Signal>, signal: Signal) {
    |SubmittedOn(signals, signal.user, DayStart(signal.at))| < cfg.userPerDay
  }

  predicate Held(work: Work) {
    InFlight(work) && !work.Claimed?
  }

  ghost predicate Roomy(cfg: Config, s: State, work: Work) {
    Held(work) ==>
      && work.signal.status == Created && work.signal.at <= s.clock && NoneAfter(s.signals, work.signal.at)
      && MinuteRoom(cfg, s.signals, work.run, work.signal) && DayRoom(cfg, s.signals, work.signal)
  }

  ghost predicate OneWorker(s: State) {
    forall w, v :: w in s.workers && v in s.workers ==> w == v
  }

  ghost predicate Limits(cfg: Config, s: State) {
    && OneWorker(s) && Capped(cfg, s.signals) && NoneAfter(s.signals, s.clock)
    && forall w :: w in s.workers ==> Roomy(cfg, s, s.workers[w])
  }

  // ---------------------------------------------------------------- one more signal

  /** A minute holds no more than the attempts of the minute that ends at its last one. */
  lemma MinuteAdds(cfg: Config, signals: map<RunKey, Signal>, run: RunKey, signal: Signal, user: string, from: int)
    requires Capped(cfg, signals) && NoneAfter(signals, signal.at) && MinuteRoom(cfg, signals, run, signal)
    requires signal.status != Suppressed
    ensures |AttemptsIn(signals[run := signal], user, from)| <= cfg.perMinute
  {
    var before, after := AttemptsIn(signals, user, from), AttemptsIn(signals[run := signal], user, from);
    if signal.user == user && from <= signal.at <= from + 60
       && |AttemptsIn(signals, signal.user, signal.at - 60)| < cfg.perMinute {
      var tail := AttemptsIn(signals, user, signal.at - 60);
      assert after <= tail + {run};
      SubsetSize(after, tail + {run});
    } else {
      assert after <= before;
      SubsetSize(after, before);
    }
  }

  lemma SameDay(day: int, t: int)
    requires IsMidnight(day) && day <= t < day + 86400
    ensures DayStart(t) == day
  {
    var q := (day + 19800) / 86400;
    assert day + 19800 == q * 86400;
    assert t + 19800 == q * 86400 + (t - day);
  }

  lemma DayAdds(cfg: Config, signals: map<RunKey, Signal>, run: RunKey, signal: Signal, user: string, day: int)
    requires Capped(cfg, signals) && DayRoom(cfg, signals, signal) && IsMidnight(day)
    ensures |SubmittedOn(signals[run := signal], user, day)| <= cfg.userPerDay
  {
    var before, after := SubmittedOn(signals, user, day), SubmittedOn(signals[run := signal], user, day);
    if signal.user == user && day <= signal.at < day + 86400 {
      SameDay(day, signal.at);
      assert after <= before + {run};
      SubsetSize(after, before + {run});
    } else {
      assert after <= before;
      SubsetSize(after, before);
    }
  }

  lemma CommitCapped(cfg: Config, signals: map<RunKey, Signal>, run: RunKey, signal: Signal)
    requires Capped(cfg, signals) && NoneAfter(signals, signal.at) && MinuteRoom(cfg, signals, run, signal)
    requires DayRoom(cfg, signals, signal) && signal.status != Suppressed
    ensures Capped(cfg, signals[run := signal])
  {
    var after := signals[run := signal];
    forall user, from
      ensures |AttemptsIn(after, user, from)| <= cfg.perMinute
    {
      MinuteAdds(cfg, signals, run, signal, user, from);
    }
    forall user, day | IsMidnight(day)
      ensures |SubmittedOn(after, user, day)| <= cfg.userPerDay
    {
      DayAdds(cfg, signals, run, signal, user, day);
    }
  }

  /** A suppressed signal counts nowhere. */
  lemma SuppressedCapped(cfg: Config, signals: map<RunKey, Signal>, run: RunKey, signal: Signal)
    requires Capped(cfg, signals) && signal.status == Suppressed
    ensures Capped(cfg, signals[run := signal])
  {
    var after := signals[run := signal];
    forall user, from
      ensures |AttemptsIn(after, user, from)| <= cfg.perMinute
    {
      SubsetSize(AttemptsIn(after, user, from), AttemptsIn(signals, user, from));
    }
    forall user, day | IsMidnight(day)
      ensures |SubmittedOn(after, user, day)| <= cfg.userPerDay
    {
      SubsetSize(SubmittedOn(after, user, day), SubmittedOn(signals, user, day));
    }
  }

  // ---------------------------------------------------------------- steps

  lemma KeepsSignals(cfg: Config, s: State, s2: State, w: nat)
    requires Limits(cfg, s) && s2.signals == s.signals && s2.clock >= s.clock
    requires w in s.workers && w in s2.workers && s2.workers == s.workers[w := s2.workers[w]]
    requires Roomy(cfg, s2, s2.workers[w])
    ensures Limits(cfg, s2)
  {
    hide Capped, Roomy;
  }

  lemma KeepsWorkers(cfg: Config, s: State, s2: State)
    requires Limits(cfg, s) && s2.signals == s.signals && s2.clock >= s.clock && s2.workers == s.workers
    ensures Limits(cfg, s2)
  {
    hide Capped, MinuteRoom, DayRoom;
  }

  /** The worker writes its signal: counted from now on. */
  lemma Commits(cfg: Config, s: State, s2: State, w: nat, signal: Signal)
    requires Limits(cfg, s) && w in s.workers && Held(s.workers[w]) && s2.clock == s.clock
    requires signal.user == s.workers[w].signal.user && signal.at == s.workers[w].signal.at && signal.status != Suppressed
    requires s2.signals == s.signals[s.workers[w].run := signal]
    requires w in s2.workers && s2.workers == s.workers[w := s2.workers[w]]
    requires s2.workers[w].Idle?
      || (signal.status == Created && Held(s2.workers[w]) && s2.workers[w].run == s.workers[w].run
          && s2.workers[w].signal == s.workers[w].signal)
    ensures Limits(cfg, s2)
  {
    var run := s.workers[w].run;
    assert Roomy(cfg, s, s.workers[w]);
    CommitCapped(cfg, s.signals, run, signal);
    if s2.workers[w].Idle? {
      hide Capped, MinuteRoom, DayRoom;
    } else {
      CreatedKeepsDayRoom(cfg, s.signals, run, signal, s.workers[w].signal);
      hide Capped, DayRoom, AttemptsIn;
    }
  }

  lemma CreatedKeepsDayRoom(cfg: Config, signals: map<RunKey, Signal>, run: RunKey, signal: Signal, held: Signal)
    requires DayRoom(cfg, signals, held) && signal.status == Created
    ensures DayRoom(cfg, signals[run := signal], held)
  {
    SubsetSize(SubmittedOn(signals[run := signal], held.user, DayStart(held.at)),
               SubmittedOn(signals, held.user, DayStart(held.at)));
  }

  /** The check at the routing decision leaves room for the new signal. */
  lemma RouteLeavesRoom(cfg: Config, s: State, sid: string, snap: Strategy, side: Side, run: RunKey, signal: Signal)
    requires NoneAfter(s.signals, s.clock) && Route(cfg, s, sid, snap, side).Submit?
    requires signal.user == snap.user && signal.at == s.clock
    ensures MinuteRoom(cfg, s.signals, run, signal) && DayRoom(cfg, s.signals, signal)
  {
    hide HasOpenOrder, Exposure, Linked, DayStart;
    SubsetSize(AttemptsIn(s.signals, snap.user, s.clock - 60), AttemptsSince(s, snap.user, s.clock - 60));
    SubsetSize(SubmittedOn(s.signals, snap.user, DayStart(s.clock)), SubmittedSince(s, snap.user, DayStart(s.clock)));
  }

  lemma DecideLimits(cfg: Config, s: State, step: Step)
    requires Limits(cfg, s) && Enabled(cfg, s, step) && step.Decide?
    ensures Limits(cfg, Next(cfg, s, step))
  {
    hide R.Enabled, R.Next, Submission1, Link1, Stranded, Ambiguous, ReplyPlace, BreakRun, DeclineSignal, Route, ClientId;
    var w, s2, work := step.w, Next(cfg, s, step), At(s, step.w);
    match Route(cfg, s, work.run.strategy, work.snap, step.side)
    case Limited =>
      hide Limits;
      KeepsSignals(cfg, s, s2, w);
    case Suppress =>
      SuppressedCapped(cfg, s.signals, work.run, s2.signals[work.run]);
      hide Capped;
    case Submit(_) =>
      if step.ready {
        RouteLeavesRoom(cfg, s, work.run.strategy, work.snap, step.side, work.run, s2.workers[w].signal);
      }
      hide Limits, MinuteRoom, DayRoom;
      KeepsSignals(cfg, s, s2, w);
  }

  /** From placing to the next stage, with the signal written or an older order found. */
  ghost predicate Stage(s: State, s2: State, w: nat) {
    && w in s.workers && s.workers[w].Placing? && w in s2.workers && s2.workers == s.workers[w := s2.workers[w]]
    && (s2.workers[w].Linking? || s2.workers[w].Posting? || s2.workers[w].Declining?)
    && s2.workers[w].run == s.workers[w].run && s2.workers[w].snap == s.workers[w].snap
    && s2.workers[w].signal == s.workers[w].signal && s2.strategies == s.strategies && s2.clock == s.clock
    && (s2.signals == s.signals || s2.signals == s.signals[s.workers[w].run := s.workers[w].signal])
  }

  /** A submission moves the worker on, or is the rejection commit. */
  lemma SubmissionStages(cfg: Config, s: State, step: Step, work: Work)
    requires step.Submission? && step.quote.Some? && work.Placing? && step.w in s.workers && s.workers[step.w] == work
    ensures var s2 := Submission1(cfg, s, step, work);
      Stage(s, s2, step.w) || s2 == DeclineSignal(s, step.w, work)
  {
    hide PlaceLive, TicketOf, DeclineSignal;
    var t := TicketOf(work.snap, work.signal, step.tickSize, step.quote.value.ltp);
    match PlaceLive(cfg.trading, step.gate, step.connected, s.db, work.snap.user, t, step.quote, step.time)
    case Inserted(_) =>
    case Existing =>
    case Refused(_) =>
  }

  lemma SubmissionLimits(cfg: Config, s: State, step: Step, work: Work)
    requires Limits(cfg, s) && step.Submission? && step.quote.Some? && work.Placing?
    requires step.w in s.workers && s.workers[step.w] == work
    ensures Limits(cfg, Submission1(cfg, s, step, work))
  {
    hide Limits, Stage, Submission1, DeclineSignal;
    SubmissionStages(cfg, s, step, work);
    if Stage(s, Submission1(cfg, s, step, work), step.w) {
      StageLimits(cfg, s, Submission1(cfg, s, step, work), step.w);
    } else {
      DeclineLimits(cfg, s, step.w);
    }
  }

  lemma StageLimits(cfg: Config, s: State, s2: State, w: nat)
    requires Limits(cfg, s) && Stage(s, s2, w)
    ensures Limits(cfg, s2)
  {
    RoomOf(cfg, s, w);
    hide Limits, MinuteRoom, DayRoom, NoneAfter;
    if s2.signals == s.signals {
      KeepsSignals(cfg, s, s2, w);
    } else {
      Commits(cfg, s, s2, w, s.workers[w].signal);
    }
  }

  lemma RoomOf(cfg: Config, s: State, w: nat)
    requires Limits(cfg, s) && w in s.workers
    ensures Roomy(cfg, s, s.workers[w])
  {
    hide Roomy;
  }

  lemma EndLimits(cfg: Config, s: State, step: Step)
    requires Limits(cfg, s) && Enabled(cfg, s, step)
    requires step.Finish? || step.Break? || step.Crash?
    ensures Limits(cfg, Next(cfg, s, step))
  {
    var s2 := Next(cfg, s, step);
    hide R.Enabled, R.Next, Decide1, Submission1, Stranded, Ambiguous, ReplyPlace, Limits, Link1, Roomy, DeclineSignal;
    IdleIsRoomy(cfg, s2);
    KeepsSignals(cfg, s, s2, step.w);
  }

  lemma LinkLimits(cfg: Config, s: State, w: nat)
    requires Limits(cfg, s) && w in s.workers && s.workers[w].Linking?
    ensures Limits(cfg, Link1(s, w, s.workers[w]))
  {
    var s2, work := Link1(s, w, s.workers[w]), s.workers[w];
    hide Limits, LinkedAnywhere, Roomy;
    if LinkedAnywhere(s, work.order) {
      IdleIsRoomy(cfg, s2);
      KeepsSignals(cfg, s, s2, w);
    } else {
      Commits(cfg, s, s2, w, work.signal.(status := OrderSubmitted, order := Some(work.order)));
    }
  }

  lemma DeclineLimits(cfg: Config, s: State, w: nat)
    requires Limits(cfg, s) && w in s.workers && (s.workers[w].Placing? || s.workers[w].Declining?)
    ensures Limits(cfg, DeclineSignal(s, w, s.workers[w]))
  {
    hide Limits;
    var work := s.workers[w];
    Commits(cfg, s, DeclineSignal(s, w, work), w, work.signal.(status := Declined));
  }

  lemma IdleIsRoomy(cfg: Config, s: State)
    ensures Roomy(cfg, s, Idle)
  {
  }

  lemma OtherLimits(cfg: Config, s: State, step: Step)
    requires Limits(cfg, s) && Enabled(cfg, s, step)
    requires step.Poll? || step.Claim? || step.Post? || step.Answer?
    ensures Limits(cfg, Next(cfg, s, step))
  {
    assert At(s, step.w) == s.workers[step.w] && Roomy(cfg, s, s.workers[step.w]);
    hide Stranded, PlaceReplied, Limits, MinuteRoom, DayRoom, NoneAfter;
    var s2 := Next(cfg, s, step);
    if s2.workers == s.workers {
      KeepsWorkers(cfg, s, s2);
    } else {
      KeepsSignals(cfg, s, s2, step.w);
    }
  }

  lemma UserLimits(cfg: Config, s: State, step: Step)
    requires Limits(cfg, s) && Enabled(cfg, s, step)
    requires step.Wait? || step.Activate? || step.Pause? || step.Update? || step.Trading?
    ensures Limits(cfg, Next(cfg, s, step))
  {
    hide Stranded, Ambiguous, R.Next, R.Enabled, Decide1, Submission1, Link1, ReplyPlace, BreakRun, DeclineSignal, Limits;
    KeepsWorkers(cfg, s, Next(cfg, s, step));
  }

  lemma StepKeepsLimits(cfg: Config, s: State, step: Step)
    requires Limits(cfg, s) && Enabled(cfg, s, step)
    ensures Limits(cfg, Next(cfg, s, step))
  {
    hide Limits, R.Enabled, R.Next, Decide1, Submission1, Link1, ReplyPlace, BreakRun, DeclineSignal, Stranded, Ambiguous;
    match step
    case Decide(_, _, _) => DecideLimits(cfg, s, step);
    case Submission(w, _, _, _, _, _, _) => SubmissionLimits(cfg, s, step, s.workers[w]);
    case Finish(_, _, _) => EndLimits(cfg, s, step);
    case Break(_) => EndLimits(cfg, s, step);
    case Crash(_) => EndLimits(cfg, s, step);
    case Link(w) => LinkLimits(cfg, s, w);
    case Decline(w) => DeclineLimits(cfg, s, w);
    case Poll(_, _, _) => OtherLimits(cfg, s, step);
    case Claim(_, _) => OtherLimits(cfg, s, step);
    case Post(_) => OtherLimits(cfg, s, step);
    case Answer(_, _) => OtherLimits(cfg, s, step);
    case _ => UserLimits(cfg, s, step);
  }

  lemma {:induction false} EveryRunKeepsLimits(cfg: Config, strategies: map<string, Strategy>, w: nat, steps: seq<Step>)
    requires cfg.perMinute >= 1 && cfg.userPerDay >= 1
    ensures Limits(cfg, After(cfg, Initial(strategies, {w}), steps))
    decreases |steps|
  {
    if steps == [] {
      var signals := Initial(strategies, {w}).signals;
      assert forall user, from :: AttemptsIn(signals, user, from) == {};
      assert forall user, day :: SubmittedOn(signals, user, day) == {};
    } else {
      EveryRunKeepsLimits(cfg, strategies, w, steps[..|steps| - 1]);
      hide Limits, Next, Enabled;
      var s, step := After(cfg, Initial(strategies, {w}), steps[..|steps| - 1]), steps[|steps| - 1];
      if Enabled(cfg, s, step) {
        StepKeepsLimits(cfg, s, step);
      }
    }
  }

  /** Main result, with one worker: no closed minute anywhere in a user's history holds more order attempts than the
      configured number, and no day from midnight to midnight in India more submitted orders, also when commits lag behind the
      check. */
  lemma EveryWindowIsCapped(cfg: Config, strategies: map<string, Strategy>, w: nat, steps: seq<Step>, user: string,
                            from: int, day: int)
    requires cfg.perMinute >= 1 && cfg.userPerDay >= 1 && (day + 5 * 3600 + 30 * 60) % 86400 == 0
    ensures var s := After(cfg, Initial(strategies, {w}), steps);
      && |AttemptsIn(s.signals, user, from)| <= cfg.perMinute
      && |SubmittedOn(s.signals, user, day)| <= cfg.userPerDay
  {
    EveryRunKeepsLimits(cfg, strategies, w, steps);
    assert IsMidnight(day);
    hide IsMidnight;
  }

  /** The day that the count check looks back to began at the last midnight in India. */
  lemma DayStartsAtMidnight(t: int)
    ensures (DayStart(t) + 5 * 3600 + 30 * 60) % 86400 == 0 && DayStart(t) <= t < DayStart(t) + 86400
  {
    var q := (t + 19800) / 86400;
    assert t + 19800 == q * 86400 + (t + 19800) % 86400;
    assert DayStart(t) + 19800 == q * 86400;
    assert (q * 86400) % 86400 == 0;
  }
}
