/** A strategy left with a STARTED run or a CREATED signal that no worker holds never submits again. */
module Quarantine {
  import opened Ledger
  import opened Options
  import opened Paper
  import opened Live
  import opened Protocol
  import opened AtMostOnce
  import Reconcile
  import R = Runs

  /** The run is STARTED or its signal CREATED. */
  predicate Unfinished(s: State, r: RunKey) {
    (r in s.runs && s.runs[r] == Started) || (r in s.signals && s.signals[r].status == Created)
  }

  /** A worker that may still send an order for the strategy: one that awaits an answer, declines or links has sent already. */
  predicate CanSend(work: Work, sid: string) {
    (work.Cleared? && work.strategy == sid) || ((work.Claimed? || work.Placing? || work.Posting?) && work.run.strategy == sid)
  }

  /** The run is unfinished, no worker holds it, and no worker is about to send for its strategy. */
  ghost predicate Quarantined(s: State, r: RunKey) {
    && Unfinished(s, r)
    && forall w :: w in s.workers ==>
         !(InFlight(s.workers[w]) && s.workers[w].run == r) && !CanSend(s.workers[w], r.strategy)
  }

  predicate Running(s: State, sid: string) {
    sid in s.strategies && s.strategies[sid].status == Active
  }

  /** From one state to a later one no order left for the strategy, and it was not activated. */
  ghost predicate Silent(s: State, s2: State, sid: string) {
    && |s.sent| <= |s2.sent|
    && (forall i :: 0 <= i < |s.sent| ==> s2.sent[i] == s.sent[i])
    && (forall i :: |s.sent| <= i < |s2.sent| ==> s2.sent[i].run.strategy != sid)
    && (Running(s2, sid) ==> Running(s, sid))
  }

  /** The rows of one run are not touched. */
  ghost predicate Untouched(s: State, s2: State, r: RunKey) {
    && (r in s.runs ==> r in s2.runs && s2.runs[r] == s.runs[r])
    && (r in s.signals ==> r in s2.signals && s2.signals[r] == s.signals[r])
  }

  lemma IsStranded(s: State, r: RunKey)
    requires Unfinished(s, r)
    ensures Stranded(s, r.strategy)
  {
  }

  lemma WorkersStayOff(s: State, s2: State, w: nat, r: RunKey)
    requires Quarantined(s, r) && Untouched(s, s2, r)
    requires w in s2.workers && s2.workers == s.workers[w := s2.workers[w]]
    requires !(InFlight(s2.workers[w]) && s2.workers[w].run == r) && !CanSend(s2.workers[w], r.strategy)
    ensures Quarantined(s2, r)
  {
    hide InFlight, CanSend;
  }

  lemma SameWorkersStayOff(s: State, s2: State, r: RunKey)
    requires Quarantined(s, r) && Untouched(s, s2, r) && s2.workers == s.workers
    ensures Quarantined(s2, r)
  {
    hide InFlight, CanSend;
  }

  lemma NotItsWorker(s: State, r: RunKey, w: nat)
    requires Quarantined(s, r)
    ensures !(InFlight(At(s, w)) && At(s, w).run == r) && !CanSend(At(s, w), r.strategy)
    ensures Unfinished(s, r) && Stranded(s, r.strategy)
  {
    hide Stranded;
    IsStranded(s, r);
  }

  lemma UserStep(cfg: Config, s: State, step: Step, r: RunKey)
    requires Quarantined(s, r) && Enabled(cfg, s, step)
    requires step.Wait? || step.Activate? || step.Pause? || step.Update? || step.Trading?
    ensures Quarantined(Next(cfg, s, step), r) && Silent(s, Next(cfg, s, step), r.strategy)
  {
    hide Stranded, Quarantined, Next, Enabled;
    NotItsWorker(s, r, 0);
    UserWrites(cfg, s, step, r.strategy);
    SameWorkersStayOff(s, Next(cfg, s, step), r);
  }

  /** Users write neither runs nor signals, and cannot activate a stranded strategy. */
  lemma UserWrites(cfg: Config, s: State, step: Step, sid: string)
    requires Enabled(cfg, s, step) && Stranded(s, sid)
    requires step.Wait? || step.Activate? || step.Pause? || step.Update? || step.Trading?
    ensures var s2 := Next(cfg, s, step);
      s2.runs == s.runs && s2.signals == s.signals && s2.workers == s.workers && s2.sent == s.sent
      && (Running(s2, sid) ==> Running(s, sid))
  {
    hide Stranded, Ambiguous, R.Next, R.Enabled, Decide1, Submission1, Link1, ReplyPlace, BreakRun, DeclineSignal;
  }

  lemma EarlyStep(cfg: Config, s: State, step: Step, r: RunKey)
    requires Quarantined(s, r) && Enabled(cfg, s, step)
    requires step.Poll? || step.Claim? || step.Post?
    ensures Quarantined(Next(cfg, s, step), r) && Silent(s, Next(cfg, s, step), r.strategy)
  {
    hide Stranded, Quarantined, Decide1, Submission1, Link1, BreakRun, DeclineSignal, ReplyPlace, R.Enabled, R.Next;
    NotItsWorker(s, r, step.w);
    if step.Poll? && Stranded(s, step.strategy) {
      SameWorkersStayOff(s, Next(cfg, s, step), r);
    } else {
      WorkersStayOff(s, Next(cfg, s, step), step.w, r);
    }
  }

  /** A worker in flight writes its own run, its own signal, at most one entry of its own, and no activation. */
  ghost predicate OwnRows(s: State, w: nat, s2: State) {
    && w in s.workers && InFlight(s.workers[w]) && w in s2.workers && s2.workers == s.workers[w := s2.workers[w]]
    && (s2.workers[w].Idle? || (InFlight(s2.workers[w]) && s2.workers[w].run == s.workers[w].run))
    && (forall r :: r in s.runs && r != s.workers[w].run ==> r in s2.runs && s2.runs[r] == s.runs[r])
    && (forall r :: r in s.signals && r != s.workers[w].run ==> r in s2.signals && s2.signals[r] == s.signals[r])
    && (s2.sent == s.sent || (s2.sent != [] && s2.sent[|s2.sent| - 1].run == s.workers[w].run
                              && s2.sent == s.sent + [s2.sent[|s2.sent| - 1]]))
    && (s2.strategies == s.strategies || s2.strategies == SetStatus(s, s.workers[w].run.strategy, Erroneous).strategies)
  }

  lemma DecideOwns(cfg: Config, s: State, step: Step)
    requires Enabled(cfg, s, step) && step.Decide?
    ensures OwnRows(s, step.w, Next(cfg, s, step))
  {
    hide Route, ClientId, Next, Enabled;
    DecideNext(cfg, s, step);
  }

  lemma SubmissionOwns(cfg: Config, s: State, step: Step)
    requires Enabled(cfg, s, step) && step.Submission?
    ensures OwnRows(s, step.w, Next(cfg, s, step))
  {
    SubmissionWrites(cfg, s, step, At(s, step.w));
    hide OwnRows, Submission1, R.Enabled, R.Next, Link1, BreakRun, ReplyPlace, Ambiguous, Stranded, Decide1, DeclineSignal;
  }

  lemma SubmissionWrites(cfg: Config, s: State, step: Step, work: Work)
    requires step.Submission? && step.quote.Some? && work.Placing? && step.w in s.workers && s.workers[step.w] == work
    ensures OwnRows(s, step.w, Submission1(cfg, s, step, work))
  {
    hide OwnRows, PlaceLive, TicketOf, DeclineSignal;
    var t := TicketOf(work.snap, work.signal, step.tickSize, step.quote.value.ltp);
    match PlaceLive(cfg.trading, step.gate, step.connected, s.db, work.snap.user, t, step.quote, step.time)
    case Inserted(_) => MovesOn(s, step.w, Submission1(cfg, s, step, work));
    case Existing => MovesOn(s, step.w, Submission1(cfg, s, step, work));
    case Refused(error) =>
      if error == ConnectionRequired && step.expired {
        MovesOn(s, step.w, Submission1(cfg, s, step, work));
      } else {
        DeclineOwns(s, step.w);
      }
  }

  lemma MovesOn(s: State, w: nat, s2: State)
    requires w in s.workers && s.workers[w].Placing? && w in s2.workers && s2.workers == s.workers[w := s2.workers[w]]
    requires InFlight(s2.workers[w]) && s2.workers[w].run == s.workers[w].run
    requires s2.runs == s.runs && s2.strategies == s.strategies
    requires s2.signals == s.signals || s2.signals == s.signals[s.workers[w].run := s.workers[w].signal]
    requires s2.sent == s.sent
      || (s2.workers[w].Linking? && s2.sent == s.sent + [Sent(s.workers[w].run, s2.workers[w].order)])
    ensures OwnRows(s, w, s2)
  {
  }

  lemma DeclineOwns(s: State, w: nat)
    requires w in s.workers && s.workers[w].Placing?
    ensures OwnRows(s, w, DeclineSignal(s, w, s.workers[w]))
  {
  }

  lemma OwnRowsQuarantine(s: State, w: nat, s2: State, r: RunKey)
    requires Quarantined(s, r) && OwnRows(s, w, s2) && (s.workers[w].Claimed? || s.workers[w].Placing?)
    ensures Quarantined(s2, r) && Silent(s, s2, r.strategy)
  {
    hide Quarantined, Stranded;
    NotItsWorker(s, r, w);
    WorkersStayOff(s, s2, w, r);
  }

  lemma AnswerStep(cfg: Config, s: State, step: Step, r: RunKey)
    requires Quarantined(s, r) && Enabled(cfg, s, step) && step.Answer?
    ensures Quarantined(Next(cfg, s, step), r) && Silent(s, Next(cfg, s, step), r.strategy)
  {
    hide Quarantined, Stranded, ReplyPlace, Decide1, Submission1, Link1, BreakRun, DeclineSignal, R.Enabled, R.Next;
    NotItsWorker(s, r, step.w);
    WorkersStayOff(s, Next(cfg, s, step), step.w, r);
  }

  lemma EndStep(cfg: Config, s: State, step: Step, r: RunKey)
    requires Quarantined(s, r) && Enabled(cfg, s, step)
    requires step.Finish? || step.Decline? || step.Link? || step.Break? || step.Crash?
    ensures Quarantined(Next(cfg, s, step), r) && Silent(s, Next(cfg, s, step), r.strategy)
  {
    hide Quarantined, Stranded, Next, Enabled;
    NotItsWorker(s, r, step.w);
    DropsIdle(cfg, s, step);
    EndNotActive(cfg, s, step, r.strategy);
    WorkersStayOff(s, Next(cfg, s, step), step.w, r);
  }

  lemma EndNotActive(cfg: Config, s: State, step: Step, sid: string)
    requires Enabled(cfg, s, step)
    requires step.Finish? || step.Decline? || step.Link? || step.Break? || step.Crash?
    ensures Running(Next(cfg, s, step), sid) ==> Running(s, sid)
  {
    hide LinkedAnywhere, R.Enabled, R.Next, Decide1, Submission1, ReplyPlace, Ambiguous, Stranded;
  }

  /** Quarantine is kept by every step of every worker and every user. */
  lemma StepKeepsQuarantine(cfg: Config, s: State, step: Step, r: RunKey)
    requires Quarantined(s, r) && Enabled(cfg, s, step)
    ensures Quarantined(Next(cfg, s, step), r) && Silent(s, Next(cfg, s, step), r.strategy)
  {
    hide Quarantined, Silent, Next, OwnRows, R.Enabled;
    match step
    case Poll(_, _, _) => EarlyStep(cfg, s, step, r);
    case Claim(_, _) => EarlyStep(cfg, s, step, r);
    case Post(_) => EarlyStep(cfg, s, step, r);
    case Decide(w, _, _) =>
      DecideOwns(cfg, s, step);
      OwnRowsQuarantine(s, w, Next(cfg, s, step), r);
    case Submission(w, _, _, _, _, _, _) =>
      SubmissionOwns(cfg, s, step);
      OwnRowsQuarantine(s, w, Next(cfg, s, step), r);
    case Answer(_, _) => AnswerStep(cfg, s, step, r);
    case Finish(_, _, _) => EndStep(cfg, s, step, r);
    case Decline(_) => EndStep(cfg, s, step, r);
    case Link(_) => EndStep(cfg, s, step, r);
    case Break(_) => EndStep(cfg, s, step, r);
    case Crash(_) => EndStep(cfg, s, step, r);
    case _ => UserStep(cfg, s, step, r);
  }

  lemma SilentTwice(a: State, b: State, c: State, sid: string)
    requires Silent(a, b, sid) && Silent(b, c, sid)
    ensures Silent(a, c, sid)
  {
  }

  /** Over any later run, whatever the interleaving, the run stays quarantined and its strategy sends nothing. */
  lemma {:induction false} QuarantineHolds(cfg: Config, s: State, steps: seq<Step>, r: RunKey)
    requires Quarantined(s, r)
    ensures Quarantined(After(cfg, s, steps), r) && Silent(s, After(cfg, s, steps), r.strategy)
    decreases |steps|
  {
    if steps != [] {
      QuarantineHolds(cfg, s, steps[..|steps| - 1], r);
      hide Quarantined, Silent, Next, Enabled;
      var before, step := After(cfg, s, steps[..|steps| - 1]), steps[|steps| - 1];
      if Enabled(cfg, before, step) {
        StepKeepsQuarantine(cfg, before, step, r);
        SilentTwice(s, before, Next(cfg, before, step), r.strategy);
      }
    }
  }

  /** Main result: when a worker dies anywhere between its claim and its last commit, and no other worker is about to send for
      that strategy, no order ever leaves for the strategy again and it is never activated again. */
  lemma CrashQuarantines(cfg: Config, strategies: map<string, Strategy>, workers: set<nat>, before: seq<Step>, w: nat,
                         later: seq<Step>)
    requires var s := After(cfg, Initial(strategies, workers), before);
      && w in s.workers && InFlight(s.workers[w])
      && forall v :: v in s.workers && v != w ==> !CanSend(s.workers[v], s.workers[w].run.strategy)
    ensures var s := After(cfg, Initial(strategies, workers), before);
      var dead := Next(cfg, s, Crash(w));
      var end := After(cfg, dead, later);
      && Stranded(end, s.workers[w].run.strategy)
      && Silent(dead, end, s.workers[w].run.strategy)
  {
    var s := After(cfg, Initial(strategies, workers), before);
    var dead, r := Next(cfg, s, Crash(w)), s.workers[w].run;
    EveryRunIsSafe(cfg, strategies, workers, before);
    hide Safe, Asked, After, Silent, Stranded;
    LeftAlone(s, w);
    QuarantineHolds(cfg, dead, later, r);
    IsStranded(After(cfg, dead, later), r);
  }

  /** The dead worker's run is STARTED, and it was the only worker on it. */
  lemma LeftAlone(s: State, w: nat)
    requires Safe(s) && w in s.workers && InFlight(s.workers[w])
    requires forall v :: v in s.workers && v != w ==> !CanSend(s.workers[v], s.workers[w].run.strategy)
    ensures Quarantined(Put(s, w, Idle), s.workers[w].run)
  {
    hide Reconcile.Good;
  }

  // ---------------------------------------------------------------- a second worker

  const SETTINGS := Settings(PaperMode, 1, 100.0, 10, 1, 0.0, 10.0)
  const CONFIG := Config(SETTINGS, true, 10, 10, {60})
  const ROW := Strategy("u", "i", "s", Mode.Paper, Active, 1, Cnc, Market, 0.0, 10, 1, 2, 3, 60)
  const QUOTE := Quote("i", 1.0, None, None, false, 0.0)

  /** Two workers clear the strategy, and the first claims a candle. */
  function Racing(): seq<Step> {
    [Poll(0, "s", ROW), Poll(1, "s", ROW), Claim(0, 1)]
  }

  /** The second worker goes on to the next candle. */
  function Survivor(): seq<Step> {
    [Claim(1, 2), Decide(1, Buy, true), Submission(1, Some(QUOTE), 0.0, None, true, true, false)]
  }

  function Raced(): State {
    Initial(map["s" := ROW], {0, 1}).(runs := map[RunKey("s", 1) := Started],
      workers := map[0 := Claimed(ROW, RunKey("s", 1)), 1 := Cleared(ROW, "s")])
  }

  lemma Races()
    ensures After(CONFIG, Initial(map["s" := ROW], {0, 1}), Racing()) == Raced()
  {
    hide R.Enabled, R.Next, Decide1, Submission1, Link1, BreakRun, DeclineSignal, ReplyPlace, Ambiguous;
    var start := Initial(map["s" := ROW], {0, 1});
    var a, b := Put(start, 0, Cleared(ROW, "s")), Put(Put(start, 0, Cleared(ROW, "s")), 1, Cleared(ROW, "s"));
    assert Enabled(CONFIG, start, Racing()[0]) && Next(CONFIG, start, Racing()[0]) == a;
    assert Enabled(CONFIG, a, Racing()[1]) && Next(CONFIG, a, Racing()[1]) == b;
    assert Next(CONFIG, b, Racing()[2]) == Raced() by {
      assert Raced().workers == b.workers[0 := Claimed(ROW, RunKey("s", 1))];
    }
    hide Next, Enabled;
    Extends(CONFIG, start, [], start, Racing()[0], a);
    Extends(CONFIG, start, [Racing()[0]], a, Racing()[1], b);
    Extends(CONFIG, start, [Racing()[0], Racing()[1]], b, Racing()[2], Raced());
    assert [] + [Racing()[0]] == [Racing()[0]] && [Racing()[0]] + [Racing()[1]] == [Racing()[0], Racing()[1]];
    assert [Racing()[0], Racing()[1]] + [Racing()[2]] == Racing();
  }

  function Dead(): State {
    Put(Raced(), 0, Idle)
  }

  function SignalOf(): Signal {
    Signal("u", Buy, Created, 1, ClientId("s", 2), None, 0)
  }

  lemma Dies()
    ensures After(CONFIG, Initial(map["s" := ROW], {0, 1}), Racing() + [Crash(0)]) == Dead()
  {
    hide R.Enabled, R.Next, Decide1, Submission1, Link1, BreakRun, DeclineSignal, ReplyPlace, Ambiguous, Stranded, After;
    Races();
    Extends(CONFIG, Initial(map["s" := ROW], {0, 1}), Racing(), Raced(), Crash(0), Dead());
  }

  lemma Routes(s: State)
    requires s.signals == map[] && s.db == R.EMPTY
    ensures Route(CONFIG, s, "s", ROW, Buy) == Submit(1)
  {
    assert SubmittedSince(s, "u", DayStart(s.clock)) == {} && AttemptsSince(s, "u", s.clock - 60) == {};
    assert Linked(s.signals, "s") == {};
  }

  lemma GoesOn()
    ensures After(CONFIG, Dead(), Survivor()[..2])
         == Put(Dead().(runs := Dead().runs[RunKey("s", 2) := Started]), 1, Placing(ROW, RunKey("s", 2), SignalOf()))
  {
    hide R.Enabled, R.Next, Submission1, Link1, BreakRun, DeclineSignal, ReplyPlace, Ambiguous, Stranded, Route, ClientId;
    var a := Put(Dead().(runs := Dead().runs[RunKey("s", 2) := Started]), 1, Claimed(ROW, RunKey("s", 2)));
    var b := Put(a, 1, Placing(ROW, RunKey("s", 2), SignalOf()));
    Routes(a);
    assert Enabled(CONFIG, Dead(), Survivor()[0]) && Next(CONFIG, Dead(), Survivor()[0]) == a;
    assert Enabled(CONFIG, a, Survivor()[1]) && Next(CONFIG, a, Survivor()[1]) == b;
    hide Next, Enabled;
    Extends(CONFIG, Dead(), [], Dead(), Survivor()[0], a);
    Extends(CONFIG, Dead(), [Survivor()[0]], a, Survivor()[1], b);
    assert [] + [Survivor()[0]] == [Survivor()[0]] && [Survivor()[0]] + [Survivor()[1]] == Survivor()[..2];
    assert b == Put(Dead().(runs := Dead().runs[RunKey("s", 2) := Started]), 1, Placing(ROW, RunKey("s", 2), SignalOf()));
  }

  lemma Accepted()
    ensures PlaceLive(SETTINGS, true, true, R.EMPTY, "u", TicketOf(ROW, SignalOf(), None, 1.0), Some(QUOTE), 0.0).Inserted?
  {
    assert OpenOrders(R.EMPTY, "u") == {};
    hide ClientId, Blend;
  }

  lemma Sends(s: State)
    requires s.db == R.EMPTY && 1 in s.workers && s.workers[1] == Placing(ROW, RunKey("s", 2), SignalOf())
    ensures Enabled(CONFIG, s, Survivor()[2])
    ensures Next(CONFIG, s, Survivor()[2]).sent == s.sent + [Sent(RunKey("s", 2), OrderKey("u", ClientId("s", 2)))]
  {
    hide R.Enabled, R.Next, Link1, BreakRun, DeclineSignal, ReplyPlace, Ambiguous, Stranded, Route, ClientId, PlaceLive;
    Accepted();
  }

  /** Nor is a worker that is about to post, in whatever state: its POST leaves. */
  lemma PostingSends(cfg: Config, s: State, w: nat, sid: string)
    requires At(s, w).Posting? && At(s, w).run.strategy == sid
    ensures CanSend(At(s, w), sid) && Enabled(cfg, s, Post(w)) && !Silent(s, Next(cfg, s, Post(w)), sid)
  {
    hide R.Enabled, R.Next, Decide1, Submission1, Link1, BreakRun, DeclineSignal, ReplyPlace, Ambiguous, Stranded;
    var s2 := Next(cfg, s, Post(w));
    assert s2.sent[|s.sent|] == Sent(At(s, w).run, At(s, w).order);
  }

  /** A worker that has cleared the strategy is not stopped by the death of another: it claims the next candle and sends. */
  lemma SurvivorSends()
    ensures var start := Initial(map["s" := ROW], {0, 1});
      var s, dead := After(CONFIG, start, Racing()), After(CONFIG, start, Racing() + [Crash(0)]);
      && InFlight(At(s, 0)) && At(s, 0).run.strategy == "s" && CanSend(At(s, 1), "s")
      && !Silent(dead, After(CONFIG, dead, Survivor()), "s")
  {
    hide Next, Enabled, ClientId;
    Races();
    Dies();
    GoesOn();
    var b := After(CONFIG, Dead(), Survivor()[..2]);
    Sends(b);
    AfterOne(CONFIG, Dead(), Survivor()[..2], Survivor()[2]);
    assert Survivor()[..2] + [Survivor()[2]] == Survivor();
    var end := After(CONFIG, Dead(), Survivor());
    hide After;
    assert end.sent[|Dead().sent|].run.strategy == "s";
  }
}
