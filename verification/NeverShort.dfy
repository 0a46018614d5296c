/** One worker: a strategy's own exposure is never negative and never above its last BUY. */
module NeverShort {
  import opened Ledger
  import opened Options
  import opened Paper
  import opened Live
  import opened Reconcile
  import opened Protocol
  import opened AtMostOnce
  import opened Range
  import R = Runs

  // ---------------------------------------------------------------- the invariant

  function LastBuy(s: State, sid: string): int {
    if sid in s.lastBuy then s.lastBuy[sid] else 0
  }

  /** Whatever the linked orders still do, the exposure stays between zero and the last BUY. */
  ghost predicate Covers(db: Db, linked: set<OrderKey>, last: int) {
    && (forall k :: k in linked ==> k in db.orders)
    && 0.0 <= Low(db.orders, linked) && High(db.orders, linked) <= last as real
  }

  /** An order being placed fits what the linked orders may still come to. */
  ghost predicate Fits(db: Db, linked: set<OrderKey>, signal: Signal) {
    && signal.quantity >= 1
    && if signal.side == Buy then High(db.orders, linked) <= 0.0 else signal.quantity as real <= Low(db.orders, linked)
  }

  predicate Holds(work: Work) {
    work.Placing? || HasOrder(work)
  }

  predicate HasOrder(work: Work) {
    work.Posting? || work.Awaiting? || work.Linking?
  }

  ghost predicate WorkFits(s: State, work: Work) {
    Holds(work) ==>
      && Fits(s.db, Linked(s.signals, work.run.strategy), work.signal)
      && (HasOrder(work) ==>
            work.order in s.db.orders && s.db.orders[work.order].side == work.signal.side
            && s.db.orders[work.order].quantity <= work.signal.quantity)
      && (work.Posting? || work.Awaiting? ==> !LinkedAnywhere(s, work.order))
  }

  ghost predicate OneWorker(s: State) {
    forall w, v :: w in s.workers && v in s.workers ==> w == v
  }

  ghost predicate NotShort(s: State) {
    && Good(s.db) && OneWorker(s)
    && (forall sid :: Covers(s.db, Linked(s.signals, sid), LastBuy(s, sid)))
    && (forall w :: w in s.workers ==> WorkFits(s, s.workers[w]))
  }

  /** The orders of strategies: linked to a signal, or placed by a worker that has yet to link them. */
  ghost function Own(s: State): set<OrderKey> {
    (set r | r in s.signals && s.signals[r].order.Some? :: s.signals[r].order.value)
    + (set w | w in s.workers && HasOrder(s.workers[w]) :: s.workers[w].order)
  }

  /** The row of the order that an edit or a broker's answer is about, before and after. */
  datatype Rewrite = Rewrite(key: OrderKey, before: Order, after: Order)

  predicate Rewrites(t: R.Step) {
    t.Modify? || t.PlaceAnswer? || t.CancelAnswer?
  }

  function RewriteOf(cfg: Settings, db: Db, t: R.Step): (r: Rewrite)
    requires Rewrites(t) && R.Enabled(db, t)
  {
    var db2 := R.Next(cfg, db, t);
    Rewrite(t.key, db.orders[t.key], if t.key in db2.orders then db2.orders[t.key] else db.orders[t.key])
  }

  /** How much an order may sell, or buy, beyond what it might have before. */
  function MoreSold(r: Rewrite): int {
    Least(r.before) - Least(r.after)
  }

  function MoreBought(r: Rewrite): int {
    Most(r.after) - Most(r.before)
  }

  /** What an edit or an answer adds to a linked order is there to sell, or was allowed to buy, also with the order that a
      worker is placing; and an order that is still to be linked is not raised above its signal. */
  ghost predicate Affords(s: State, r: Rewrite) {
    && (forall sid :: r.key in Linked(s.signals, sid) ==>
          && MoreSold(r) as real <= Low(s.db.orders, Linked(s.signals, sid))
          && MoreBought(r) as real <= LastBuy(s, sid) as real - High(s.db.orders, Linked(s.signals, sid)))
    && (forall w :: w in s.workers && Holds(s.workers[w]) ==> AffordsWork(s, r, s.workers[w]))
  }

  ghost predicate AffordsWork(s: State, r: Rewrite, work: Work)
    requires Holds(work)
  {
    var linked := Linked(s.signals, work.run.strategy);
    && (r.key in linked ==>
          if work.signal.side == Buy then MoreBought(r) as real <= -High(s.db.orders, linked)
          else MoreSold(r) as real <= Low(s.db.orders, linked) - work.signal.quantity as real)
    && (HasOrder(work) && work.order == r.key ==> r.after.quantity <= work.signal.quantity)
  }

  /** No edit raises an order of a strategy, and no late answer reopens one, beyond what the strategy can afford. Everything
      else is free: orders that users place for themselves, edits that raise nothing, answers that leave an order closed. */
  ghost predicate CalmStep(cfg: Config, s: State, step: Step) {
    step.Trading? && R.Enabled(s.db, step.step) ==>
      || R.Calm(s.db, step.step, Own(s))
      || (Rewrites(step.step) && Affords(s, RewriteOf(cfg.trading, s.db, step.step)))
  }

  lemma LinkedIsOwn(s: State, sid: string)
    ensures Linked(s.signals, sid) <= Own(s)
  {
    forall k | k in Linked(s.signals, sid)
      ensures k in Own(s)
    {
      var r :| r in s.signals && r.strategy == sid && s.signals[r].order.Some? && s.signals[r].order.value == k;
    }
  }

  lemma HeldIsOwn(s: State, w: nat)
    requires w in s.workers && HasOrder(s.workers[w])
    ensures s.workers[w].order in Own(s)
  {
  }

  lemma FewerAdvance(db: Db, db2: Db, own: set<OrderKey>, fewer: set<OrderKey>)
    requires R.AdvancesOn(db, db2, own) && forall k :: k in fewer && k in db.orders ==> k in own
    ensures R.AdvancesOn(db, db2, fewer)
  {
  }

  // ---------------------------------------------------------------- one order table to a later one

  lemma CoversMoves(db: Db, db2: Db, linked: set<OrderKey>, last: int)
    requires Good(db) && Good(db2) && R.AdvancesOn(db, db2, linked) && Covers(db, linked, last)
    ensures Covers(db2, linked, last)
  {
    RangeNarrows(db, db2, linked);
    hide Good, Low, High;
  }

  /** A range that only narrows keeps the invariant. */
  lemma TablesMove(s: State, db2: Db)
    requires NotShort(s) && Good(db2) && R.AdvancesOn(s.db, db2, Own(s))
    ensures NotShort(s.(db := db2))
  {
    hide Good, Covers, Low, High, R.AdvancesOn, Own;
    var s2 := s.(db := db2);
    forall sid
      ensures Covers(db2, Linked(s.signals, sid), LastBuy(s, sid))
    {
      LinkedIsOwn(s, sid);
      FewerAdvance(s.db, db2, Own(s), Linked(s.signals, sid));
      CoversMoves(s.db, db2, Linked(s.signals, sid), LastBuy(s, sid));
    }
    forall w | w in s.workers && Holds(s.workers[w])
      ensures Fits(db2, Linked(s.signals, s.workers[w].run.strategy), s.workers[w].signal)
      ensures HasOrder(s.workers[w]) ==> SameTerms(s.db, db2, s.workers[w].order)
    {
      var linked := Linked(s.signals, s.workers[w].run.strategy);
      LinkedIsOwn(s, s.workers[w].run.strategy);
      FewerAdvance(s.db, db2, Own(s), linked);
      LinkedExist(s, s.workers[w].run.strategy);
      RangeNarrows(s.db, db2, linked);
      if HasOrder(s.workers[w]) {
        HeldIsOwn(s, w);
        TermsStay(s.db, db2, Own(s), s.workers[w].order);
      }
    }
    assert forall k :: LinkedAnywhere(s2, k) <==> LinkedAnywhere(s, k);
    hide Linked, LinkedAnywhere;
  }

  predicate SameTerms(db: Db, db2: Db, k: OrderKey) {
    k in db.orders ==> k in db2.orders && db2.orders[k].side == db.orders[k].side && db2.orders[k].quantity <= db.orders[k].quantity
  }

  lemma TermsStay(db: Db, db2: Db, own: set<OrderKey>, k: OrderKey)
    requires R.AdvancesOn(db, db2, own) && k in own
    ensures SameTerms(db, db2, k)
  {
  }

  lemma LinkedExist(s: State, sid: string)
    requires NotShort(s)
    ensures forall k :: k in Linked(s.signals, sid) ==> k in s.db.orders
  {
    hide Good;
    assert Covers(s.db, Linked(s.signals, sid), LastBuy(s, sid));
  }

  /** Rewriting one row within what is afforded keeps the invariant. */
  lemma RowMove(s: State, db2: Db, r: Rewrite)
    requires NotShort(s) && Good(db2) && r.key in s.db.orders && r.before == s.db.orders[r.key]
    requires db2.orders == s.db.orders[r.key := r.after] && r.after.side == r.before.side && Affords(s, r)
    ensures NotShort(s.(db := db2))
  {
    hide Good, Low, High, Least, Most;
    var s2 := s.(db := db2);
    forall sid
      ensures Covers(db2, Linked(s.signals, sid), LastBuy(s, sid))
    {
      LinkedExist(s, sid);
      RowRange(s.db, db2, Linked(s.signals, sid), r);
      assert Covers(s.db, Linked(s.signals, sid), LastBuy(s, sid));
    }
    hide Covers;
    forall w | w in s.workers && Holds(s.workers[w])
      ensures Fits(db2, Linked(s.signals, s.workers[w].run.strategy), s.workers[w].signal)
    {
      assert AffordsWork(s, r, s.workers[w]) && WorkFits(s, s.workers[w]);
      RowRange(s.db, db2, Linked(s.signals, s.workers[w].run.strategy), r);
    }
    assert forall k :: LinkedAnywhere(s2, k) <==> LinkedAnywhere(s, k);
    hide Linked, LinkedAnywhere, Fits;
  }

  lemma RowRange(db: Db, db2: Db, linked: set<OrderKey>, r: Rewrite)
    requires r.key in db.orders && r.before == db.orders[r.key] && db2.orders == db.orders[r.key := r.after]
    ensures Low(db2.orders, linked) == Low(db.orders, linked) - if r.key in linked then MoreSold(r) as real else 0.0
    ensures High(db2.orders, linked) == High(db.orders, linked) + if r.key in linked then MoreBought(r) as real else 0.0
  {
    SumMoves(db.orders, linked, Least, r.key, r.after);
    SumMoves(db.orders, linked, Most, r.key, r.after);
    hide Least, Most, Sum;
  }

  /** Rewriting an order that no signal links to changes nobody's range. */
  lemma UnlinkedMove(s: State, k: OrderKey, o2: Order)
    requires NotShort(s) && k in s.db.orders && Good(PutRow(s.db, k, o2)) && !LinkedAnywhere(s, k)
    requires o2.side == s.db.orders[k].side && o2.quantity == s.db.orders[k].quantity
    ensures NotShort(s.(db := PutRow(s.db, k, o2)))
  {
    var r := Rewrite(k, s.db.orders[k], o2);
    assert Affords(s, r) by {
      hide Good, Covers, Fits;
      assert forall sid :: k !in Linked(s.signals, sid);
    }
    hide NotShort, Affords;
    RowMove(s, PutRow(s.db, k, o2), r);
  }

  // ---------------------------------------------------------------- worker steps

  /** Writing a signal without an order link, runs, strategies or the history of sends changes no exposure. */
  lemma NoLinkChanges(s: State, s2: State, w: nat)
    requires NotShort(s) && s2.db == s.db && s2.lastBuy == s.lastBuy
    requires w in s2.workers && s2.workers == s.workers[w := s2.workers[w]] && w in s.workers
    requires SameLinks(s.signals, s2.signals)
    requires WorkFits(s2, s2.workers[w])
    ensures NotShort(s2)
  {
    hide Good, Covers, Fits;
    forall sid
      ensures Linked(s2.signals, sid) == Linked(s.signals, sid)
    {
      SameLinked(s.signals, s2.signals, sid);
    }
    hide Linked, LinkedAnywhere;
  }

  ghost predicate SameLinks(a: map<RunKey, Signal>, b: map<RunKey, Signal>) {
    && (forall r :: r in a && a[r].order.Some? ==> r in b && b[r].order == a[r].order)
    && (forall r :: r in b && b[r].order.Some? ==> r in a && a[r].order == b[r].order)
  }

  lemma SameLinked(a: map<RunKey, Signal>, b: map<RunKey, Signal>, sid: string)
    requires SameLinks(a, b)
    ensures Linked(a, sid) == Linked(b, sid)
  {
    forall k | k in Linked(a, sid)
      ensures k in Linked(b, sid)
    {
      var r :| r in a && r.strategy == sid && a[r].order.Some? && a[r].order.value == k;
      assert r in b && b[r].order.Some? && b[r].order.value == k;
    }
    forall k | k in Linked(b, sid)
      ensures k in Linked(a, sid)
    {
      var r :| r in b && r.strategy == sid && b[r].order.Some? && b[r].order.value == k;
      assert r in a && a[r].order.Some? && a[r].order.value == k;
    }
  }

  lemma SameLinkedAnywhere(s: State, s2: State, k: OrderKey)
    requires SameLinks(s.signals, s2.signals)
    ensures LinkedAnywhere(s, k) <==> LinkedAnywhere(s2, k)
  {
    if LinkedAnywhere(s, k) {
      var r :| r in s.signals && s.signals[r].order == Some(k);
      assert r in s2.signals && s2.signals[r].order == Some(k);
    }
    if LinkedAnywhere(s2, k) {
      var r :| r in s2.signals && s2.signals[r].order == Some(k);
      assert r in s.signals && s.signals[r].order == Some(k);
    }
  }

  /** Only finished runs have linked signals. */
  ghost predicate LinksAreDone(s: State) {
    forall r :: r in s.signals && s.signals[r].order.Some? ==> r in s.runs && s.runs[r] == Succeeded
  }

  ghost predicate Invariant(s: State) {
    Safe(s) && Asked(s) && LinksAreDone(s) && NotShort(s)
  }

  /** A worker writes an unlinked signal for its own run. */
  lemma OwnSignal(s: State, w: nat, signal: Signal)
    requires Safe(s) && LinksAreDone(s) && w in s.workers && InFlight(s.workers[w]) && signal.order.None?
    ensures SameLinks(s.signals, s.signals[s.workers[w].run := signal])
  {
    hide Good;
  }

  lemma OwnRun(s: State, w: nat, status: RunStatus, s2: State)
    requires Safe(s) && LinksAreDone(s) && w in s.workers && InFlight(s.workers[w])
    requires s2.runs == s.runs[s.workers[w].run := status]
    requires s2.signals == s.signals || exists signal: Signal :: signal.order.None? && s2.signals == s.signals[s.workers[w].run := signal]
    ensures LinksAreDone(s2)
  {
    hide Good;
  }

  lemma Irrelevant(s: State, s2: State)
    requires NotShort(s) && s2.db == s.db && s2.signals == s.signals && s2.workers == s.workers && s2.lastBuy == s.lastBuy
    ensures NotShort(s2)
  {
    hide Good, Covers, Fits, Linked;
    assert forall k :: LinkedAnywhere(s2, k) <==> LinkedAnywhere(s, k);
    hide LinkedAnywhere;
  }

  lemma LinkedAreRows(s: State, k: OrderKey)
    requires NotShort(s) && k !in s.db.orders
    ensures !LinkedAnywhere(s, k)
  {
    if LinkedAnywhere(s, k) {
      var r :| r in s.signals && s.signals[r].order == Some(k);
      LinkedExist(s, r.strategy);
    }
  }

  lemma NotLinkedIsOut(s: State, k: OrderKey, sid: string)
    requires !LinkedAnywhere(s, k)
    ensures k !in Linked(s.signals, sid)
  {
  }

  lemma WorkOf(s: State, w: nat)
    requires NotShort(s) && w in s.workers
    ensures WorkFits(s, s.workers[w])
  {
  }

  lemma DropNotShort(s: State, w: nat, s2: State)
    requires Safe(s) && LinksAreDone(s) && NotShort(s) && w in s.workers
    requires s2.db == s.db && s2.lastBuy == s.lastBuy && s2.workers == s.workers[w := Idle]
    requires s2.signals == s.signals
      || (InFlight(s.workers[w]) && exists signal: Signal :: signal.order.None? && s2.signals == s.signals[s.workers[w].run := signal])
    ensures NotShort(s2)
  {
    if s2.signals != s.signals {
      var signal: Signal :| signal.order.None? && s2.signals == s.signals[s.workers[w].run := signal];
      OwnSignal(s, w, signal);
    }
    hide Safe, NotShort, LinksAreDone;
    NoLinkChanges(s, s2, w);
  }

  lemma RouteFits(cfg: Config, s: State, sid: string, snap: Strategy, side: Side, signal: Signal)
    requires NotShort(s) && snap.quantity >= 1 && Route(cfg, s, sid, snap, side).Submit?
    requires signal.side == side && signal.quantity == Route(cfg, s, sid, snap, side).quantity
    ensures Fits(s.db, Linked(s.signals, sid), signal)
  {
    LinkedExist(s, sid);
    hide Good, SubmittedSince, AttemptsSince, Covers, Linked, Exposure, Low, High;
    NothingOpen(s.db, Linked(s.signals, sid));
  }

  /** What the routing commit writes: the run's end, or nothing yet and a signal in memory. */
  lemma DecideShape(cfg: Config, s: State, step: Step)
    requires Enabled(cfg, s, step) && step.Decide?
    ensures var w, s2, work := step.w, Next(cfg, s, step), At(s, step.w);
      && w in s.workers && w in s2.workers && s2.db == s.db && s2.lastBuy == s.lastBuy
      && (s2.workers[w].Idle? ==>
            && s2.workers == s.workers[w := Idle] && s2.runs == s.runs[work.run := Skipped]
            && (s2.signals == s.signals
                || exists signal: Signal :: signal.order.None? && s2.signals == s.signals[work.run := signal]))
      && (!s2.workers[w].Idle? ==>
            && s2.workers[w].Placing? && s2.workers[w].run == work.run
            && s2 == Put(s, w, s2.workers[w])
            && Route(cfg, s, work.run.strategy, work.snap, step.side)
               == Submit(s2.workers[w].signal.quantity) && s2.workers[w].signal.side == step.side)
  {
    hide Next, Enabled, Route, ClientId;
    DecideNext(cfg, s, step);
    var s2, work := Next(cfg, s, step), At(s, step.w);
    if s2.signals != s.signals {
      assert s2.signals[work.run].order.None? && s2.signals == s.signals[work.run := s2.signals[work.run]];
    }
  }

  lemma DecideNotShort(cfg: Config, s: State, step: Step)
    requires Invariant(s) && Enabled(cfg, s, step) && step.Decide?
    ensures NotShort(Next(cfg, s, step)) && LinksAreDone(Next(cfg, s, step))
  {
    hide Safe, NotShort, LinksAreDone, Asked, Route, Decide1, Next, Enabled, Linked, Fits;
    DecideNext(cfg, s, step);
    DecideShape(cfg, s, step);
    var w, s2, work := step.w, Next(cfg, s, step), At(s, step.w);
    AskedOne(s, w);
    if s2.workers[w].Idle? {
      OwnRun(s, w, Skipped, s2);
      DropNotShort(s, w, s2);
    } else {
      RouteFits(cfg, s, work.run.strategy, work.snap, step.side, s2.workers[w].signal);
      SameDone(s, s2);
      NoLinkChanges(s, s2, w);
    }
  }

  lemma SameDone(s: State, s2: State)
    requires LinksAreDone(s) && s2.signals == s.signals && s2.runs == s.runs
    ensures LinksAreDone(s2)
  {
  }

  lemma PlaceFits(cfg: Settings, db: Db, user: string, t: Ticket, quote: Option<Quote>, now: real, gate: bool, connected: bool)
    requires Good(db) && t.quantity >= 1
    ensures var r, k := PlaceLive(cfg, gate, connected, db, user, t, quote, now), OrderKey(user, t.client);
      && (r.Inserted? ==> k !in db.orders && k in r.db.orders && IsFor(r.db.orders[k], t) && R.Advances(db, r.db))
      && (r.Existing? ==> k in db.orders && IsFor(db.orders[k], t))
  {
    PlaceKeepsRules(cfg, db, user, t, quote, now);
    R.StepAdvances(cfg, db, R.Place(user, t, quote, now, gate, connected), db.orders.Keys);
    ExistingMatches(cfg, db, user, t, quote, now);
    hide Good, PlacePaper, RiskCheck, QuoteCheck, Sound, PaperRules, R.Advances;
  }

  lemma ExistingMatches(cfg: Settings, db: Db, user: string, t: Ticket, quote: Option<Quote>, now: real)
    ensures PlacePaper(cfg, db, user, t, quote, now).Existing? ==>
      OrderKey(user, t.client) in db.orders && IsFor(db.orders[OrderKey(user, t.client)], t)
  {
    hide FillRest, PlaceCheck;
  }

  lemma SubmissionNotShort(cfg: Config, s: State, step: Step)
    requires Invariant(s) && Enabled(cfg, s, step) && step.Submission?
    ensures NotShort(Next(cfg, s, step)) && LinksAreDone(Next(cfg, s, step))
  {
    hide Safe, NotShort, LinksAreDone, Submission1, R.Enabled, R.Next, Decide1, Link1, Stranded, Ambiguous, ReplyPlace,
      BreakRun, DeclineSignal;
    SubmittedNotShort(cfg, s, step, At(s, step.w));
  }

  lemma SubmittedNotShort(cfg: Config, s: State, step: Step, work: Work)
    requires Invariant(s) && step.Submission? && step.quote.Some?
    requires step.w in s.workers && s.workers[step.w] == work && work.Placing?
    ensures NotShort(Submission1(cfg, s, step, work)) && LinksAreDone(Submission1(cfg, s, step, work))
  {
    hide Safe, NotShort, LinksAreDone, PlaceLive, TicketOf, WorkFits, DeclineSignal, Asked, Good, IsFor, R.Advances,
      R.AdvancesOn, LinkedAnywhere, Linked, Fits;
    AskedOne(s, step.w);
    var w, s2 := step.w, Submission1(cfg, s, step, work);
    var t := TicketOf(work.snap, work.signal, step.tickSize, step.quote.value.ltp);
    var k := OrderKey(work.snap.user, t.client);
    SubmittedFits(cfg, s, step, work);
    match PlaceLive(cfg.trading, step.gate, step.connected, s.db, work.snap.user, t, step.quote, step.time)
    case Inserted(db2) => InsertNotShort(s, w, db2, k, s2);
    case Existing => ExistingNotShort(s, w, k, s2);
    case Refused(error) =>
      if error == ConnectionRequired && step.expired {
        UnlinkedNotShort(s, w, s2);
      } else {
        DeclinedNotShort(s, w);
      }
  }

  /** What the order manager's answer means for the signal it was asked for. */
  lemma SubmittedFits(cfg: Config, s: State, step: Step, work: Work)
    requires Invariant(s) && step.Submission? && step.quote.Some?
    requires step.w in s.workers && s.workers[step.w] == work && work.Placing?
    ensures var t := TicketOf(work.snap, work.signal, step.tickSize, step.quote.value.ltp);
      var k := OrderKey(work.snap.user, t.client);
      var r := PlaceLive(cfg.trading, step.gate, step.connected, s.db, work.snap.user, t, step.quote, step.time);
      && (r.Inserted? ==>
            && Good(r.db) && R.Advances(s.db, r.db) && k !in s.db.orders && k in r.db.orders
            && r.db.orders[k].side == work.signal.side && r.db.orders[k].quantity == work.signal.quantity)
      && (r.Existing? ==>
            && k in s.db.orders
            && s.db.orders[k].side == work.signal.side && s.db.orders[k].quantity == work.signal.quantity)
  {
    hide Safe, LinksAreDone, NotShort, PlaceLive, TicketOf, Asked, Good, R.Advances;
    AskedOne(s, step.w);
    GoodTables(s);
    var t := TicketOf(work.snap, work.signal, step.tickSize, step.quote.value.ltp);
    TicketShape(work.snap, work.signal, step.tickSize, step.quote.value.ltp);
    PlaceGood(cfg.trading, s.db, work.snap.user, t, step.quote, step.time, step.gate, step.connected);
    PlaceFits(cfg.trading, s.db, work.snap.user, t, step.quote, step.time, step.gate, step.connected);
  }

  /** The signal is committed and the order refused: nothing is linked and nothing is held. */
  lemma UnlinkedNotShort(s: State, w: nat, s2: State)
    requires Safe(s) && LinksAreDone(s) && NotShort(s) && w in s.workers && s.workers[w].Placing?
    requires s.workers[w].signal.order.None? && s2.db == s.db && s2.lastBuy == s.lastBuy && s2.runs == s.runs
    requires s2.signals == s.signals[s.workers[w].run := s.workers[w].signal]
    requires w in s2.workers && s2.workers == s.workers[w := s2.workers[w]] && !Holds(s2.workers[w])
    ensures NotShort(s2) && LinksAreDone(s2)
  {
    hide Safe, NotShort, LinksAreDone, WorkFits;
    OwnSignal(s, w, s.workers[w].signal);
    OwnStarted(s, w, s.workers[w].signal, s2);
    NotHolding(s2, s2.workers[w]);
    NoLinkChanges(s, s2, w);
  }

  lemma DeclinedNotShort(s: State, w: nat)
    requires Safe(s) && LinksAreDone(s) && NotShort(s) && w in s.workers
    requires (s.workers[w].Placing? || s.workers[w].Declining?) && s.workers[w].signal.order.None?
    ensures NotShort(DeclineSignal(s, w, s.workers[w])) && LinksAreDone(DeclineSignal(s, w, s.workers[w]))
  {
    hide Safe, NotShort, LinksAreDone;
    var s2 := DeclineSignal(s, w, s.workers[w]);
    var signal := s.workers[w].signal.(status := Declined);
    assert signal.order.None? && s2.signals == s.signals[s.workers[w].run := signal];
    OwnRun(s, w, RunFailed, s2);
    DropNotShort(s, w, s2);
  }

  lemma NotHolding(s: State, work: Work)
    requires !Holds(work)
    ensures WorkFits(s, work)
  {
  }

  lemma GoodTables(s: State)
    requires NotShort(s)
    ensures Good(s.db)
  {
  }

  lemma OwnStarted(s: State, w: nat, signal: Signal, s2: State)
    requires Safe(s) && LinksAreDone(s) && w in s.workers && InFlight(s.workers[w]) && signal.order.None?
    requires s2.signals == s.signals[s.workers[w].run := signal] && s2.runs == s.runs
    ensures LinksAreDone(s2)
  {
    hide Good;
  }

  lemma InsertNotShort(s: State, w: nat, db2: Db, k: OrderKey, s2: State)
    requires Safe(s) && LinksAreDone(s) && NotShort(s) && w in s.workers && s.workers[w].Placing?
    requires s.workers[w].signal.order.None?
    requires Good(db2) && R.Advances(s.db, db2) && k !in s.db.orders && k in db2.orders
    requires db2.orders[k].side == s.workers[w].signal.side && db2.orders[k].quantity == s.workers[w].signal.quantity
    requires s2.db == db2 && s2.runs == s.runs && s2.lastBuy == s.lastBuy
    requires s2.signals == s.signals[s.workers[w].run := s.workers[w].signal]
    requires w in s2.workers && s2.workers == s.workers[w := s2.workers[w]]
    requires s2.workers[w] == Linking(s.workers[w].snap, s.workers[w].run, s.workers[w].signal, k)
      || s2.workers[w] == Posting(s.workers[w].snap, s.workers[w].run, s.workers[w].signal, k)
    ensures NotShort(s2) && LinksAreDone(s2)
  {
    hide Safe, NotShort, LinksAreDone, Good, Fits, R.AdvancesOn, Own;
    var mid := s.(db := db2);
    OwnSignal(s, w, s.workers[w].signal);
    OwnStarted(s, w, s.workers[w].signal, s2);
    LinkedAreRows(s, k);
    FewerAdvance(s.db, db2, s.db.orders.Keys, Own(s));
    TablesMove(s, db2);
    WorkOf(mid, w);
    SameLinked(mid.signals, s2.signals, s.workers[w].run.strategy);
    SameLinkedAnywhere(mid, s2, k);
    SameLinkedAnywhere(s, mid, k);
    hide Linked, LinkedAnywhere, SameLinks;
    NoLinkChanges(mid, s2, w);
  }

  lemma ExistingNotShort(s: State, w: nat, k: OrderKey, s2: State)
    requires LinksAreDone(s) && NotShort(s) && w in s.workers && s.workers[w].Placing?
    requires k in s.db.orders && s.db.orders[k].side == s.workers[w].signal.side
      && s.db.orders[k].quantity == s.workers[w].signal.quantity
    requires s2 == Put(s, w, Linking(s.workers[w].snap, s.workers[w].run, s.workers[w].signal, k))
    ensures NotShort(s2) && LinksAreDone(s2)
  {
    SameDone(s, s2);
    WorkOf(s, w);
    hide NotShort, LinksAreDone, Fits, Linked;
    NoLinkChanges(s, s2, w);
  }

  lemma PostNotShort(cfg: Config, s: State, step: Step)
    requires Invariant(s) && Enabled(cfg, s, step) && step.Post?
    ensures NotShort(Next(cfg, s, step)) && LinksAreDone(Next(cfg, s, step))
  {
    hide Safe, NotShort, LinksAreDone, Fits, Linked;
    SameDone(s, Next(cfg, s, step));
    WorkOf(s, step.w);
    NoLinkChanges(s, Next(cfg, s, step), step.w);
  }

  lemma AnswerNotShort(cfg: Config, s: State, step: Step)
    requires Invariant(s) && Enabled(cfg, s, step) && step.Answer?
    ensures NotShort(Next(cfg, s, step)) && LinksAreDone(Next(cfg, s, step))
  {
    hide NotShort, LinksAreDone, Fits, Linked, PlaceReplied, Good;
    var w, s2, work := step.w, Next(cfg, s, step), At(s, step.w);
    WorkOf(s, w);
    assert work.order in s.db.orders && s.db.orders[work.order].mode == Mode.Live;
    hide Safe;
    var o2 := PlaceReplied(s.db.orders[work.order], step.reply);
    R.PlaceReplyShape(s.db.orders[work.order], step.reply);
    GoodTables(s);
    R.StepKeepsGood(cfg.trading, s.db, R.PlaceAnswer(work.order, step.reply));
    UnlinkedMove(s, work.order, o2);
    var mid := s.(db := PutRow(s.db, work.order, o2));
    SameDone(s, s2);
    WorkOf(mid, w);
    NoLinkChanges(mid, s2, w);
  }

  /** Linking an order the worker placed: the range takes over the room that was reserved for it. */
  lemma LinkCovers(db: Db, linked: set<OrderKey>, last: int, k: OrderKey, signal: Signal)
    requires Good(db) && Covers(db, linked, last) && Fits(db, linked, signal) && k in db.orders && k !in linked
    requires db.orders[k].side == signal.side && db.orders[k].quantity <= signal.quantity
    ensures Covers(db, linked + {k}, if signal.side == Buy then signal.quantity else last)
  {
    FilledIsSum(db, k);
    hide Good, Sum;
    SumLinks(db.orders, linked, Least, k);
    SumLinks(db.orders, linked, Most, k);
  }

  lemma LinkedAfter(signals: map<RunKey, Signal>, run: RunKey, signal: Signal, sid: string)
    requires signal.order.Some? && (run in signals ==> signals[run].order.None?)
    ensures Linked(signals[run := signal], sid)
         == if run.strategy == sid then Linked(signals, sid) + {signal.order.value} else Linked(signals, sid)
  {
    var after := signals[run := signal];
    forall k | k in Linked(after, sid)
      ensures k in Linked(signals, sid) || (run.strategy == sid && k == signal.order.value)
    {
      var r :| r in after && r.strategy == sid && after[r].order.Some? && after[r].order.value == k;
      assert r != run ==> r in signals && signals[r].order.Some? && signals[r].order.value == k;
    }
    forall k | k in Linked(signals, sid)
      ensures k in Linked(after, sid)
    {
      var r :| r in signals && r.strategy == sid && signals[r].order.Some? && signals[r].order.value == k;
      assert r in after && after[r].order.Some? && after[r].order.value == k;
    }
    if run.strategy == sid {
      assert run in after && after[run].order.Some? && after[run].order.value == signal.order.value;
    }
  }

  lemma OwnUnlinked(s: State, w: nat)
    requires Safe(s) && LinksAreDone(s) && w in s.workers && InFlight(s.workers[w])
    ensures s.workers[w].run in s.signals ==> s.signals[s.workers[w].run].order.None?
  {
    hide Good;
  }

  lemma LinkNotShort(cfg: Config, s: State, step: Step)
    requires Invariant(s) && Enabled(cfg, s, step) && step.Link?
    ensures NotShort(Next(cfg, s, step)) && LinksAreDone(Next(cfg, s, step))
  {
    hide Safe, NotShort, LinksAreDone, Covers, Fits, LinkedAnywhere, Linked, Good;
    var w, s2, work := step.w, Next(cfg, s, step), At(s, step.w);
    OwnUnlinked(s, w);
    if LinkedAnywhere(s, work.order) {
      OwnRun(s, w, RunFailed, s2);
      DropNotShort(s, w, s2);
    } else {
      var signal := work.signal.(status := OrderSubmitted, order := Some(work.order));
      WorkOf(s, w);
      GoodTables(s);
      LinkDone(s, w, signal, s2);
      forall sid
        ensures Covers(s2.db, Linked(s2.signals, sid), LastBuy(s2, sid))
      {
        LinkedAfter(s.signals, work.run, signal, sid);
        CoversOf(s, sid);
        if sid == work.run.strategy {
          NotLinkedIsOut(s, work.order, sid);
          LinkCovers(s.db, Linked(s.signals, sid), LastBuy(s, sid), work.order, work.signal);
        }
      }
      IdleNotShort(s, s2, w);
    }
  }

  lemma CoversOf(s: State, sid: string)
    requires NotShort(s)
    ensures Covers(s.db, Linked(s.signals, sid), LastBuy(s, sid))
  {
  }

  lemma LinkDone(s: State, w: nat, signal: Signal, s2: State)
    requires LinksAreDone(s) && w in s.workers && s.workers[w].Linking?
    requires s2.runs == s.runs[s.workers[w].run := Succeeded]
    requires s2.signals == s.signals[s.workers[w].run := signal]
    ensures LinksAreDone(s2)
  {
  }

  lemma IdleNotShort(s: State, s2: State, w: nat)
    requires NotShort(s) && w in s.workers && s2.db == s.db && s2.workers == s.workers[w := Idle]
    requires forall sid :: Covers(s2.db, Linked(s2.signals, sid), LastBuy(s2, sid))
    ensures NotShort(s2)
  {
    hide Good, Covers, Fits, Linked, LinkedAnywhere;
    forall v | v in s2.workers
      ensures !Holds(s2.workers[v])
    {
    }
  }

  lemma DropsNotShort(cfg: Config, s: State, step: Step)
    requires Invariant(s) && Enabled(cfg, s, step)
    requires step.Finish? || step.Break?
    ensures NotShort(Next(cfg, s, step)) && LinksAreDone(Next(cfg, s, step))
  {
    hide R.Enabled, R.Next, Decide1, Submission1, Link1, Stranded, Ambiguous, ReplyPlace;
    AskedOne(s, step.w);
    hide Safe, NotShort, LinksAreDone;
    var s2 := Next(cfg, s, step);
    OwnRun(s, step.w, if step.Finish? then step.status else RunFailed, s2);
    DropNotShort(s, step.w, s2);
  }

  lemma DeclineNotShort(cfg: Config, s: State, w: nat)
    requires Invariant(s) && At(s, w).Declining?
    ensures NotShort(Next(cfg, s, Decline(w))) && LinksAreDone(Next(cfg, s, Decline(w)))
  {
    AskedOne(s, w);
    hide Safe, NotShort, LinksAreDone, Asked;
    DeclinedNotShort(s, w);
  }

  lemma EarlyNotShort(cfg: Config, s: State, step: Step)
    requires Invariant(s) && Enabled(cfg, s, step)
    requires step.Poll? || step.Claim? || step.Crash?
    ensures NotShort(Next(cfg, s, step)) && LinksAreDone(Next(cfg, s, step))
  {
    hide R.Enabled, R.Next, Decide1, Submission1, Link1, Ambiguous, ReplyPlace, BreakRun, DeclineSignal;
    hide Safe, NotShort, Stranded;
    var s2 := Next(cfg, s, step);
    if s2.workers == s.workers {
      Irrelevant(s, s2);
    } else {
      NotHolding(s2, s2.workers[step.w]);
      NoLinkChanges(s, s2, step.w);
    }
  }

  lemma UserNotShort(cfg: Config, s: State, step: Step)
    requires Invariant(s) && Enabled(cfg, s, step)
    requires step.Wait? || step.Activate? || step.Pause? || step.Update?
    ensures NotShort(Next(cfg, s, step)) && LinksAreDone(Next(cfg, s, step))
  {
    hide Safe, NotShort, LinksAreDone, Stranded, Ambiguous;
    SameDone(s, Next(cfg, s, step));
    Irrelevant(s, Next(cfg, s, step));
  }

  lemma TradingNotShort(cfg: Config, s: State, step: Step)
    requires Invariant(s) && Enabled(cfg, s, step) && step.Trading? && CalmStep(cfg, s, step)
    ensures NotShort(Next(cfg, s, step)) && LinksAreDone(Next(cfg, s, step))
  {
    hide Safe, NotShort, LinksAreDone, R.Next, R.Enabled, R.Calm, Own, Affords, RewriteOf;
    GoodTables(s);
    SameDone(s, Next(cfg, s, step));
    R.StepKeepsGood(cfg.trading, s.db, step.step);
    var db2 := R.Next(cfg.trading, s.db, step.step);
    if R.Calm(s.db, step.step, Own(s)) {
      R.StepAdvances(cfg.trading, s.db, step.step, Own(s));
      TablesMove(s, db2);
    } else {
      RewritesRow(cfg.trading, s.db, step.step);
      RowMove(s, db2, RewriteOf(cfg.trading, s.db, step.step));
    }
  }

  lemma RewritesRow(cfg: Settings, db: Db, t: R.Step)
    requires Good(db) && R.Enabled(db, t) && Rewrites(t)
    ensures var r, db2 := RewriteOf(cfg, db, t), R.Next(cfg, db, t);
      && r.key in db.orders && r.before == db.orders[r.key] && db2.orders == db.orders[r.key := r.after]
      && r.after.side == r.before.side
  {
    hide Good, R.Next, PlaceReplied, CancelReplied;
    match t
    case Modify(k, quantity, price, quote, gate, connected, reply) =>
      R.EditOnlyRow(cfg, db, k, quantity, price, quote, gate, connected, reply);
    case PlaceAnswer(k, reply) => AnswerRow(cfg, db, t);
    case CancelAnswer(k, prior, reply) => AnswerRow(cfg, db, t);
    case _ =>
  }

  lemma AnswerRow(cfg: Settings, db: Db, t: R.Step)
    requires R.Enabled(db, t) && (t.PlaceAnswer? || t.CancelAnswer?)
    ensures var db2 := R.Next(cfg, db, t);
      t.key in db.orders && t.key in db2.orders && db2.orders == db.orders[t.key := db2.orders[t.key]]
      && db2.orders[t.key].side == db.orders[t.key].side
  {
    hide MapStatus, Pass;
  }

  lemma StepNotShort(cfg: Config, s: State, step: Step)
    requires Invariant(s) && Enabled(cfg, s, step) && CalmStep(cfg, s, step)
    ensures Invariant(Next(cfg, s, step))
  {
    StepIsSafe(cfg, s, step);
    AskedStays(cfg, s, step);
    hide Safe, Asked, NotShort, LinksAreDone, Next, R.Enabled, R.Calm;
    match step
    case Decide(_, _, _) => DecideNotShort(cfg, s, step);
    case Submission(_, _, _, _, _, _, _) => SubmissionNotShort(cfg, s, step);
    case Post(_) => PostNotShort(cfg, s, step);
    case Answer(_, _) => AnswerNotShort(cfg, s, step);
    case Link(_) => LinkNotShort(cfg, s, step);
    case Trading(_) => TradingNotShort(cfg, s, step);
    case Finish(_, _, _) => DropsNotShort(cfg, s, step);
    case Decline(w) => DeclineNotShort(cfg, s, w);
    case Break(_) => DropsNotShort(cfg, s, step);
    case Poll(_, _, _) => EarlyNotShort(cfg, s, step);
    case Claim(_, _) => EarlyNotShort(cfg, s, step);
    case Crash(_) => EarlyNotShort(cfg, s, step);
    case _ => UserNotShort(cfg, s, step);
  }

  /** A run in which every step is calm. */
  ghost predicate CalmRun(cfg: Config, start: State, steps: seq<Step>) {
    forall i :: 0 <= i < |steps| ==> CalmStep(cfg, After(cfg, start, steps[..i]), steps[i])
  }

  lemma {:induction false} EveryRunNotShort(cfg: Config, strategies: map<string, Strategy>, w: nat, steps: seq<Step>)
    requires CalmRun(cfg, Initial(strategies, {w}), steps)
    ensures Invariant(After(cfg, Initial(strategies, {w}), steps))
    decreases |steps|
  {
    var start := Initial(strategies, {w});
    if steps == [] {
      R.EmptyIsGood(cfg.trading);
      assert forall sid :: Linked(start.signals, sid) == {};
      EveryRunIsSafe(cfg, strategies, {w}, []);
      hide Safe, Asked, Good;
    } else {
      var init := steps[..|steps| - 1];
      assert forall i :: 0 <= i < |init| ==> init[..i] == steps[..i];
      EveryRunNotShort(cfg, strategies, w, init);
      var s, step := After(cfg, start, init), steps[|steps| - 1];
      assert CalmStep(cfg, s, step);
      hide Invariant, Next, Enabled;
      if Enabled(cfg, s, step) {
        StepNotShort(cfg, s, step);
      }
    }
  }

  /** Main result: with one worker, a strategy's own filled exposure stays between zero and its last BUY, and so does all it
      can still become by fills, under any interleaving of evaluations, fills, cancels, pauses, edits, crashes and reconciler
      passes in which every edit and every late answer is afforded. */
  lemma ExposureStaysLong(cfg: Config, strategies: map<string, Strategy>, w: nat, steps: seq<Step>, sid: string)
    requires CalmRun(cfg, Initial(strategies, {w}), steps)
    ensures var s := After(cfg, Initial(strategies, {w}), steps);
      && 0.0 <= Low(s.db.orders, Linked(s.signals, sid)) && High(s.db.orders, Linked(s.signals, sid)) <= LastBuy(s, sid) as real
      && 0 <= Exposure(s.db.executions, Linked(s.signals, sid)) <= LastBuy(s, sid)
  {
    EveryRunNotShort(cfg, strategies, w, steps);
    var s := After(cfg, Initial(strategies, {w}), steps);
    hide Safe, Asked, LinksAreDone, NotShort, Good, Low, High, After;
    CoversOf(s, sid);
    GoodTables(s);
    ExposureInRange(s.db, Linked(s.signals, sid));
  }
}
