/** Batch counters over runs in which no call fails and nothing crashes: what each counter says
    while work is under way, and exactly when all of them are right in the end. */
module Settlement {
  import opened Model
  import opened Machine
  import opened Copies
  import opened Delivery
  import opened Guarantees
  import opened Batches

  const ENDED: set<Status> := {Delivered, Failed, Cancelled}

  /** The goroutine has written one of the statuses and is about to recount batch `b` for it. */
  predicate Owes(rows: map<Id, Row>, x: Actor, b: BatchId, statuses: set<Status>) {
    || (x.FindBatch? && x.wrote in statuses && x.id in rows && rows[x.id].batch == Some(b))
    || (x.Recounting? && x.wrote in statuses && x.batch == b)
  }

  ghost predicate Owed(s: State, b: BatchId, statuses: set<Status>) {
    exists a :: Owes(s.rows, At(s, a), b, statuses)
  }

  ghost predicate HasOwner(s: State, b: BatchId) {
    exists a :: Owns(At(s, a), b)
  }

  predicate HasLive(s: State, b: BatchId) {
    MembersIn(s, b, LIVE) != {}
  }

  /** The stored counters are what a recount would write now. */
  predicate Exact(s: State, b: BatchId)
    requires b in s.batches
  {
    s.batches[b] == Recount(s, b, s.batches[b].total)
  }

  ghost predicate BatchSettling(s: State, b: BatchId)
    requires b in s.batches && b in s.tally
  {
    var c := s.batches[b];
    && (c.delivered == |MembersIn(s, b, {Delivered})| || Owed(s, b, {Delivered}))
    && match s.tally[b]
       case Opened => HasOwner(s, b)
       case Overwritten(n) => !HasOwner(s, b) && c.pending == n && c.failed == c.total - n && |Members(s, b)| <= n
       case Recounted => Exact(s, b) || Owed(s, b, ENDED) || HasLive(s, b)
  }

  /** A recount is for a member of the batch. */
  predicate RecountKnown(rows: map<Id, Row>, x: Actor) {
    x.Recounting? ==> x.id in rows && rows[x.id].batch == Some(x.batch)
  }

  ghost predicate SettlingOK(s: State) {
    && s.tally.Keys == s.batches.Keys
    && (forall b :: b in s.batches ==> BatchSettling(s, b))
    && (forall a :: RecountKnown(s.rows, At(s, a)))
    && (forall a :: RunOf(At(s, a)).Some? ==> |Members(s, RunOf(At(s, a)).value.batch)| <= Inserted(At(s, a)))
  }

  /** Without failures: a goroutine that ends a notification goes on to recount its batch, one
      about to recount does, and a batch is left only by the overwrite. */
  ghost predicate DebtFine(s: State, a: ActorId, fx: Effect) {
    var x := At(s, a);
    && (fx.sql.SetRow? && Terminal(fx.sql.row.status) ==> fx.next == FindBatch(fx.id, fx.sql.row.status))
    && (forall b, statuses :: Owes(s.rows, x, b, statuses) && b in s.batches ==>
          Owes(s.rows, fx.next, b, statuses) || (fx.sql.SetBatch? && fx.sql.batch == b && fx.sql.mark == Recounted))
    && (RunOf(x).Some? && RunOf(x).value.batch in s.batches && RunOf(fx.next).None? ==>
          fx.sql.SetBatch? && fx.sql.batch == RunOf(x).value.batch && fx.sql.mark.Overwritten?)
    && (fx.sql.SetBatch? && fx.sql.mark == Opened ==> Owns(fx.next, fx.sql.batch))
    && RecountKnown(s.rows, fx.next)
  }

  // ---- counts under an effect ----

  /** The effect moves no member of `b` in or out of the statuses. */
  lemma SameMembersIn(s: State, a: ActorId, fx: Effect, b: BatchId, statuses: set<Status>)
    requires RowFine(s, fx)
    requires fx.sql.InsertRow? ==> fx.sql.row.batch != Some(b) || fx.sql.row.status !in statuses
    requires fx.sql.SetRow? && fx.sql.row.batch == Some(b) ==>
      (fx.sql.row.status in statuses <==> s.rows[fx.id].status in statuses)
    ensures MembersIn(Commit(s, a, fx), b, statuses) == MembersIn(s, b, statuses)
  {
  }

  lemma DebtLift(s: State, a: ActorId, fx: Effect, b: BatchId, statuses: set<Status>)
    requires RowFine(s, fx) && DebtFine(s, a, fx) && b in s.batches && Owed(s, b, statuses)
    ensures Owed(Commit(s, a, fx), b, statuses)
      || (fx.sql.SetBatch? && fx.sql.batch == b && fx.sql.mark == Recounted)
  {
    var t := Commit(s, a, fx);
    var c :| Owes(s.rows, At(s, c), b, statuses);
    assert At(t, c) == if c == a then fx.next else At(s, c);
    assert At(t, a) == fx.next;
    assert Owes(s.rows, At(t, c), b, statuses) ==> Owes(t.rows, At(t, c), b, statuses);
  }

  /** Ending a notification creates a debt. */
  lemma NewDebt(s: State, a: ActorId, fx: Effect, b: BatchId, statuses: set<Status>)
    requires RowFine(s, fx) && DebtFine(s, a, fx)
    requires fx.sql.SetRow? && fx.sql.row.batch == Some(b)
    requires Terminal(fx.sql.row.status) && fx.sql.row.status in statuses
    ensures Owed(Commit(s, a, fx), b, statuses)
  {
    var t := Commit(s, a, fx);
    assert Owes(t.rows, At(t, a), b, statuses);
  }

  lemma DeliveredLift(s: State, a: ActorId, fx: Effect, clean: bool, b: BatchId)
    requires BatchFine(s, a, fx, clean) && DebtFine(s, a, fx) && CountsOK(s)
    requires b in s.batches && (s.batches[b].delivered == |MembersIn(s, b, {Delivered})| || Owed(s, b, {Delivered}))
    ensures var t := Commit(s, a, fx);
      t.batches[b].delivered == |MembersIn(t, b, {Delivered})| || Owed(t, b, {Delivered})
  {
    var t := Commit(s, a, fx);
    if fx.sql.SetRow? && fx.sql.row.batch == Some(b) && fx.sql.row.status == Delivered {
      NewDebt(s, a, fx, b, {Delivered});
    } else {
      SameMembersIn(s, a, fx, b, {Delivered});
      if Owed(s, b, {Delivered}) { DebtLift(s, a, fx, b, {Delivered}); }
    }
  }

  /** An effect that touches no row of `b` but live ones staying live leaves a recount as it was. */
  lemma SameRecount(s: State, a: ActorId, fx: Effect, b: BatchId, total: int)
    requires RowFine(s, fx) && !(fx.sql.InsertRow? && fx.sql.row.batch == Some(b))
    requires fx.sql.SetRow? && fx.sql.row.batch == Some(b) ==>
      fx.sql.row.status in LIVE && s.rows[fx.id].status in LIVE
    ensures Recount(Commit(s, a, fx), b, total) == Recount(s, b, total)
    ensures MembersIn(Commit(s, a, fx), b, LIVE) == MembersIn(s, b, LIVE)
  {
    SameMembersIn(s, a, fx, b, LIVE);
    SameMembersIn(s, a, fx, b, {Delivered});
    SameMembersIn(s, a, fx, b, {Failed});
    MembersAfter(s, a, fx, b);
  }

  /** A member that is live after the effect. */
  lemma LiveAfter(s: State, a: ActorId, fx: Effect, b: BatchId)
    requires (fx.sql.SetRow? || fx.sql.InsertRow?) && fx.sql.row.batch == Some(b) && fx.sql.row.status in LIVE
    ensures HasLive(Commit(s, a, fx), b)
  {
    assert fx.id in MembersIn(Commit(s, a, fx), b, LIVE);
  }

  lemma RecountedLift(s: State, a: ActorId, fx: Effect, clean: bool, b: BatchId)
    requires BatchFine(s, a, fx, clean) && DebtFine(s, a, fx)
    requires b in s.batches && (Exact(s, b) || Owed(s, b, ENDED) || HasLive(s, b))
    requires fx.sql.SetBatch? ==> fx.sql.batch != b
    ensures var t := Commit(s, a, fx); Exact(t, b) || Owed(t, b, ENDED) || HasLive(t, b)
  {
    if (fx.sql.SetRow? || fx.sql.InsertRow?) && fx.sql.row.batch == Some(b) && fx.sql.row.status in LIVE {
      LiveAfter(s, a, fx, b);
    } else if fx.sql.SetRow? && fx.sql.row.batch == Some(b) {
      NewDebt(s, a, fx, b, ENDED);
    } else {
      SameRecount(s, a, fx, b, s.batches[b].total);
      if Owed(s, b, ENDED) { DebtLift(s, a, fx, b, ENDED); }
    }
  }

  /** A batch without an owner gets none unless it is new. */
  lemma NoNewOwner(s: State, a: ActorId, fx: Effect, clean: bool, b: BatchId)
    requires BatchFine(s, a, fx, clean) && b in s.batches && !HasOwner(s, b)
    ensures !HasOwner(Commit(s, a, fx), b)
    ensures !(fx.sql.InsertRow? && fx.sql.row.batch == Some(b))
  {
    var t := Commit(s, a, fx);
    assert forall c :: At(t, c) == if c == a then fx.next else At(s, c);
    assert !Owns(At(s, a), b);
    forall c ensures !Owns(At(t, c), b) {
      assert !Owns(At(s, c), b);
    }
  }

  lemma OwnerStays(s: State, a: ActorId, fx: Effect, clean: bool, b: BatchId)
    requires BatchFine(s, a, fx, clean) && DebtFine(s, a, fx) && HasOwner(s, b) && b in s.batches
    requires fx.sql.SetBatch? ==> fx.sql.batch != b
    ensures HasOwner(Commit(s, a, fx), b)
  {
    var t := Commit(s, a, fx);
    var c :| Owns(At(s, c), b);
    assert At(t, c) == if c == a then fx.next else At(s, c);
    assert Owns(At(t, c), b);
  }

  /** The overwrite ends the only run of the batch. */
  lemma OverwriteOwner(s: State, a: ActorId, fx: Effect, clean: bool, b: BatchId)
    requires BatchesOK(s) && BatchFine(s, a, fx, clean)
    requires fx.sql.SetBatch? && fx.sql.batch == b && fx.sql.mark.Overwritten?
    ensures !HasOwner(Commit(s, a, fx), b)
  {
    var t := Commit(s, a, fx);
    assert Owns(At(s, a), b);
    forall c ensures !Owns(At(t, c), b) {
      assert At(t, c) == if c == a then fx.next else At(s, c);
      assert Owns(At(s, c), b) ==> c == a;
    }
  }

  lemma SettlingLift(s: State, a: ActorId, fx: Effect, b: BatchId)
    requires BatchesOK(s) && SettlingOK(s) && BatchFine(s, a, fx, true) && DebtFine(s, a, fx)
    requires b in s.batches && !(fx.sql.SetBatch? && fx.sql.batch == b)
    ensures BatchSettling(Commit(s, a, fx), b)
  {
    DeliveredLift(s, a, fx, true, b);
    match s.tally[b]
    case Opened => OwnerStays(s, a, fx, true, b);
    case Overwritten(_) => NoNewOwner(s, a, fx, true, b); MembersAfter(s, a, fx, b);
    case Recounted => RecountedLift(s, a, fx, true, b);
  }

  lemma SettlingSet(s: State, a: ActorId, fx: Effect)
    requires BatchesOK(s) && SettlingOK(s) && BatchFine(s, a, fx, true) && DebtFine(s, a, fx) && fx.sql.SetBatch?
    ensures BatchSettling(Commit(s, a, fx), fx.sql.batch)
  {
    var b := fx.sql.batch;
    var t := Commit(s, a, fx);
    MembersAfter(s, a, fx, b);
    SameRecount(s, a, fx, b, fx.sql.counters.total);
    match fx.sql.mark
    case Opened =>
      NewBatch(s, b);
      assert MembersIn(t, b, {Delivered}) == {};
      assert Owns(At(t, a), b);
    case Overwritten(_) =>
      DeliveredLift(s, a, fx, true, b);
      OverwriteOwner(s, a, fx, true, b);
      assert OwnerOK(s, At(s, a));
    case Recounted =>
  }

  lemma InsertedLift(s: State, a: ActorId, fx: Effect, c: ActorId)
    requires BatchesOK(s) && SettlingOK(s) && BatchFine(s, a, fx, true)
    requires RunOf(At(Commit(s, a, fx), c)).Some?
    ensures var t := Commit(s, a, fx); |Members(t, RunOf(At(t, c)).value.batch)| <= Inserted(At(t, c))
  {
    var t := Commit(s, a, fx);
    var b := RunOf(At(t, c)).value.batch;
    MembersAfter(s, a, fx, b);
    if c == a {
      assert At(t, c) == fx.next;
      if fx.sql.SetBatch? && fx.sql.mark == Opened { NewBatch(s, b); }
    } else {
      assert At(t, c) == At(s, c);
      assert Owns(At(s, c), b);
      assert Owns(At(s, a), b) ==> a == c;
    }
  }

  lemma AllSettling(s: State, a: ActorId, fx: Effect)
    requires BatchesOK(s) && SettlingOK(s) && BatchFine(s, a, fx, true) && DebtFine(s, a, fx)
    ensures SettlingOK(Commit(s, a, fx))
  {
    var t := Commit(s, a, fx);
    forall b | b in t.batches ensures BatchSettling(t, b) {
      if fx.sql.SetBatch? && fx.sql.batch == b { SettlingSet(s, a, fx); } else { SettlingLift(s, a, fx, b); }
    }
    forall c | RunOf(At(t, c)).Some? { InsertedLift(s, a, fx, c); }
    forall c ensures RecountKnown(t.rows, At(t, c)) {
      assert RecountKnown(s.rows, At(s, c));
      assert At(t, c) == if c == a then fx.next else At(s, c);
    }
  }

  // ---- every clean move pays its debts ----

  lemma CreatorDebt(s: State, a: ActorId, run: Option<BatchRun>, call: Call, c: Choice)
    requires At(s, a) == Creator(run, call)
    ensures DebtFine(s, a, MoveCreator(s, a, run, call, c))
  {
  }

  lemma WorkerDebt(s: State, a: ActorId, job: Job, task: Task, c: Choice)
    requires At(s, a) == Worker(job, task) && c.fault == Fine
    ensures DebtFine(s, a, MoveWorker(s, job, task, c))
  {
  }

  lemma SweeperDebt(s: State, a: ActorId, x: Actor, c: Choice)
    requires At(s, a) == x && x.Sweeper? && Busy(x)
    ensures DebtFine(s, a, MoveSweeper(s, a, x, c))
  {
  }

  lemma MoveDebt(s: State, a: ActorId, c: Choice)
    requires Enabled(s, Act(a, c)) && CleanMove(At(s, a), c)
    ensures DebtFine(s, a, Move(s, a, c))
  {
    var x := At(s, a);
    match x
    case Creator(run, call) => CreatorDebt(s, a, run, call, c);
    case Worker(job, task) => WorkerDebt(s, a, job, task, c);
    case Sweeper(_, _, _) => SweeperDebt(s, a, x, c);
    case _ =>
  }

  lemma StartDebt(s: State, e: Event)
    requires Enabled(s, e) && Clean(s, e)
    requires e.Submit? || e.OpenBatch? || e.Cancel? || e.Dequeue? || e.Sweep?
    ensures DebtFine(s, e.actor, Start(s, e))
  {
  }

  /** Only the clock or the cache differs. */
  lemma QuietSettling(s: State, t: State)
    requires SettlingOK(s) && t == s.(now := t.now, cache := t.cache)
    ensures SettlingOK(t)
  {
    assert forall a :: At(t, a) == At(s, a);
    forall b | b in t.batches ensures BatchSettling(t, b) {
      assert Members(t, b) == Members(s, b);
      assert forall statuses :: MembersIn(t, b, statuses) == MembersIn(s, b, statuses);
      assert forall statuses :: Owed(s, b, statuses) ==> Owed(t, b, statuses);
      assert HasOwner(s, b) <==> HasOwner(t, b);
    }
    assert forall b :: Members(t, b) == Members(s, b);
    assert forall a :: RecountKnown(t.rows, At(t, a)) <==> RecountKnown(s.rows, At(s, a));
  }

  lemma SettlingStep(s: State, e: Event)
    requires DeliveryOK(s) && BatchesOK(s) && SettlingOK(s) && Enabled(s, e) && Clean(s, e)
    ensures SettlingOK(Apply(s, e))
  {
    match e
    case Act(a, c) => MoveBatch(s, a, c); MoveDebt(s, a, c); AllSettling(s, a, Move(s, a, c));
    case Tick(_) => QuietSettling(s, Apply(s, e));
    case Expire(_) => QuietSettling(s, Apply(s, e));
    case Crash(_) => assert false;
    case _ => StartBatch(s, e); StartDebt(s, e); AllSettling(s, e.actor, Start(s, e));
  }

  lemma {:induction false} RunSettling(s: State, trace: seq<Event>)
    requires DeliveryOK(s) && BatchesOK(s) && SettlingOK(s) && Runs(s, trace) && CleanRun(s, trace)
    ensures SettlingOK(After(s, trace)) && BatchesOK(After(s, trace))
    decreases |trace|
  {
    if trace != [] {
      DeliveryStep(s, trace[0]);
      BatchesStep(s, trace[0]);
      SettlingStep(s, trace[0]);
      RunSettling(Apply(s, trace[0]), trace[1..]);
    }
  }

  // ---- theorems ----

  /** Reached from the empty stores without a crash or a failed call. */
  ghost predicate CleanlyReached(s: State) {
    exists now, trace :: Runs(Empty(now), trace) && CleanRun(Empty(now), trace) && After(Empty(now), trace) == s
  }

  lemma EmptyOK(now: int)
    ensures DeliveryOK(Empty(now)) && AllKept(Empty(now)) && BatchesOK(Empty(now)) && SettlingOK(Empty(now))
  {
  }

  lemma CleanOK(s: State)
    requires CleanlyReached(s)
    ensures DeliveryOK(s) && AllKept(s) && BatchesOK(s) && SettlingOK(s)
  {
    var now, trace :| Runs(Empty(now), trace) && CleanRun(Empty(now), trace) && After(Empty(now), trace) == s;
    EmptyOK(now);
    CleanKeeps(Empty(now), trace);
    RunSettling(Empty(now), trace);
  }

  /** The stored `delivered` is right whenever no worker is between its own 'delivered' write and
      its recount, whoever else is about to recount the batch. */
  lemma DeliveredIsExact(s: State, b: BatchId)
    requires CleanlyReached(s) && b in s.batches && !Owed(s, b, {Delivered})
    ensures s.batches[b].delivered == |MembersIn(s, b, {Delivered})|
  {
    CleanOK(s);
  }

  /** All work is done: nobody is busy, nothing waits. */
  ghost predicate Quiescent(s: State) {
    && (forall a :: At(s, a) == Idle)
    && (forall q :: Seq(s.lists, q) == [])
    && s.sched == map[]
  }

  lemma AllFinished(s: State, i: Id)
    requires CleanlyReached(s) && Quiescent(s) && i in s.rows
    ensures Terminal(s.rows[i].status)
  {
    CleanOK(s);
    var p := s.place[i];
    assert !Contains(s, p, i);
    assert p == Nowhere;
    assert Kept(s.rows[i], ViewOf(s, i));
  }

  lemma NoneLive(s: State, b: BatchId)
    requires CleanlyReached(s) && Quiescent(s)
    ensures MembersIn(s, b, LIVE) == {}
  {
    forall i | i in MembersIn(s, b, LIVE) ensures false { AllFinished(s, i); }
  }

  lemma NoMembers(s: State, b: BatchId)
    requires b in s.batches && Members(s, b) == {}
    ensures Recount(s, b, s.batches[b].total).delivered == 0
    ensures s.batches[b].total >= 0 ==> Recount(s, b, s.batches[b].total).failed == s.batches[b].total
  {
    assert MembersIn(s, b, {Delivered}) <= Members(s, b);
    assert MembersIn(s, b, {Failed}) <= Members(s, b);
    assert MembersIn(s, b, {Delivered}) == {} && MembersIn(s, b, {Failed}) == {};
  }

  /** Nobody has the batch in hand, and none of its members is live. */
  ghost predicate AtRest(s: State, b: BatchId) {
    !HasOwner(s, b) && (forall statuses :: !Owed(s, b, statuses)) && MembersIn(s, b, LIVE) == {}
  }

  lemma RestingCounters(s: State, b: BatchId)
    requires BatchesOK(s) && b in s.batches && b in s.tally && BatchSettling(s, b) && AtRest(s, b)
    ensures s.tally[b] != Opened
    ensures Exact(s, b) <==> s.tally[b] == Recounted || s.tally[b] == Overwritten(0)
    ensures Exact(s, b) ==> s.batches[b].pending == 0
    ensures s.tally[b].Overwritten? ==> s.batches[b].pending == s.tally[b].created
  {
    assert !Owed(s, b, ENDED) && !Owed(s, b, {Delivered});
    if s.tally[b] == Overwritten(0) {
      assert Members(s, b) == {};
      NoMembers(s, b);
      assert MembersIn(s, b, {Delivered}) <= Members(s, b);
    }
  }

  lemma QuiescentRests(s: State, b: BatchId)
    requires CleanlyReached(s) && Quiescent(s)
    ensures AtRest(s, b)
  {
    NoneLive(s, b);
  }

  /** When all work is done the counters of a batch equal a recount if and only if a recount came
      after CreateBatch's overwrite, or CreateBatch created nothing. */
  lemma FinalCounters(s: State, b: BatchId)
    requires CleanlyReached(s) && Quiescent(s) && b in s.batches
    ensures b in s.tally && s.tally[b] != Opened
    ensures Exact(s, b) <==> s.tally[b] == Recounted || s.tally[b] == Overwritten(0)
    ensures Exact(s, b) ==> s.batches[b].pending == 0
    ensures s.tally[b].Overwritten? ==> s.batches[b].pending == s.tally[b].created
  {
    CleanOK(s);
    QuiescentRests(s, b);
    RestingCounters(s, b);
  }

  /** No member of the batch has ended yet. */
  predicate NoneEnded(s: State, b: BatchId) {
    MembersIn(s, b, ENDED) == {}
  }

  /** CreateBatch is done with the batch, and every member that ended since is or will be recounted. */
  ghost predicate Closed(s: State, b: BatchId) {
    && b in s.batches && b in s.tally && s.tally[b] != Opened && !HasOwner(s, b)
    && (s.tally[b].Overwritten? ==> NoneEnded(s, b) || Owed(s, b, ENDED))
  }

  lemma ClosedLift(s: State, a: ActorId, fx: Effect, b: BatchId)
    requires BatchFine(s, a, fx, true) && DebtFine(s, a, fx) && Closed(s, b)
    ensures Closed(Commit(s, a, fx), b)
  {
    NoNewOwner(s, a, fx, true, b);
    if fx.sql.SetBatch? && fx.sql.batch == b {
      assert fx.sql.mark.Overwritten? ==> Owns(At(s, a), b);
    } else if s.tally[b].Overwritten? {
      if Owed(s, b, ENDED) { DebtLift(s, a, fx, b, ENDED); }
      else if fx.sql.SetRow? && fx.sql.row.batch == Some(b) && Terminal(fx.sql.row.status) {
        NewDebt(s, a, fx, b, ENDED);
      }
      else { EndedLift(s, a, fx, b); }
    }
  }

  lemma EndedLift(s: State, a: ActorId, fx: Effect, b: BatchId)
    requires NoneEnded(s, b) && RunFine(At(s, a), fx, true)
    requires !(fx.sql.SetRow? && fx.sql.row.batch == Some(b) && Terminal(fx.sql.row.status))
    ensures NoneEnded(Commit(s, a, fx), b)
  {
    forall i ensures i !in MembersIn(Commit(s, a, fx), b, ENDED) {
      assert i !in MembersIn(s, b, ENDED);
    }
  }

  lemma ClosedStep(s: State, e: Event, b: BatchId)
    requires DeliveryOK(s) && BatchesOK(s) && Closed(s, b) && Enabled(s, e) && Clean(s, e)
    ensures Closed(Apply(s, e), b)
  {
    match e
    case Act(a, c) => MoveBatch(s, a, c); MoveDebt(s, a, c); ClosedLift(s, a, Move(s, a, c), b);
    case Tick(_) => ClosedQuiet(s, Apply(s, e), b);
    case Expire(_) => ClosedQuiet(s, Apply(s, e), b);
    case Crash(_) => assert false;
    case _ => StartBatch(s, e); StartDebt(s, e); ClosedLift(s, e.actor, Start(s, e), b);
  }

  lemma ClosedQuiet(s: State, t: State, b: BatchId)
    requires Closed(s, b) && t == s.(now := t.now, cache := t.cache)
    ensures Closed(t, b)
  {
    assert forall a :: At(t, a) == At(s, a);
    if Owed(s, b, ENDED) {
      var a :| Owes(s.rows, At(s, a), b, ENDED);
      assert Owes(t.rows, At(t, a), b, ENDED);
    }
    forall a ensures !Owns(At(t, a), b) { assert !Owns(At(s, a), b); }
  }

  lemma MembersStay(s: State, t: State, b: BatchId)
    requires AllAdvance(s, t)
    ensures Members(s, b) <= Members(t, b)
  {
    forall i | i in Members(s, b) ensures i in Members(t, b) { assert Advances(s, t, i); }
  }

  lemma {:induction false} RunClosed(s: State, trace: seq<Event>, b: BatchId)
    requires DeliveryOK(s) && BatchesOK(s) && Closed(s, b) && Runs(s, trace) && CleanRun(s, trace)
    ensures Closed(After(s, trace), b) && Members(s, b) <= Members(After(s, trace), b)
    decreases |trace|
  {
    if trace != [] {
      var t := Apply(s, trace[0]);
      DeliveryStep(s, trace[0]);
      BatchesStep(s, trace[0]);
      ClosedStep(s, trace[0], b);
      MembersStay(s, t, b);
      RunClosed(t, trace[1..], b);
    }
  }

  /** The batch has no rows, and its last write was the overwrite. */
  ghost predicate Memberless(s: State, b: BatchId, created: nat) {
    b in s.batches && b in s.tally && s.tally[b] == Overwritten(created) && !HasOwner(s, b) && Members(s, b) == {}
  }

  /** Nobody ever recounts a batch without rows. */
  lemma MemberlessLift(s: State, a: ActorId, fx: Effect, b: BatchId, created: nat)
    requires SettlingOK(s) && BatchFine(s, a, fx, true) && Memberless(s, b, created)
    ensures Memberless(Commit(s, a, fx), b, created)
  {
    NoNewOwner(s, a, fx, true, b);
    MembersAfter(s, a, fx, b);
    assert !Owns(At(s, a), b);
    assert RecountKnown(s.rows, At(s, a));
    assert At(s, a).Recounting? ==> At(s, a).id !in Members(s, b);
  }

  lemma MemberlessStep(s: State, e: Event, b: BatchId, created: nat)
    requires DeliveryOK(s) && BatchesOK(s) && SettlingOK(s) && Enabled(s, e) && Clean(s, e)
    requires Memberless(s, b, created)
    ensures Memberless(Apply(s, e), b, created)
  {
    match e
    case Act(a, c) => MoveBatch(s, a, c); MemberlessLift(s, a, Move(s, a, c), b, created);
    case Tick(_) => MemberlessQuiet(s, Apply(s, e), b, created);
    case Expire(_) => MemberlessQuiet(s, Apply(s, e), b, created);
    case Crash(_) => assert false;
    case _ => StartBatch(s, e); MemberlessLift(s, e.actor, Start(s, e), b, created);
  }

  lemma MemberlessQuiet(s: State, t: State, b: BatchId, created: nat)
    requires Memberless(s, b, created) && t == s.(now := t.now, cache := t.cache)
    ensures Memberless(t, b, created)
  {
    assert forall a :: At(t, a) == At(s, a);
    forall a ensures !Owns(At(t, a), b) { assert !Owns(At(s, a), b); }
    assert Members(t, b) == Members(s, b);
  }

  lemma {:induction false} RunMemberless(s: State, trace: seq<Event>, b: BatchId, created: nat)
    requires DeliveryOK(s) && BatchesOK(s) && SettlingOK(s) && Memberless(s, b, created)
    requires Runs(s, trace) && CleanRun(s, trace)
    ensures Memberless(After(s, trace), b, created)
    decreases |trace|
  {
    if trace != [] {
      DeliveryStep(s, trace[0]);
      BatchesStep(s, trace[0]);
      SettlingStep(s, trace[0]);
      MemberlessStep(s, trace[0], b, created);
      RunMemberless(Apply(s, trace[0]), trace[1..], b, created);
    }
  }

  /** A batch whose requests all found existing rows keeps its count as `pending` for ever, though
      nothing races and nothing fails. */
  lemma MemberlessStaysPending(s: State, trace: seq<Event>, b: BatchId, created: nat)
    requires CleanlyReached(s) && Memberless(s, b, created)
    requires Runs(s, trace) && CleanRun(s, trace)
    ensures var t := After(s, trace);
      && b in t.batches && t.batches[b].pending == created && MembersIn(t, b, LIVE) == {}
      && (Exact(t, b) <==> created == 0)
  {
    var t := After(s, trace);
    CleanOK(s);
    RunMemberless(s, trace, b, created);
    CleanContinues(s, trace);
    CleanOK(t);
    assert BatchSettling(t, b);
    assert MembersIn(t, b, LIVE) <= Members(t, b);
    assert MembersIn(t, b, {Delivered}) <= Members(t, b);
    NoMembers(t, b);
    NobodyOwes(t, b);
  }

  lemma NobodyOwes(s: State, b: BatchId)
    requires SettlingOK(s) && Members(s, b) == {}
    ensures forall statuses :: !Owed(s, b, statuses)
  {
    forall a, statuses ensures !Owes(s.rows, At(s, a), b, statuses) {
      assert RecountKnown(s.rows, At(s, a));
      assert At(s, a).FindBatch? || At(s, a).Recounting? ==> At(s, a).id !in Members(s, b);
    }
  }

  /** If CreateBatch's overwrite comes before any member of the batch ends, then once all work is
      done every counter equals a recount, with nothing pending, if and only if the batch has a row
      or CreateBatch counted none as created. */
  lemma OverwriteFirst(s: State, trace: seq<Event>, b: BatchId)
    requires CleanlyReached(s) && b in s.batches && b in s.tally && s.tally[b].Overwritten? && NoneEnded(s, b)
    requires Runs(s, trace) && CleanRun(s, trace) && Quiescent(After(s, trace))
    ensures var t := After(s, trace);
      && b in t.batches
      && (Exact(t, b) <==> Members(s, b) != {} || s.tally[b].created == 0)
      && (Exact(t, b) ==> t.batches[b].pending == 0)
  {
    CleanContinues(s, trace);
    if Members(s, b) != {} {
      CloseStays(s, trace, b);
      ClosedIsRight(After(s, trace), b);
    } else {
      CleanOK(s);
      assert BatchSettling(s, b);
      MemberlessStaysPending(s, trace, b, s.tally[b].created);
    }
  }

  lemma CloseStays(s: State, trace: seq<Event>, b: BatchId)
    requires CleanlyReached(s) && b in s.batches && b in s.tally && s.tally[b].Overwritten? && NoneEnded(s, b)
    requires Runs(s, trace) && CleanRun(s, trace)
    ensures Closed(After(s, trace), b) && Members(s, b) <= Members(After(s, trace), b)
  {
    CleanOK(s);
    assert BatchSettling(s, b);
    RunClosed(s, trace, b);
  }

  lemma ClosedIsRight(s: State, b: BatchId)
    requires CleanlyReached(s) && Quiescent(s) && Closed(s, b) && Members(s, b) != {}
    ensures Exact(s, b) && s.batches[b].pending == 0
  {
    SomeEnded(s, b);
    assert !Owed(s, b, ENDED);
    FinalCounters(s, b);
  }

  lemma SomeEnded(s: State, b: BatchId)
    requires CleanlyReached(s) && Quiescent(s) && Members(s, b) != {}
    ensures !NoneEnded(s, b)
  {
    var i :| i in Members(s, b);
    AllFinished(s, i);
    assert i in MembersIn(s, b, ENDED);
  }

  lemma CleanContinues(s: State, trace: seq<Event>)
    requires CleanlyReached(s) && Runs(s, trace) && CleanRun(s, trace)
    ensures CleanlyReached(After(s, trace))
  {
    var now, before :| Runs(Empty(now), before) && CleanRun(Empty(now), before) && After(Empty(now), before) == s;
    CleanJoin(Empty(now), before, trace);
  }

  lemma {:induction false} CleanJoin(s: State, before: seq<Event>, trace: seq<Event>)
    requires Runs(s, before) && CleanRun(s, before)
    requires Runs(After(s, before), trace) && CleanRun(After(s, before), trace)
    ensures Runs(s, before + trace) && CleanRun(s, before + trace)
    ensures After(s, before + trace) == After(After(s, before), trace)
    decreases |before|
  {
    if before == [] {
      assert before + trace == trace;
    } else {
      CleanJoin(Apply(s, before[0]), before[1..], trace);
      assert (before + trace)[1..] == before[1..] + trace;
    }
  }
}
