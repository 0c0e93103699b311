/** What holds in every reachable state and over every run, whatever the interleaving, the
    crashes and the failed calls. */
module Guarantees {
  import opened Model
  import opened Machine
  import opened Copies
  import opened Delivery
  import opened Backoff

  lemma {:induction false} RunKeeps(s: State, trace: seq<Event>)
    requires DeliveryOK(s) && Runs(s, trace)
    ensures DeliveryOK(After(s, trace))
    ensures forall i :: i in s.rows ==> i in After(s, trace).rows
    decreases |trace|
  {
    if trace != [] {
      DeliveryStep(s, trace[0]);
      RunKeeps(Apply(s, trace[0]), trace[1..]);
    }
  }

  lemma ReachableOK(s: State)
    requires Reachable(s)
    ensures DeliveryOK(s)
  {
    var now :| Reaches(Empty(now), s);
    var trace :| Runs(Empty(now), trace) && After(Empty(now), trace) == s;
    RunKeeps(Empty(now), trace);
  }

  lemma Extend(s: State, e: Event)
    requires Reachable(s) && Enabled(s, e)
    ensures Reachable(Apply(s, e))
  {
    var now :| Reaches(Empty(now), s);
    var trace :| Runs(Empty(now), trace) && After(Empty(now), trace) == s;
    RunsThen(Empty(now), trace, e);
  }

  lemma {:induction false} RunsThen(s: State, trace: seq<Event>, e: Event)
    requires Runs(s, trace) && Enabled(After(s, trace), e)
    ensures Runs(s, trace + [e]) && After(s, trace + [e]) == Apply(After(s, trace), e)
    decreases |trace|
  {
    if trace == [] {
      assert [e][1..] == [];
      assert trace + [e] == [e];
      assert After(s, [e]) == After(Apply(s, e), []);
    } else {
      RunsThen(Apply(s, trace[0]), trace[1..], e);
      assert (trace + [e])[1..] == trace[1..] + [e];
    }
  }

  lemma {:induction false} ExtendRun(s: State, trace: seq<Event>)
    requires Reachable(s) && Runs(s, trace)
    ensures Reachable(After(s, trace))
    decreases |trace|
  {
    if trace != [] {
      Extend(s, trace[0]);
      ExtendRun(Apply(s, trace[0]), trace[1..]);
    }
  }

  lemma ReachableStep(s: State, e: Event)
    requires Reachable(s) && Enabled(s, e)
    ensures Reachable(Apply(s, e)) && AllAdvance(s, Apply(s, e))
  {
    ReachableOK(s);
    DeliveryStep(s, e);
    Extend(s, e);
  }

  /** The slots holding a copy of one notification are never two. */
  lemma AtMostOneCopy(s: State, i: Id)
    requires Reachable(s)
    ensures forall slot, other :: CopyIn(s, slot, i) && CopyIn(s, other, i) ==> slot == other
  {
    ReachableOK(s);
    forall slot, other | CopyIn(s, slot, i) && CopyIn(s, other, i) ensures slot == other {
      OneCopy(s, slot, other, i);
    }
  }

  /** Sends, retries and accepted sends in every reachable state, status by status. */
  lemma SendBudget(s: State, i: Id)
    requires Reachable(s) && i in s.rows
    ensures var row, h := s.rows[i], HistOf(s, i);
      && row.retry <= row.max && h.accepts <= 1 && h.revived <= 1 && h.published <= 1
      && (row.status in {Queued, Scheduled, Cancelled} ==> h.sends == row.retry && h.accepts == 0)
      && (row.status == Processing ==> row.retry <= h.sends <= row.retry + 1)
      && (row.status == Delivered ==> h.sends == row.retry + 1 && h.accepts == 1)
      && (row.status == Failed ==> h.sends == row.max + 1 && h.accepts == 0)
      && row.status != Pending
  {
    ReachableOK(s);
  }

  /** Delivered and failed are never left, although two statements carry no status guard. */
  lemma {:induction false} OutcomesAreFinal(s: State, trace: seq<Event>, i: Id)
    requires Reachable(s) && Runs(s, trace) && i in s.rows
    requires s.rows[i].status == Delivered || s.rows[i].status == Failed
    ensures i in After(s, trace).rows && After(s, trace).rows[i] == s.rows[i]
    decreases |trace|
  {
    if trace != [] {
      ReachableStep(s, trace[0]);
      OutcomesAreFinal(Apply(s, trace[0]), trace[1..], i);
    }
  }

  /** Once the provider has accepted a send there is no other, even if the row never says so. */
  lemma {:induction false} AcceptedOnce(s: State, trace: seq<Event>, i: Id)
    requires Reachable(s) && Runs(s, trace) && i in s.rows && HistOf(s, i).accepts > 0
    ensures HistOf(After(s, trace), i).sends == HistOf(s, i).sends
    ensures HistOf(After(s, trace), i).accepts == 1
    decreases |trace|
  {
    ReachableOK(s);
    if trace != [] {
      ReachableStep(s, trace[0]);
      AcceptedOnce(Apply(s, trace[0]), trace[1..], i);
    }
  }

  // ---- cancellation ----

  /** Scheduler `a` has read 'scheduled' and not yet written 'queued'. */
  ghost predicate StaleScheduler(s: State, a: ActorId, i: Id) {
    GripOf(At(s, a), i).Some? && GripOf(At(s, a), i).value.task == Unschedule
  }

  ghost predicate StaysCancelled(s: State, i: Id) {
    forall trace :: Runs(s, trace) ==> Has(After(s, trace), i, Cancelled)
  }

  /** Unless a scheduler is about to overwrite it, a cancellation lasts and stops all sending. */
  lemma {:induction false} CancelHolds(s: State, trace: seq<Event>, i: Id)
    requires Reachable(s) && Runs(s, trace) && Has(s, i, Cancelled) && !Unscheduling(ViewOf(s, i))
    ensures Has(After(s, trace), i, Cancelled)
    ensures HistOf(After(s, trace), i).sends == HistOf(s, i).sends
    decreases |trace|
  {
    if trace != [] {
      ReachableStep(s, trace[0]);
      CancelHolds(Apply(s, trace[0]), trace[1..], i);
    }
  }

  const OK: Choice := Choice(Fine, true, 0, 0)

  /** The scheduler's write has no status guard. */
  lemma UnscheduleWrites(s: State, a: ActorId, i: Id)
    requires At(s, a).Sweeper? && At(s, a).due != [] && At(s, a).due[0].id == i && i in s.rows
    requires At(s, a).found == [] && At(s, a).step == Unschedule
    ensures Enabled(s, Act(a, OK)) && Has(Apply(s, Act(a, OK)), i, Queued)
  {
  }

  lemma StaleWrite(s: State, a: ActorId, i: Id)
    requires DeliveryOK(s) && Has(s, i, Cancelled) && StaleScheduler(s, a, i)
    ensures Runs(s, [Act(a, OK)]) && Has(After(s, [Act(a, OK)]), i, Queued)
  {
    var e := Act(a, OK);
    assert Tidy(At(s, a));
    UnscheduleWrites(s, a, i);
    assert [e][0] == e && [e][1..] == [];
    assert After(s, [e]) == After(Apply(s, e), []);
  }

  lemma NoStale(s: State, i: Id)
    requires !exists a :: StaleScheduler(s, a, i)
    ensures !Unscheduling(ViewOf(s, i))
  {
    if i in s.place && s.place[i].Held? { assert !StaleScheduler(s, s.place[i].actor, i); }
  }

  /** A cancelled notification stays cancelled whatever happens next, exactly when no scheduler
      had already read its status as 'scheduled'. */
  lemma CancelIsFinal(s: State, i: Id)
    requires Reachable(s) && Has(s, i, Cancelled)
    ensures StaysCancelled(s, i) <==> !exists a :: StaleScheduler(s, a, i)
  {
    ReachableOK(s);
    if a :| StaleScheduler(s, a, i) {
      StaleWrite(s, a, i);
      assert !Has(After(s, [Act(a, OK)]), i, Cancelled);
    } else {
      NoStale(s, i);
      forall trace | Runs(s, trace) ensures Has(After(s, trace), i, Cancelled) {
        CancelHolds(s, trace, i);
      }
    }
  }

  const JOB: Job := Job(7, Queue(SMS, High), Some(SECOND), 0)
  const ROW: Row := Row(Scheduled, 0, MAX_RETRIES, None, None)

  const ASKED: Actor := Creator(None, Inserting(Request(Queue(SMS, High), Some(SECOND), None)))

  /** A notification scheduled for second 1 is asked for. */
  lemma OneAsked() returns (s: State)
    ensures Reachable(s) && s == Empty(0).(actors := map[1 := ASKED])
  {
    s := Empty(0);
    assert Runs(s, []) && After(s, []) == s;
    assert Reaches(s, s);
    s := Then(s, Submit(1, Request(JOB.queue, JOB.at, None)));
  }

  /** It is created. */
  lemma OneCreated() returns (s: State)
    ensures Reachable(s) && s.now == 0 && s.rows == map[7 := ROW] && s.sched == map[]
    ensures s.actors == map[1 := Creator(None, Publishing(Draft(JOB, true)))]
  {
    s := OneAsked();
    assert At(s, 1) == ASKED;
    s := Then(s, Act(1, Choice(Fine, true, 7, 0)));
  }

  /** It waits in the sorted set. */
  lemma OneWaiting() returns (s: State)
    ensures Reachable(s) && s.now == 0 && s.rows == map[7 := ROW] && s.sched == map[JOB := 1]
    ensures s.actors == map[1 := Idle]
  {
    s := OneCreated();
    assert At(s, 1) == Creator(None, Publishing(Draft(JOB, true)));
    s := Then(s, Act(1, OK));
  }

  /** Once it is due, a scheduler finds it. */
  lemma OneFound() returns (s: State)
    ensures Reachable(s) && s.rows == map[7 := ROW] && s.sched == map[JOB := 1]
    ensures s.actors == map[1 := Idle, 2 := Sweeper([JOB], [], Check)]
  {
    s := OneWaiting();
    s := Then(s, Tick(SECOND));
    s := Then(s, Sweep(2, SECOND, [JOB], Fine));
  }

  /** The scheduler claims it. */
  lemma OneClaimed() returns (s: State)
    ensures Reachable(s) && s.rows == map[7 := ROW]
    ensures s.actors == map[1 := Idle, 2 := Sweeper([], [JOB], Check)]
  {
    s := OneFound();
    assert At(s, 2) == Sweeper([JOB], [], Check);
    assert [JOB][1..] == [] && [] + [JOB] == [JOB];
    s := Then(s, Act(2, OK));
  }

  /** The scheduler reads the status. */
  lemma OneChecked() returns (s: State)
    ensures Reachable(s) && s.rows == map[7 := ROW] && At(s, 3) == Idle
    ensures At(s, 2) == Sweeper([], [JOB], Unschedule)
  {
    s := OneClaimed();
    assert At(s, 2) == Sweeper([], [JOB], Check);
    s := Then(s, Act(2, OK));
  }

  /** The exception occurs: a cancellation can fall between the scheduler's read and its write. */
  lemma CancelCanBeLost()
    ensures exists s: State, i :: Reachable(s) && Has(s, i, Cancelled) && !StaysCancelled(s, i)
  {
    var s := OneChecked();
    s := Then(s, Cancel(3, 7, Fine));
    assert At(s, 2) == Sweeper([], [JOB], Unschedule);
    assert StaleScheduler(s, 2, 7);
    CancelIsFinal(s, 7);
  }

  lemma Then(s: State, e: Event) returns (t: State)
    requires Reachable(s) && Enabled(s, e)
    ensures t == Apply(s, e) && Reachable(t)
  {
    t := Apply(s, e);
    Extend(s, e);
  }

  /** No send is under way, and none is decided, when a cancellation takes effect. */
  lemma NoSendDuringCancel(s: State, e: Event, a: ActorId)
    requires Reachable(s) && Enabled(s, e) && e.Cancel?
    requires Has(Apply(s, e), e.id, Cancelled) && !Has(s, e.id, Cancelled)
    ensures At(s, a).Worker? && At(s, a).job.id == e.id ==>
      At(s, a).task.Throttle? || At(s, a).task.Load? || At(s, a).task.Mark? || At(s, a).task.Reschedule?
  {
    ReachableOK(s);
    if GripOf(At(s, a), e.id).Some? {
      GripFound(s, a, e.id);
      assert Tidy(At(s, a));
    }
  }

  // ---- the life of a row ----

  /** The changes of status that occur. */
  predicate Allowed(was: Status, now: Status) {
    || now == was
    || (was == Scheduled && (now == Queued || now == Cancelled))
    || (was == Queued && (now == Processing || now == Cancelled))
    || (was == Processing && (now == Delivered || now == Failed || now == Queued))
    || (was == Cancelled && now == Queued)
  }

  ghost predicate StatusFine(s: State, fx: Effect) {
    && (fx.sql.SetRow? ==> fx.id in s.rows && Allowed(s.rows[fx.id].status, fx.sql.row.status))
    && (fx.sql.InsertRow? ==> fx.id !in s.rows)
  }

  lemma WorkerStatus(s: State, a: ActorId, job: Job, task: Task, c: Choice)
    requires GripHeld(s, job.id, Grip(task, job.at))
    ensures StatusFine(s, MoveWorker(s, job, task, c))
  {
  }

  lemma DueStatus(s: State, x: Actor, fault: Fault)
    requires x.Sweeper? && x.due != [] && GripHeld(s, x.due[0].id, Grip(x.step, None))
    ensures StatusFine(s, MoveDue(s, x, fault))
  {
  }

  lemma MoveStatus(s: State, a: ActorId, c: Choice)
    requires CopiesOK(s) && CellsOK(s) && Enabled(s, Act(a, c))
    ensures StatusFine(s, Move(s, a, c))
  {
    var x := At(s, a);
    MoveLegal(s, a, c);
    match x
    case Worker(job, task) => GripFound(s, a, job.id); WorkerStatus(s, a, job, task, c);
    case Sweeper(_, due, _) => if x.found == [] { GripFound(s, a, due[0].id); DueStatus(s, x, c.fault); }
    case Creator(run, call) => CreatorInserts(s, a, run, call, c);
    case _ =>
  }

  /** In every reachable state and event a row changes its status only in these ways; so the write
      to 'failed' always finds the row processing, and the scheduler's write to 'queued' finds only
      scheduled or cancelled, although neither statement has a guard. */
  lemma StatusDiagram(s: State, e: Event, i: Id)
    requires Reachable(s) && Enabled(s, e) && i in s.rows
    ensures i in Apply(s, e).rows && Allowed(s.rows[i].status, Apply(s, e).rows[i].status)
  {
    ReachableOK(s);
    match e
    case Act(a, c) => MoveStatus(s, a, c);
    case Tick(_) =>
    case Expire(_) =>
    case Crash(_) =>
    case _ => StartLegal(s, e);
  }

  /** What the two unguarded statements find. */
  lemma UnguardedWrites(s: State, a: ActorId)
    requires Reachable(s)
    ensures At(s, a).Worker? && At(s, a).task.Fail? ==> Has(s, At(s, a).job.id, Processing)
    ensures At(s, a).Sweeper? && At(s, a).due != [] && At(s, a).step.Unschedule? ==>
      Has(s, At(s, a).due[0].id, Scheduled) || Has(s, At(s, a).due[0].id, Cancelled)
  {
    ReachableOK(s);
    var x := At(s, a);
    if x.Worker? { GripFound(s, a, x.job.id); }
    if x.Sweeper? && x.due != [] { GripFound(s, a, x.due[0].id); }
  }

  // ---- when a send may start ----

  /** A send starts only on a marked row that nobody has accepted, and never a full second before
      the instant it was set for: after a failure, that failure's clock reading plus the delay. */
  lemma SendsAreDue(s: State, e: Event, i: Id)
    requires Reachable(s) && Enabled(s, e) && i in s.rows
    requires HistOf(Apply(s, e), i).sends != HistOf(s, i).sends
    ensures Has(s, i, Processing) && HistOf(s, i).accepts == 0
    ensures s.now > HistOf(s, i).notBefore - 1_000_000_000
    ensures HistOf(s, i).sends > 0 ==>
      s.now > HistOf(s, i).lastFailure + Delay(HistOf(s, i).sends) - 1_000_000_000
  {
    ReachableOK(s);
    DeliveryStep(s, e);
    assert Advances(s, Apply(s, e), i);
  }

  // ---- the documented delays ----

  ghost predicate ThreeRetries(s: State) {
    forall i :: i in s.rows ==> s.rows[i].max == MAX_RETRIES
  }

  lemma CreatorInserts(s: State, a: ActorId, run: Option<BatchRun>, call: Call, c: Choice)
    ensures var sql := MoveCreator(s, a, run, call, c).sql; sql.InsertRow? ==> sql.row.max == MAX_RETRIES
    ensures !MoveCreator(s, a, run, call, c).sql.SetRow?
  {
  }

  lemma NewRows(s: State, e: Event, i: Id)
    requires DeliveryOK(s) && Enabled(s, e) && i in Apply(s, e).rows && i !in s.rows
    ensures Apply(s, e).rows[i].max == MAX_RETRIES
  {
    match e
    case Act(a, c) =>
      MoveLegal(s, a, c);
      if At(s, a).Creator? { CreatorInserts(s, a, At(s, a).run, At(s, a).call, c); }
    case Tick(_) =>
    case Expire(_) =>
    case Crash(_) =>
    case _ => StartLegal(s, e);
  }

  lemma {:induction false} RunThree(s: State, trace: seq<Event>)
    requires DeliveryOK(s) && ThreeRetries(s) && Runs(s, trace)
    ensures ThreeRetries(After(s, trace))
    decreases |trace|
  {
    if trace != [] {
      var t := Apply(s, trace[0]);
      DeliveryStep(s, trace[0]);
      forall i | i in t.rows ensures t.rows[i].max == MAX_RETRIES {
        if i in s.rows { assert Advances(s, t, i); } else { NewRows(s, trace[0], i); }
      }
      RunThree(t, trace[1..]);
    }
  }

  /** Every notification has three retries: it is never sent more than four times, and one that has
      failed was sent exactly four times. */
  lemma FourSends(s: State, i: Id)
    requires Reachable(s) && i in s.rows
    ensures s.rows[i].max == 3 && s.rows[i].retry <= 3 && HistOf(s, i).sends <= 4
    ensures s.rows[i].status == Failed ==> HistOf(s, i).sends == 4 && HistOf(s, i).accepts == 0
  {
    ReachableOK(s);
    var now :| Reaches(Empty(now), s);
    var trace :| Runs(Empty(now), trace) && After(Empty(now), trace) == s;
    RunThree(Empty(now), trace);
  }

  /** The first, second and third retry come more than 9, 19 and 39 seconds after the failure before
      them: the documented 10, 20 and 40 seconds less one. */
  lemma RetriesArePaced(s: State, e: Event, i: Id)
    requires Reachable(s) && Enabled(s, e) && i in s.rows
    requires HistOf(s, i).sends > 0 && HistOf(Apply(s, e), i).sends != HistOf(s, i).sends
    ensures var n := HistOf(s, i).sends;
      && 1 <= n <= 3
      && s.now > HistOf(s, i).lastFailure
                 + if n == 1 then 9_000_000_000 else if n == 2 then 19_000_000_000 else 39_000_000_000
  {
    SendsAreDue(s, e, i);
    RetryNumber(s, e, i);
    DelayInUse(HistOf(s, i).sends);
  }

  lemma RetryNumber(s: State, e: Event, i: Id)
    requires Reachable(s) && Enabled(s, e) && i in s.rows && HistOf(Apply(s, e), i).sends != HistOf(s, i).sends
    ensures HistOf(s, i).sends <= 3
  {
    ReachableStep(s, e);
    assert Advances(s, Apply(s, e), i);
    FourSends(Apply(s, e), i);
  }

  lemma {:induction false} FirstSendKeepsTime(s: State, trace: seq<Event>, i: Id)
    requires Reachable(s) && Runs(s, trace) && i in s.rows
    requires HistOf(After(s, trace), i).sends == 0
    ensures i in After(s, trace).rows
    ensures HistOf(After(s, trace), i).notBefore == HistOf(s, i).notBefore
    decreases |trace|
  {
    if trace != [] {
      var t := Apply(s, trace[0]);
      ReachableStep(s, trace[0]);
      SendsGrow(t, trace[1..], i);
      FirstSendKeepsTime(t, trace[1..], i);
    }
  }

  lemma {:induction false} SendsGrow(s: State, trace: seq<Event>, i: Id)
    requires Reachable(s) && Runs(s, trace) && i in s.rows
    ensures HistOf(s, i).sends <= HistOf(After(s, trace), i).sends
    decreases |trace|
  {
    if trace != [] {
      ReachableStep(s, trace[0]);
      SendsGrow(Apply(s, trace[0]), trace[1..], i);
    }
  }

  lemma InsertSetsTime(s: State, a: ActorId, c: Choice)
    requires Enabled(s, Act(a, c)) && At(s, a).Creator? && At(s, a).call.Inserting?
    requires c.newId in Apply(s, Act(a, c)).rows && At(s, a).call.req.at.Some?
    ensures HistOf(Apply(s, Act(a, c)), c.newId).notBefore == At(s, a).call.req.at.value
  {
  }

  /** A notification created for instant `time` is not sent a full second or more before it. */
  lemma ScheduledSendIsNotEarly(s: State, a: ActorId, c: Choice, time: int, trace: seq<Event>, e: Event)
    requires Reachable(s) && Enabled(s, Act(a, c)) && At(s, a).Creator? && At(s, a).call.Inserting?
    requires At(s, a).call.req.at == Some(time) && c.newId in Apply(s, Act(a, c)).rows
    requires Runs(Apply(s, Act(a, c)), trace)
    requires var u := After(Apply(s, Act(a, c)), trace);
      Enabled(u, e) && HistOf(u, c.newId).sends == 0 && HistOf(Apply(u, e), c.newId).sends == 1
    ensures After(Apply(s, Act(a, c)), trace).now > time - 1_000_000_000
  {
    var t := Apply(s, Act(a, c));
    var u := After(t, trace);
    Extend(s, Act(a, c));
    InsertSetsTime(s, a, c);
    FirstSendKeepsTime(t, trace, c.newId);
    ExtendRun(t, trace);
    SendsAreDue(u, e, c.newId);
  }

  // ---- termination ----

  /** How often the copy of `i` changes hands or stage along a run. */
  ghost function Moves(s: State, trace: seq<Event>, i: Id): nat
    requires Runs(s, trace)
    decreases |trace|
  {
    if trace == [] then 0
    else
      var t := Apply(s, trace[0]);
      (if i in s.rows && ViewOf(t, i) != ViewOf(s, i) then 1 else 0) + Moves(t, trace[1..], i)
  }

  lemma {:induction false} MovesBurnFuel(s: State, trace: seq<Event>, i: Id)
    requires Reachable(s) && Runs(s, trace) && i in s.rows
    ensures i in After(s, trace).rows
    ensures var t := After(s, trace);
      Moves(s, trace, i) + Fuel(t.rows[i], HistOf(t, i), ViewOf(t, i)) <= Fuel(s.rows[i], HistOf(s, i), ViewOf(s, i))
    decreases |trace|
  {
    if trace != [] {
      ReachableStep(s, trace[0]);
      MovesBurnFuel(Apply(s, trace[0]), trace[1..], i);
    }
  }

  lemma FuelBounds(s: State, i: Id)
    requires CellsOK(s) && i in s.rows
    ensures 0 <= Fuel(s.rows[i], HistOf(s, i), ViewOf(s, i)) <= 16 * (s.rows[i].max + 1 - HistOf(s, i).sends) + 13
  {
  }

  /** Whatever the provider answers and whichever calls fail, a notification is handled a
      bounded number of times. */
  lemma MovesAreBounded(s: State, trace: seq<Event>, i: Id)
    requires Reachable(s) && Runs(s, trace) && i in s.rows
    ensures Moves(s, trace, i) <= 16 * (s.rows[i].max + 1 - HistOf(s, i).sends) + 13
  {
    ReachableOK(s);
    ExtendRun(s, trace);
    ReachableOK(After(s, trace));
    MovesBurnFuel(s, trace, i);
    FuelBounds(s, i);
    FuelBounds(After(s, trace), i);
  }

  // ---- runs in which nothing goes wrong ----

  ghost predicate CleanRun(s: State, trace: seq<Event>)
    requires Runs(s, trace)
    decreases |trace|
  {
    trace == [] || (Clean(s, trace[0]) && CleanRun(Apply(s, trace[0]), trace[1..]))
  }

  lemma {:induction false} CleanKeeps(s: State, trace: seq<Event>)
    requires DeliveryOK(s) && AllKept(s) && Runs(s, trace) && CleanRun(s, trace)
    ensures DeliveryOK(After(s, trace)) && AllKept(After(s, trace))
    decreases |trace|
  {
    if trace != [] {
      DeliveryStep(s, trace[0]);
      CleanKeeps(Apply(s, trace[0]), trace[1..]);
    }
  }

  /** Without crashes and failed calls every unfinished notification has a copy, which is the
      only one. */
  lemma NoLostWork(now: int, trace: seq<Event>, i: Id)
    requires Runs(Empty(now), trace) && CleanRun(Empty(now), trace)
    requires var s := After(Empty(now), trace); i in s.rows && !Terminal(s.rows[i].status)
    ensures exists slot :: CopyIn(After(Empty(now), trace), slot, i)
  {
    var s := After(Empty(now), trace);
    CleanKeeps(Empty(now), trace);
    assert Kept(s.rows[i], ViewOf(s, i));
    HasCopy(s, i);
  }

  /** A scheduled notification is never in a live list nor with a worker. */
  lemma ScheduledIsNotLive(s: State, i: Id)
    requires Reachable(s) && Has(s, i, Scheduled)
    ensures forall q, k :: !CopyIn(s, ListSlot(q, k), i)
    ensures forall a, k :: At(s, a).Worker? ==> !CopyIn(s, HandSlot(a, k), i)
  {
    ReachableOK(s);
    forall q, k | CopyIn(s, ListSlot(q, k), i) ensures false {
      SlotPlace(s, ListSlot(q, k), i);
    }
    forall a, k | At(s, a).Worker? && CopyIn(s, HandSlot(a, k), i) ensures false {
      assert Tidy(At(s, a));
      GripFound(s, a, i);
    }
  }
}
