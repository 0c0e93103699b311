/** What becomes of a notification is decided by the provider's answers alone: in a system left to
    itself, where nothing fails and nobody cancels, the first of four sends that is accepted delivers
    it, and if none is, it fails. */
module Fate {
  import opened Model
  import opened Machine
  import opened Copies
  import opened Delivery
  import opened Guarantees
  import opened Settlement
  import opened Completion
  import StaleCounters

  /** The number of the first send that the provider accepts, 5 if it accepts none of four. */
  function FirstYes(o: Oracle, i: Id): nat {
    if o.accepts(i, 1) then 1
    else if o.accepts(i, 2) then 2
    else if o.accepts(i, 3) then 3
    else if o.accepts(i, 4) then 4
    else 5
  }

  predicate Awaiting(v: View) {
    v.Gripped? && v.grip.task.Await?
  }

  /** The sends so far have come out as the oracle says. */
  ghost predicate OnCourse(s: State, i: Id, o: Oracle) {
    && i in s.rows && s.rows[i].status != Cancelled
    && var h := HistOf(s, i);
    && h.sends <= FirstYes(o, i)
    && (h.accepts > 0 ==> h.sends == FirstYes(o, i))
    && (h.sends == FirstYes(o, i) && h.accepts == 0 ==> Awaiting(ViewOf(s, i)))
  }

  /** What an effect may do to the history of its notification: nothing, start a send, or take the
      answer the oracle gives; and it does not cancel. */
  ghost predicate CourseFine(s: State, a: ActorId, fx: Effect, o: Oracle) {
    var i, h, v := fx.id, HistOf(s, fx.id), ViewOf(s, fx.id);
    var later := fx.hist.GetOr(h);
    && (fx.sql.SetRow? && fx.sql.row.status == Cancelled ==> Has(s, i, Cancelled))
    && (fx.sql.InsertRow? ==> i !in s.rows)
    && (|| fx.sql.InsertRow?
        || Quiet(s, a, fx)
        || (!Awaiting(v) && later.sends == h.sends && later.accepts == h.accepts)
        || (!Awaiting(v) && later.sends == h.sends + 1 && h.accepts == later.accepts == 0 && Awaiting(ViewAfter(s, fx)))
        || (Awaiting(v) && 1 <= h.sends == later.sends <= 4 && h.accepts == 0
            && later.accepts == if o.accepts(i, h.sends) then 1 else 0))
  }

  lemma CourseLift(s: State, a: ActorId, fx: Effect, o: Oracle, i: Id)
    requires CopiesOK(s) && Legal(s, a, fx) && CourseFine(s, a, fx, o) && OnCourse(s, i, o)
    ensures OnCourse(Commit(s, a, fx), i, o)
  {
    if i != fx.id {
      OtherViews(s, a, fx, i);
    } else {
      OwnView(s, a, fx);
      if Quiet(s, a, fx) && GripOf(At(s, a), i).Some? { GripView(s, a, i); }
    }
  }

  // ---- every move keeps the course ----

  lemma WorkerCourse(s: State, a: ActorId, job: Job, task: Task, c: Choice, o: Oracle)
    requires CopiesOK(s) && At(s, a) == Worker(job, task) && GripHeld(s, job.id, Grip(task, job.at))
    requires c.good == Told(s, At(s, a), o) && HistOf(s, job.id).sends <= 4
    ensures CourseFine(s, a, MoveWorker(s, job, task, c), o)
  {
  }

  lemma DueCourse(s: State, a: ActorId, x: Actor, fault: Fault, o: Oracle)
    requires CopiesOK(s) && At(s, a) == x && x.Sweeper? && x.found == [] && x.due != []
    ensures CourseFine(s, a, MoveDue(s, x, fault), o)
  {
    assert Tidy(x);
    GripView(s, a, x.due[0].id);
  }

  lemma ClaimCourse(s: State, a: ActorId, x: Actor, fault: Fault, o: Oracle)
    requires CopiesOK(s) && At(s, a) == x && x.Sweeper? && x.found != []
    ensures CourseFine(s, a, MoveClaiming(s, a, x, fault), o)
  {
    assert Tidy(x);
    if x.found[0] in s.sched {
      assert InSched(s.sched, x.found[0].id) && Contains(s, Timed, x.found[0].id);
      assert s.place[x.found[0].id] == Timed;
    }
  }

  lemma ProbeCourse(s: State, a: ActorId, x: Actor, fault: Fault, o: Oracle)
    requires CopiesOK(s) && At(s, a) == x && x.Probing?
    ensures CourseFine(s, a, MoveProbing(s, a, x, fault), o)
  {
    var fx := MoveProbing(s, a, x, fault);
    if fx.redis.RPop? {
      var q := fx.redis.queue;
      assert Seq(s.lists, q)[0].id == fx.id && InJobs(Seq(s.lists, q), fx.id);
      assert Contains(s, Listed(q), fx.id);
    }
  }

  lemma CreatorCourse(s: State, a: ActorId, run: Option<BatchRun>, call: Call, c: Choice, o: Oracle)
    requires CopiesOK(s) && At(s, a) == Creator(run, call) && (call.Inserting? ==> c.newId !in s.rows)
    ensures CourseFine(s, a, MoveCreator(s, a, run, call, c), o)
  {
    var fx := MoveCreator(s, a, run, call, c);
    if GripOf(At(s, a), fx.id).Some? { GripView(s, a, fx.id); }
  }

  lemma MoveCourse(s: State, a: ActorId, c: Choice, o: Oracle)
    requires Reachable(s) && Enabled(s, Act(a, c)) && c.good == Told(s, At(s, a), o)
    ensures CourseFine(s, a, Move(s, a, c), o)
  {
    ReachableOK(s);
    var x := At(s, a);
    match x
    case Worker(job, task) =>
      GripFound(s, a, job.id);
      FourSends(s, job.id);
      WorkerCourse(s, a, job, task, c, o);
    case Sweeper(_, _, _) =>
      if x.found == [] { DueCourse(s, a, x, c.fault, o); } else { ClaimCourse(s, a, x, c.fault, o); }
    case Probing(_, _) => ProbeCourse(s, a, x, c.fault, o);
    case Creator(run, call) => CreatorCourse(s, a, run, call, c, o);
    case _ =>
  }

  lemma StepCourse(s: State, e: Event, o: Oracle, i: Id)
    requires Reachable(s) && Enabled(s, e) && Heeds(s, e, o) && OnCourse(s, i, o)
    ensures OnCourse(Apply(s, e), i, o)
  {
    ReachableOK(s);
    match e
    case Act(a, c) =>
      MoveLegal(s, a, c);
      MoveCourse(s, a, c, o);
      CourseLift(s, a, Move(s, a, c), o, i);
    case Tick(_) => assert ViewOf(Apply(s, e), i) == ViewOf(s, i);
    case Dequeue(a, _) => StartLegal(s, e); CourseLift(s, a, Start(s, e), o, i);
    case Sweep(a, _, _, _) => StartLegal(s, e); CourseLift(s, a, Start(s, e), o, i);
    case _ => assert false;
  }

  lemma {:induction false} RunCourse(s: State, trace: seq<Event>, o: Oracle, i: Id)
    requires Reachable(s) && Goes(s, trace, o) && OnCourse(s, i, o)
    ensures OnCourse(After(s, trace), i, o)
    decreases |trace|
  {
    if trace != [] {
      StepCourse(s, trace[0], o, i);
      Extend(s, trace[0]);
      RunCourse(Apply(s, trace[0]), trace[1..], o, i);
    }
  }

  // ---- theorems ----

  /** The notification's last word is the provider's. */
  ghost predicate Decided(t: State, i: Id, o: Oracle) {
    && i in t.rows
    && var status, sends := t.rows[i].status, HistOf(t, i).sends;
    if o.accepts(i, 1) then status == Delivered && sends == 1
    else if o.accepts(i, 2) then status == Delivered && sends == 2
    else if o.accepts(i, 3) then status == Delivered && sends == 3
    else if o.accepts(i, 4) then status == Delivered && sends == 4
    else status == Failed && sends == 4
  }

  /** A notification that has not been sent is delivered by the first of four sends the provider
      accepts, and fails after four if there is none. */
  lemma FateIsDecided(s: State, trace: seq<Event>, o: Oracle, i: Id)
    requires CleanlyReached(s) && (Has(s, i, Queued) || Has(s, i, Scheduled)) && HistOf(s, i).sends == 0
    requires Goes(s, trace, o) && Quiescent(After(s, trace))
    ensures Decided(After(s, trace), i, o)
  {
    var t := After(s, trace);
    ReachedCleanly(s);
    ReachableOK(s);
    RunCourse(s, trace, o, i);
    CleanContinues(s, trace);
    CourseEnds(t, o, i);
  }

  lemma CourseEnds(t: State, o: Oracle, i: Id)
    requires CleanlyReached(t) && Quiescent(t) && OnCourse(t, i, o)
    ensures Decided(t, i, o)
  {
    ReachedCleanly(t);
    ReachableOK(t);
    AllFinished(t, i);
    FourSends(t, i);
    SendBudget(t, i);
    NobodyAwaits(t, i);
  }

  lemma NobodyAwaits(t: State, i: Id)
    requires Quiescent(t)
    ensures !Awaiting(ViewOf(t, i))
  {
  }

  /** A notification can be rejected three times and delivered by its fourth send. */
  lemma DeliveredByTheFourth()
    ensures exists s: State, i :: Reachable(s) && Has(s, i, Delivered) && HistOf(s, i).sends == 4
  {
    var s := StaleCounters.MemberPublished();
    var o := Oracle((b, n) => true, (i, n) => n == 4);
    CanBeDecided(s, 7, o);
  }

  lemma CanBeDecided(s: State, i: Id, o: Oracle)
    requires CleanlyReached(s) && Has(s, i, Queued) && s.rows[i].retry == 0
    ensures exists trace :: Goes(s, trace, o) && Decided(After(s, trace), i, o) && Reachable(After(s, trace))
  {
    ReachedCleanly(s);
    SendBudget(s, i);
    WorkCanFinish(s, o);
    var trace :| Goes(s, trace, o) && Quiescent(After(s, trace));
    FateIsDecided(s, trace, o, i);
    ExtendRun(s, trace);
  }
}
