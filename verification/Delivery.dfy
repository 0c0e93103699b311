/** What each notification has been through: how often it was sent, what the provider answered,
    and when it may be sent next, in every reachable state of every interleaving. */
module Delivery {
  import opened Model
  import opened Machine
  import opened Copies
  import opened Backoff

  /** Where the copy of one notification is, seen from the notification. */
  datatype View = Gone | Waiting | Timing | Gripped(grip: Grip)

  function ViewOf(s: State, i: Id): View {
    if i !in s.place then Gone else
    match s.place[i]
    case Nowhere => Gone
    case Listed(_) => Waiting
    case Timed => Timing
    case Held(a) => if GripOf(At(s, a), i).Some? then Gripped(GripOf(At(s, a), i).value) else Gone
  }

  /** Sends, retries and accepted sends, status by status. */
  predicate BudgetOK(row: Row, h: Hist) {
    && row.retry <= row.max && h.accepts <= 1
    && match row.status
       case Pending => false
       case Queued => h.sends == row.retry && h.accepts == 0
       case Scheduled => h.sends == row.retry == 0 && h.accepts == 0
       case Cancelled => h.sends == row.retry && h.accepts == 0
       case Processing => row.retry <= h.sends <= row.retry + 1
       case Delivered => h.sends == row.retry + 1 && h.accepts == 1
       case Failed => h.sends == row.max + 1 && row.retry == row.max && h.accepts == 0
  }

  /** The second the next send was set for has been reached. */
  predicate Ripe(h: Hist, now: int) {
    Secs(h.notBefore) <= Secs(now)
  }

  /** After a failed send the next one is set for that failure's clock reading plus the delay. */
  predicate Paced(h: Hist) {
    h.sends > 0 ==> h.notBefore == h.lastFailure + Delay(h.sends)
  }

  predicate ReadyOK(row: Row, h: Hist, now: int) {
    row.status != Scheduled && Ripe(h, now) && Paced(h)
  }

  /** What the holder of the copy may rely on. */
  predicate GripOK(row: Row, h: Hist, g: Grip, now: int) {
    match g.task
    case Publish(timed) =>
      && h.published == 0 && Paced(h)
      && (if timed then (row.status == Scheduled || row.status == Cancelled) && g.at == Some(h.notBefore)
          else (row.status == Queued || row.status == Cancelled) && Ripe(h, now))
    case Throttle => ReadyOK(row, h, now)
    case Load => ReadyOK(row, h, now)
    case Mark(r, m) =>
      ReadyOK(row, h, now) && r == row.retry && m == row.max && (row.status == Queued || row.status == Cancelled)
    case Send(r, m) =>
      ReadyOK(row, h, now) && r == row.retry && m == row.max && row.status == Processing
      && h.sends == r && h.accepts == 0
    case Await(r, m) =>
      r == row.retry && m == row.max && row.status == Processing && h.sends == r + 1 && h.accepts == 0
    case Deliver => row.status == Processing && h.sends == row.retry + 1 && h.accepts == 1
    case Fail => row.status == Processing && h.sends == row.max + 1 && row.retry == row.max && h.accepts == 0
    case SaveRetry(r) =>
      && row.status == Processing && h.sends == r && r == row.retry + 1 && r <= row.max && h.accepts == 0
      && g.at == Some(h.notBefore) && Paced(h)
    case Reschedule => row.status != Scheduled && g.at == Some(h.notBefore) && Paced(h)
    case Check => Ripe(h, now) && Paced(h)
    case Unschedule =>
      Ripe(h, now) && Paced(h) && h.revived == 0 && (row.status == Scheduled || row.status == Cancelled)
    case Requeue => ReadyOK(row, h, now)
  }

  predicate CellOK(row: Row, h: Hist, v: View, now: int) {
    && BudgetOK(row, h)
    && h.published <= 1 && h.revived <= 1
    && (row.status == Scheduled ==> h.revived == 0)
    && match v
       case Gone => true
       case Waiting => ReadyOK(row, h, now)
       case Timing => Paced(h)
       case Gripped(g) => GripOK(row, h, g, now)
  }

  /** Stages a copy passes between two sends, counting down. */
  function StagesLeft(v: View): nat {
    match v
    case Gone => 0
    case Waiting => 5
    case Timing => 9
    case Gripped(g) =>
      match g.task
      case Publish(_) => 10
      case Await(_, _) => 13
      case SaveRetry(_) => 12
      case Reschedule => 11
      case Check => 8
      case Unschedule => 7
      case Requeue => 6
      case Throttle => 4
      case Load => 3
      case Mark(_, _) => 2
      case _ => 1
  }

  /** Sends left, then stage: what every move of a copy uses up. */
  function Fuel(row: Row, h: Hist, v: View): int {
    16 * (row.max + 1 - h.sends) + StagesLeft(v)
  }

  /** The view of a row whose worker has marked it and not yet written the outcome. */
  predicate InDelivery(v: View) {
    v.Gripped? && (v.grip.task.Send? || v.grip.task.Await? || v.grip.task.Deliver?
                   || v.grip.task.Fail? || v.grip.task.SaveRetry?)
  }

  /** Without failures no unfinished notification is without a copy. */
  predicate Kept(row: Row, v: View) {
    && (row.status == Processing ==> InDelivery(v))
    && (row.status == Queued || row.status == Scheduled ==> v != Gone)
  }

  /** A scheduler has read the status 'scheduled' and is about to write 'queued'. */
  predicate Unscheduling(v: View) {
    v.Gripped? && v.grip.task.Unschedule?
  }

  /** How a notification may change in one event at clock reading `now`. */
  predicate Progress(row: Row, h: Hist, v: View, row': Row, h': Hist, v': View, now: int) {
    && row'.max == row.max && row'.batch == row.batch && row'.key == row.key
    && (row.status == Delivered || row.status == Failed ==> row' == row)
    && (row.status == Cancelled && !Unscheduling(v) ==> row' == row)
    && (Unscheduling(v') && !Unscheduling(v) ==> row.status == Scheduled)
    && (row.status != Scheduled ==> row'.status != Scheduled)
    && h.accepts <= h'.accepts && h.published <= h'.published && h.revived <= h'.revived
    && (h'.revived != h.revived ==> row.status == Cancelled && row'.status == Queued)
    && (h'.sends == h.sends ||
        (h'.sends == h.sends + 1 && h.accepts == 0 && row.status == Processing && Ripe(h, now) && Paced(h)))
    && (h.sends == 0 ==> h'.notBefore == h.notBefore)
    && (if v' == v then Fuel(row', h', v') == Fuel(row, h, v) else Fuel(row', h', v') < Fuel(row, h, v))
  }

  ghost predicate CellsOK(s: State) {
    forall i :: i in s.rows ==> i in s.hist && CellOK(s.rows[i], s.hist[i], ViewOf(s, i), s.now)
  }

  /** Members of the sorted set carry the instant of the next send, and its second as score. */
  ghost predicate ScoresOK(s: State) {
    forall job :: job in s.sched ==>
      job.at == Some(HistOf(s, job.id).notBefore) && s.sched[job] == Secs(HistOf(s, job.id).notBefore)
  }

  /** The jobs a scheduler has found were due. */
  predicate WereDue(x: Actor, now: int) {
    x.Sweeper? ==> forall k :: 0 <= k < |x.found| ==> x.found[k].at.Some? && Secs(x.found[k].at.value) <= Secs(now)
  }

  ghost predicate FoundOK(s: State) {
    forall a :: a in s.actors ==> WereDue(s.actors[a], s.now)
  }

  ghost predicate DeliveryOK(s: State) {
    CopiesOK(s) && CellsOK(s) && ScoresOK(s) && FoundOK(s)
  }

  // ---- lifting: an effect concerns one notification ----

  lemma OtherViews(s: State, a: ActorId, fx: Effect, j: Id)
    requires Legal(s, a, fx) && j != fx.id
    ensures ViewOf(Commit(s, a, fx), j) == ViewOf(s, j)
  {
    var t := Commit(s, a, fx);
    assert forall b :: At(t, b) == if b == a then fx.next else At(s, b);
  }

  /** The view of the effect's own notification afterwards. */
  function ViewAfter(s: State, fx: Effect): View {
    match fx.place
    case Some(Nowhere) => Gone
    case Some(Listed(_)) => Waiting
    case Some(Timed) => Timing
    case _ => if GripOf(fx.next, fx.id).Some? then Gripped(GripOf(fx.next, fx.id).value) else ViewOf(s, fx.id)
  }

  lemma OwnView(s: State, a: ActorId, fx: Effect)
    requires CopiesOK(s) && Legal(s, a, fx) && (fx.id in s.rows || fx.sql.InsertRow?)
    ensures ViewOf(Commit(s, a, fx), fx.id) == ViewAfter(s, fx)
  {
    var t := Commit(s, a, fx);
    assert forall b :: At(t, b) == if b == a then fx.next else At(s, b);
    assert Contains(s, Held(a), fx.id) <==> GripOf(At(s, a), fx.id).Some?;
  }

  /** The notification whose copy a goroutine grips has that grip as its view. */
  lemma GripView(s: State, a: ActorId, i: Id)
    requires CopiesOK(s) && GripOf(At(s, a), i).Some?
    ensures i in s.rows && s.place[i] == Held(a)
    ensures ViewOf(s, i) == Gripped(GripOf(At(s, a), i).value)
  {
    assert Contains(s, Held(a), i);
  }

  /** The effect does not concern any notification. */
  ghost predicate Quiet(s: State, a: ActorId, fx: Effect) {
    && !fx.sql.SetRow? && !fx.sql.InsertRow? && fx.hist.None? && fx.place.None?
    && GripOf(fx.next, fx.id) == GripOf(At(s, a), fx.id)
  }

  /** A score is the second of the next send, which only the copy's holder sets. */
  ghost predicate ScoreFine(s: State, a: ActorId, fx: Effect) {
    var notBefore := fx.hist.GetOr(HistOf(s, fx.id)).notBefore;
    && (fx.redis.ZAdd? ==> fx.redis.job.at == Some(notBefore) && fx.redis.score == Secs(notBefore))
    && (notBefore != HistOf(s, fx.id).notBefore ==> fx.id !in s.rows || GripOf(At(s, a), fx.id).Some?)
  }

  /** The effect leaves its own notification in order. */
  ghost predicate CellFine(s: State, a: ActorId, fx: Effect, clean: bool) {
    var row := RowOf(s, fx.id);
    var h := HistOf(s, fx.id);
    var v := ViewOf(s, fx.id);
    var row' := if fx.sql.SetRow? || fx.sql.InsertRow? then fx.sql.row else row;
    var h' := fx.hist.GetOr(h);
    var v' := ViewAfter(s, fx);
    && (fx.sql.InsertRow? ==> fx.hist.Some?)
    && ScoreFine(s, a, fx)
    && (|| Quiet(s, a, fx)
        || (&& CellOK(row', h', v', s.now)
            && (!fx.sql.InsertRow? ==> Progress(row, h, v, row', h', v', s.now))
            && (clean && (fx.sql.InsertRow? || Kept(row, v)) ==> Kept(row', v'))))
  }

  /** Notification `i` has moved on legitimately from `s` to `t`. */
  ghost predicate Advances(s: State, t: State, i: Id)
    requires i in s.rows && i in t.rows
  {
    Progress(s.rows[i], HistOf(s, i), ViewOf(s, i), t.rows[i], HistOf(t, i), ViewOf(t, i), s.now)
  }

  ghost predicate AllAdvance(s: State, t: State) {
    forall i :: i in s.rows ==> i in t.rows && Advances(s, t, i)
  }

  ghost predicate AllKept(s: State) {
    forall i :: i in s.rows ==> Kept(s.rows[i], ViewOf(s, i))
  }

  lemma CellLift(s: State, a: ActorId, fx: Effect, clean: bool, j: Id)
    requires CopiesOK(s) && CellsOK(s) && Legal(s, a, fx) && CellFine(s, a, fx, clean)
    requires j in Commit(s, a, fx).rows
    ensures var t := Commit(s, a, fx);
      && j in t.hist && CellOK(t.rows[j], t.hist[j], ViewOf(t, j), t.now)
      && (j in s.rows ==> Advances(s, t, j))
      && (clean && (j in s.rows ==> Kept(s.rows[j], ViewOf(s, j))) ==> Kept(t.rows[j], ViewOf(t, j)))
  {
    if j != fx.id { OtherViews(s, a, fx, j); }
    else {
      OwnView(s, a, fx);
      if Quiet(s, a, fx) && GripOf(At(s, a), j).Some? { GripView(s, a, j); }
    }
  }

  lemma CellsLift(s: State, a: ActorId, fx: Effect, clean: bool)
    requires CopiesOK(s) && CellsOK(s) && Legal(s, a, fx) && CellFine(s, a, fx, clean)
    ensures CellsOK(Commit(s, a, fx)) && AllAdvance(s, Commit(s, a, fx))
    ensures clean && AllKept(s) ==> AllKept(Commit(s, a, fx))
  {
    forall j | j in Commit(s, a, fx).rows { CellLift(s, a, fx, clean, j); }
  }

  lemma SecsGrow(x: int, y: int)
    requires x <= y
    ensures Secs(x) <= Secs(y)
  {
  }

  // ---- the moves of each kind of goroutine ----

  /** Notification `i` is in order, and `g` is the grip on its copy. */
  ghost predicate GripHeld(s: State, i: Id, g: Grip) {
    i in s.rows && ViewOf(s, i) == Gripped(g) && CellOK(s.rows[i], HistOf(s, i), Gripped(g), s.now)
  }

  lemma GripFound(s: State, a: ActorId, i: Id)
    requires CopiesOK(s) && CellsOK(s) && GripOf(At(s, a), i).Some?
    ensures GripHeld(s, i, GripOf(At(s, a), i).value)
  {
    GripView(s, a, i);
  }

  lemma LoadTaskFine(s: State, a: ActorId, job: Job, task: Task, c: Choice)
    requires GripHeld(s, job.id, Grip(task, job.at)) && At(s, a) == Worker(job, task)
    requires task.Throttle? || task.Load?
    ensures CellFine(s, a, MoveWorker(s, job, task, c), CleanMove(At(s, a), c))
  {
  }

  lemma MarkTaskFine(s: State, a: ActorId, job: Job, task: Task, c: Choice)
    requires GripHeld(s, job.id, Grip(task, job.at)) && At(s, a) == Worker(job, task) && task.Mark?
    ensures CellFine(s, a, MoveWorker(s, job, task, c), CleanMove(At(s, a), c))
  {
  }

  lemma SendTaskFine(s: State, a: ActorId, job: Job, task: Task, c: Choice)
    requires GripHeld(s, job.id, Grip(task, job.at)) && At(s, a) == Worker(job, task)
    requires task.Send? || task.Await?
    ensures CellFine(s, a, MoveWorker(s, job, task, c), CleanMove(At(s, a), c))
  {
  }

  lemma OutcomeTaskFine(s: State, a: ActorId, job: Job, task: Task, c: Choice)
    requires GripHeld(s, job.id, Grip(task, job.at)) && At(s, a) == Worker(job, task)
    requires task.Deliver? || task.Fail? || task.SaveRetry? || task.Reschedule?
    ensures CellFine(s, a, MoveWorker(s, job, task, c), CleanMove(At(s, a), c))
  {
  }

  lemma ProbingFine(s: State, a: ActorId, x: Actor, fault: Fault)
    requires CopiesOK(s) && CellsOK(s) && At(s, a) == x && x.Probing?
    ensures CellFine(s, a, MoveProbing(s, a, x, fault), fault == Fine)
  {
    var fx := MoveProbing(s, a, x, fault);
    if fx.redis.RPop? {
      assert InJobs(Seq(s.lists, fx.redis.queue), fx.id);
      assert Contains(s, Listed(fx.redis.queue), fx.id);
    }
  }

  lemma InsertingFine(s: State, a: ActorId, run: Option<BatchRun>, req: Request, c: Choice)
    requires At(s, a) == Creator(run, Inserting(req)) && c.newId !in s.rows && c.asOf <= s.now
    ensures CellFine(s, a, MoveInserting(s, a, run, req, c), CleanMove(At(s, a), c))
  {
    SecsGrow(req.at.GetOr(s.now), if req.at.Some? && req.at.value > c.asOf then req.at.value else s.now);
  }

  lemma PublishFine(s: State, run: Option<BatchRun>, d: Draft, a: ActorId, c: Choice)
    requires GripHeld(s, d.job.id, Grip(Publish(d.timed), d.job.at))
    ensures CellFine(s, a, MoveCreator(s, a, run, Publishing(d), c), CleanMove(At(s, a), c))
  {
  }

  lemma CreatorFine(s: State, a: ActorId, run: Option<BatchRun>, call: Call, c: Choice)
    requires At(s, a) == Creator(run, call) && !call.Inserting? && !call.Publishing?
    ensures CellFine(s, a, MoveCreator(s, a, run, call, c), CleanMove(At(s, a), c))
  {
  }

  lemma ClaimingFine(s: State, a: ActorId, x: Actor, fault: Fault)
    requires DeliveryOK(s) && At(s, a) == x && x.Sweeper? && x.found != []
    ensures CellFine(s, a, MoveClaiming(s, a, x, fault), fault == Fine)
  {
    var job := x.found[0];
    assert Tidy(x) && WereDue(x, s.now);
    if job in s.sched && fault != Lost {
      TimedFound(s, job);
      ClaimedFine(s, a, x, fault);
    }
  }

  lemma TimedFound(s: State, job: Job)
    requires CopiesOK(s) && CellsOK(s) && job in s.sched
    ensures job.id in s.rows && ViewOf(s, job.id) == Timing
    ensures CellOK(s.rows[job.id], HistOf(s, job.id), Timing, s.now)
  {
    assert InSched(s.sched, job.id) && Contains(s, Timed, job.id);
  }

  lemma ClaimedFine(s: State, a: ActorId, x: Actor, fault: Fault)
    requires x.Sweeper? && x.found != [] && Tidy(x) && WereDue(x, s.now) && fault != Lost
    requires var job := x.found[0];
      && job in s.sched && job.at == Some(HistOf(s, job.id).notBefore)
      && job.id in s.rows && ViewOf(s, job.id) == Timing
      && CellOK(s.rows[job.id], HistOf(s, job.id), Timing, s.now)
    ensures CellFine(s, a, MoveClaiming(s, a, x, fault), fault == Fine)
  {
    var job := x.found[0];
    var due := x.due + [job];
    assert due[|x.due|] == job;
    assert InJobs(due, job.id);
  }

  lemma DueFine(s: State, a: ActorId, x: Actor, fault: Fault)
    requires x.Sweeper? && x.found == [] && x.due != [] && Tidy(x) && At(s, a) == x
    requires GripHeld(s, x.due[0].id, Grip(x.step, None))
    ensures CellFine(s, a, MoveDue(s, x, fault), fault == Fine)
  {
    RestGrips(x);
    if x.step.Check? { CheckFine(s, a, x, fault); } else { RequeueFine(s, a, x, fault); }
  }

  lemma CheckFine(s: State, a: ActorId, x: Actor, fault: Fault)
    requires x.Sweeper? && x.due != [] && At(s, a) == x && x.step.Check?
    requires GripHeld(s, x.due[0].id, Grip(x.step, None))
    requires GripOf(Sweeping([], x.due[1..]), x.due[0].id).None?
    ensures CellFine(s, a, MoveDue(s, x, fault), fault == Fine)
  {
  }

  lemma RequeueFine(s: State, a: ActorId, x: Actor, fault: Fault)
    requires x.Sweeper? && x.due != [] && At(s, a) == x && (x.step.Unschedule? || x.step.Requeue?)
    requires GripHeld(s, x.due[0].id, Grip(x.step, None))
    requires GripOf(Sweeping([], x.due[1..]), x.due[0].id).None?
    ensures CellFine(s, a, MoveDue(s, x, fault), fault == Fine)
  {
  }

  lemma CancelFine(s: State, e: Event)
    requires CellsOK(s) && Enabled(s, e) && e.Cancel?
    ensures CellFine(s, e.actor, Start(s, e), Clean(s, e))
  {
  }

  lemma StartFine(s: State, e: Event)
    requires CellsOK(s) && Enabled(s, e)
    requires e.Submit? || e.OpenBatch? || e.Cancel? || e.Dequeue? || e.Sweep?
    ensures CellFine(s, e.actor, Start(s, e), Clean(s, e))
  {
    if e.Cancel? { CancelFine(s, e); }
  }

  lemma SweeperFine(s: State, a: ActorId, x: Actor, fault: Fault)
    requires DeliveryOK(s) && At(s, a) == x && x.Sweeper? && Busy(x)
    ensures CellFine(s, a, if x.found != [] then MoveClaiming(s, a, x, fault) else MoveDue(s, x, fault), fault == Fine)
  {
    if x.found != [] { ClaimingFine(s, a, x, fault); } else { GripFound(s, a, x.due[0].id); DueFine(s, a, x, fault); }
  }

  lemma WorkerFine(s: State, a: ActorId, job: Job, task: Task, c: Choice)
    requires GripHeld(s, job.id, Grip(task, job.at)) && At(s, a) == Worker(job, task) && Tidy(At(s, a))
    ensures CellFine(s, a, MoveWorker(s, job, task, c), CleanMove(At(s, a), c))
  {
    if task.Send? || task.Await? { SendTaskFine(s, a, job, task, c); }
    else if task.Throttle? || task.Load? { LoadTaskFine(s, a, job, task, c); }
    else if task.Mark? { MarkTaskFine(s, a, job, task, c); }
    else { OutcomeTaskFine(s, a, job, task, c); }
  }

  lemma MoveFine(s: State, a: ActorId, c: Choice)
    requires DeliveryOK(s) && Enabled(s, Act(a, c))
    ensures CellFine(s, a, Move(s, a, c), CleanMove(At(s, a), c))
  {
    var x := At(s, a);
    assert Tidy(x);
    match x
    case Worker(job, task) =>
      GripFound(s, a, job.id);
      WorkerFine(s, a, job, task, c);
    case Probing(_, _) => ProbingFine(s, a, x, c.fault);
    case Creator(run, call) =>
      if call.Inserting? { InsertingFine(s, a, run, call.req, c); }
      else if call.Publishing? { GripFound(s, a, call.draft.job.id); PublishFine(s, run, call.draft, a, c); }
      else { CreatorFine(s, a, run, call, c); }
    case Sweeper(_, _, _) => SweeperFine(s, a, x, c.fault);
    case _ =>
  }

  // ---- scores and due jobs ----

  /** A member of the sorted set is not in anybody's hand, so nobody sets its next send anew. */
  lemma ScoreSettled(s: State, a: ActorId, fx: Effect, job: Job)
    requires CopiesOK(s) && ScoreFine(s, a, fx) && job in s.sched
    ensures HistOf(Commit(s, a, fx), job.id).notBefore == HistOf(s, job.id).notBefore
  {
    assert InSched(s.sched, job.id) && Contains(s, Timed, job.id);
    assert s.place[job.id] == Timed;
    assert !Contains(s, Held(a), job.id);
  }

  /** A member after the effect was one before, or has just been added. */
  lemma ScoreLift(s: State, a: ActorId, fx: Effect, job: Job)
    requires CopiesOK(s) && ScoresOK(s) && Legal(s, a, fx) && ScoreFine(s, a, fx) && job in Commit(s, a, fx).sched
    ensures var t := Commit(s, a, fx);
      job.at == Some(HistOf(t, job.id).notBefore) && t.sched[job] == Secs(HistOf(t, job.id).notBefore)
  {
    if fx.redis.ZAdd? && job == fx.redis.job {
      assert fx.redis.job.id == fx.id;
    } else {
      assert job in s.sched && Commit(s, a, fx).sched[job] == s.sched[job];
      ScoreSettled(s, a, fx, job);
    }
  }

  lemma ScoresLift(s: State, a: ActorId, fx: Effect)
    requires CopiesOK(s) && ScoresOK(s) && Legal(s, a, fx) && ScoreFine(s, a, fx)
    ensures ScoresOK(Commit(s, a, fx))
  {
    forall job | job in Commit(s, a, fx).sched { ScoreLift(s, a, fx, job); }
  }

  lemma MoveFound(s: State, a: ActorId, c: Choice)
    requires FoundOK(s) && Enabled(s, Act(a, c))
    ensures WereDue(Move(s, a, c).next, s.now)
  {
  }

  lemma SweepFound(s: State, e: Event)
    requires ScoresOK(s) && Enabled(s, e) && e.Sweep?
    ensures WereDue(Start(s, e).next, s.now)
  {
    SecsGrow(e.asOf, s.now);
    assert forall k :: 0 <= k < |e.found| ==> e.found[k] in e.found;
  }

  // ---- every event ----

  /** The step from `s` to `t` keeps everything in order; if nothing went wrong, also `Kept`. */
  ghost predicate StepOK(s: State, t: State, clean: bool) {
    DeliveryOK(t) && AllAdvance(s, t) && (clean && AllKept(s) ==> AllKept(t))
  }

  /** A notification that is left alone stays in order as time passes. */
  lemma CellRests(row: Row, h: Hist, v: View, now: int, later: int)
    requires CellOK(row, h, v, now) && now <= later
    ensures CellOK(row, h, v, later) && Progress(row, h, v, row, h, v, now)
  {
    SecsGrow(now, later);
  }

  /** So does one whose copy is lost. */
  lemma CellLosesCopy(row: Row, h: Hist, v: View, now: int)
    requires CellOK(row, h, v, now)
    ensures CellOK(row, h, Gone, now) && Progress(row, h, v, row, h, Gone, now)
  {
  }

  /** Only the clock and the cache differ. */
  lemma QuietStep(s: State, t: State)
    requires DeliveryOK(s) && t == s.(now := t.now, cache := t.cache) && s.now <= t.now
    ensures StepOK(s, t, true)
  {
    SamePlaces(s, t);
    forall i ensures ViewOf(t, i) == ViewOf(s, i) {
    }
    forall i | i in s.rows ensures CellOK(t.rows[i], t.hist[i], ViewOf(t, i), t.now) && Advances(s, t, i) {
      CellRests(s.rows[i], s.hist[i], ViewOf(s, i), s.now, t.now);
    }
    forall a | a in s.actors ensures WereDue(s.actors[a], t.now) {
      SecsGrow(s.now, t.now);
    }
  }

  lemma CrashStep(s: State, a: ActorId)
    requires DeliveryOK(s)
    ensures StepOK(s, s.(actors := s.actors[a := Idle], place := Forget(s.place, a)), false)
  {
    CrashKeeps(s, a);
    var t := s.(actors := s.actors[a := Idle], place := Forget(s.place, a));
    forall i | i in t.rows ensures CellOK(t.rows[i], t.hist[i], ViewOf(t, i), t.now) && Advances(s, t, i) {
      CrashView(s, a, i);
      CellRests(s.rows[i], s.hist[i], ViewOf(s, i), s.now, s.now);
      CellLosesCopy(s.rows[i], s.hist[i], ViewOf(s, i), s.now);
    }
  }

  lemma CrashView(s: State, a: ActorId, i: Id)
    ensures var t := s.(actors := s.actors[a := Idle], place := Forget(s.place, a));
      ViewOf(t, i) == ViewOf(s, i) || ViewOf(t, i) == Gone
  {
  }

  lemma CommitStep(s: State, a: ActorId, fx: Effect, clean: bool)
    requires DeliveryOK(s) && Legal(s, a, fx) && CellFine(s, a, fx, clean)
    requires WereDue(fx.next, s.now)
    ensures StepOK(s, Commit(s, a, fx), clean)
  {
    LegalKeeps(s, a, fx);
    CellsLift(s, a, fx, clean);
    ScoresLift(s, a, fx);
  }

  lemma ActStep(s: State, a: ActorId, c: Choice)
    requires DeliveryOK(s) && Enabled(s, Act(a, c))
    ensures StepOK(s, Commit(s, a, Move(s, a, c)), CleanMove(At(s, a), c))
  {
    MoveLegal(s, a, c);
    MoveFine(s, a, c);
    MoveFound(s, a, c);
    CommitStep(s, a, Move(s, a, c), CleanMove(At(s, a), c));
  }

  lemma StartStep(s: State, e: Event)
    requires DeliveryOK(s) && Enabled(s, e)
    requires e.Submit? || e.OpenBatch? || e.Cancel? || e.Dequeue? || e.Sweep?
    ensures StepOK(s, Commit(s, e.actor, Start(s, e)), Clean(s, e))
  {
    StartLegal(s, e);
    StartFine(s, e);
    if e.Sweep? { SweepFound(s, e); }
    CommitStep(s, e.actor, Start(s, e), Clean(s, e));
  }

  lemma DeliveryStep(s: State, e: Event)
    requires DeliveryOK(s) && Enabled(s, e)
    ensures StepOK(s, Apply(s, e), Clean(s, e))
  {
    match e
    case Tick(_) => QuietStep(s, Apply(s, e));
    case Expire(_) => QuietStep(s, Apply(s, e));
    case Crash(a) => CrashStep(s, a);
    case Act(a, c) => ActStep(s, a, c);
    case _ => StartStep(s, e);
  }
}
