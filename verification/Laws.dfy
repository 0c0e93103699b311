/** What single commands do, in the terms of the two stores: faults, the lists of statuses in the SQL,
    where a new notification goes, and what the histories count. */
module Laws {
  import opened Model
  import opened Machine
  import opened Copies
  import opened Delivery
  import opened Guarantees

  // ---- faults ----

  /** Two effects send the same commands to the stores. */
  predicate SameCommands(fx: Effect, other: Effect) {
    fx.sql == other.sql && fx.redis == other.redis && (fx.sql.SetRow? || fx.sql.InsertRow? ==> fx.id == other.id)
  }

  lemma CreatorFaults(s: State, a: ActorId, run: Option<BatchRun>, call: Call, c: Choice)
    ensures var fx := MoveCreator(s, a, run, call, c.(fault := Lost)); fx.sql == NoSql && fx.redis == NoRedis
    ensures SameCommands(MoveCreator(s, a, run, call, c.(fault := Late)),
                         MoveCreator(s, a, run, call, c.(fault := Fine)))
  {
  }

  lemma WorkerFaults(s: State, job: Job, task: Task, c: Choice)
    ensures var fx := MoveWorker(s, job, task, c.(fault := Lost)); fx.sql == NoSql && fx.redis == NoRedis
    ensures SameCommands(MoveWorker(s, job, task, c.(fault := Late)), MoveWorker(s, job, task, c.(fault := Fine)))
  {
  }

  lemma SweeperFaults(s: State, a: ActorId, x: Actor, c: Choice)
    requires x.Sweeper? && Busy(x)
    ensures var fx := MoveSweeper(s, a, x, c.(fault := Lost)); fx.sql == NoSql && fx.redis == NoRedis
    ensures SameCommands(MoveSweeper(s, a, x, c.(fault := Late)), MoveSweeper(s, a, x, c.(fault := Fine)))
  {
  }

  lemma OtherFaults(s: State, a: ActorId, c: Choice)
    requires Busy(At(s, a)) && !At(s, a).Creator? && !At(s, a).Worker? && !At(s, a).Sweeper?
    ensures var fx := Move(s, a, c.(fault := Lost)); fx.sql == NoSql && fx.redis == NoRedis
    ensures SameCommands(Move(s, a, c.(fault := Late)), Move(s, a, c.(fault := Fine)))
  {
  }

  /** A call that fails without effect changes neither store; one whose error comes late changes them
      exactly as a successful one does. */
  lemma FaultsAreHonest(s: State, a: ActorId, c: Choice)
    requires Busy(At(s, a))
    ensures var fx := Move(s, a, c.(fault := Lost)); fx.sql == NoSql && fx.redis == NoRedis
    ensures SameCommands(Move(s, a, c.(fault := Late)), Move(s, a, c.(fault := Fine)))
  {
    var x := At(s, a);
    match x
    case Creator(run, call) => CreatorFaults(s, a, run, call, c);
    case Worker(job, task) => WorkerFaults(s, job, task, c);
    case Sweeper(_, _, _) => SweeperFaults(s, a, x, c);
    case _ => OtherFaults(s, a, c);
  }

  /** Anybody may crash and any entry may expire at any moment, and any command may meet any fault.
      A crash loses what the goroutine has in hand and nothing else. */
  lemma AnythingMayFail(s: State, a: ActorId, k: Key, c: Choice, fault: Fault)
    ensures Enabled(s, Crash(a)) && Enabled(s, Expire(k))
    ensures Enabled(s, Act(a, c)) <==> Enabled(s, Act(a, c.(fault := fault)))
    ensures var t := Apply(s, Crash(a));
      && At(t, a) == Idle && (forall b :: b != a ==> At(t, b) == At(s, b))
      && t.rows == s.rows && t.batches == s.batches && t.lists == s.lists && t.sched == s.sched && t.cache == s.cache
    ensures k !in Apply(s, Expire(k)).cache
  {
  }

  /** A scheduler finds exactly the members due by its clock reading, once each and by ascending score. */
  lemma SweepFinds(s: State, a: ActorId, asOf: int, found: seq<Job>, fault: Fault)
    requires Enabled(s, Sweep(a, asOf, found, fault))
    ensures forall job :: job in found <==> job in s.sched && s.sched[job] <= asOf / 1_000_000_000
    ensures forall k, l :: 0 <= k < l < |found| ==>
      found[k] != found[l] && found[k] in s.sched && found[l] in s.sched && s.sched[found[k]] <= s.sched[found[l]]
  {
    assert forall k :: 0 <= k < |found| ==> found[k] in found;
  }

  /** BRPOP serves the most urgent list of the channel that has a job. */
  lemma FirstFullIs(s: State, ch: Channel)
    ensures match FirstFull(s, ch)
      case None =>
        && Seq(s.lists, Queue(ch, High)) == [] && Seq(s.lists, Queue(ch, Normal)) == []
        && Seq(s.lists, Queue(ch, Low)) == []
      case Some(q) =>
        && q.channel == ch && Seq(s.lists, q) != []
        && (q.priority == Normal || q.priority == Low ==> Seq(s.lists, Queue(ch, High)) == [])
        && (q.priority == Low ==> Seq(s.lists, Queue(ch, Normal)) == [])
  {
  }

  // ---- the statuses named in the statements ----

  lemma StatusSets(st: Status)
    ensures Claimable(st) <==> st == Pending || st == Queued
    ensures Cancellable(st) <==> st == Pending || st == Queued || st == Scheduled
    ensures Terminal(st) <==> st == Cancelled || st == Delivered || st == Failed
    ensures st in LIVE <==> st != Delivered && st != Failed && st != Cancelled
  {
  }

  // ---- where a new notification goes ----

  /** The row is scheduled exactly if its instant is later than the clock reading, else queued; its
      creator is to publish it accordingly. */
  lemma InsertDecides(s: State, a: ActorId, c: Choice)
    requires Enabled(s, Act(a, c)) && At(s, a).Creator? && At(s, a).call.Inserting?
    requires c.newId in Apply(s, Act(a, c)).rows
    ensures var t, req, run := Apply(s, Act(a, c)), At(s, a).call.req, At(s, a).run;
      var later := req.at.Some? && req.at.value > c.asOf;
      && t.rows == s.rows[c.newId := Row(if later then Scheduled else Queued, 0, 3,
                                         if run.Some? then Some(run.value.batch) else None, req.key)]
      && (c.fault == Fine ==>
            GripOf(At(t, a), c.newId) == Some(Grip(Publish(later), req.at)))
  {
  }

  /** A notification to be published as timed joins the sorted set under its second, any other the end
      of its list. */
  lemma PublishDecides(s: State, a: ActorId, c: Choice)
    requires Enabled(s, Act(a, c)) && At(s, a).Creator? && At(s, a).call.Publishing? && c.fault != Lost
    requires At(s, a).call.draft.timed ==> At(s, a).call.draft.job.at.Some?
    ensures var t, d := Apply(s, Act(a, c)), At(s, a).call.draft;
      if d.timed
      then t.lists == s.lists && t.sched == s.sched[d.job := d.job.at.value / 1_000_000_000]
      else t.sched == s.sched && t.lists == s.lists[d.job.queue := Seq(s.lists, d.job.queue) + [d.job]]
  {
  }

  // ---- what the histories count ----

  /** A publication is counted exactly when a creator's job reaches a queue. */
  lemma PublicationsAreCounted(s: State, a: ActorId, run: Option<BatchRun>, call: Call, c: Choice)
    ensures var fx := MoveCreator(s, a, run, call, c);
      (fx.redis.LPush? || fx.redis.ZAdd?) <==>
      (call.Publishing? && fx.id == call.draft.job.id
       && fx.hist == Some(HistOf(s, fx.id).(published := HistOf(s, fx.id).published + 1)))
  {
  }

  /** A keyed call of CreateBatch that returns success has its answer recorded. */
  lemma SuccessIsAnswered(s: State, a: ActorId, r: BatchRun, call: Call, c: Choice)
    requires MoveCreator(s, a, Some(r), call, c).next == Between(r.(created := r.created + 1))
    ensures call.Fetching? && call.req.key.Some? ==>
      MoveCreator(s, a, Some(r), call, c).answer == Some(Answer(call.req.key.value, call.id))
    ensures call.Storing? ==> MoveCreator(s, a, Some(r), call, c).answer == Some(Answer(call.key, call.id))
    ensures call.Publishing? ==>
      var i := call.draft.job.id;
      RowOf(s, i).key.Some? ==> MoveCreator(s, a, Some(r), call, c).answer == Some(Answer(RowOf(s, i).key.value, i))
    ensures call.Fetching? || call.Storing? || call.Publishing?
  {
  }

  /** If the effect puts a cancelled notification back, it counts that. */
  ghost predicate CountsRevival(s: State, fx: Effect) {
    && (fx.sql.SetRow? && Has(s, fx.id, Cancelled) && fx.sql.row.status == Queued ==>
          fx.hist == Some(HistOf(s, fx.id).(revived := HistOf(s, fx.id).revived + 1)))
    && (fx.sql.InsertRow? ==> fx.id !in s.rows)
  }

  lemma DueRevivals(s: State, x: Actor, fault: Fault)
    requires x.Sweeper? && x.due != []
    ensures CountsRevival(s, MoveDue(s, x, fault))
  {
  }

  /** A worker does not put a cancelled notification back. */
  lemma WorkerRevivals(s: State, job: Job, task: Task, c: Choice)
    requires GripHeld(s, job.id, Grip(task, job.at))
    ensures CountsRevival(s, MoveWorker(s, job, task, c))
  {
  }

  lemma MoveRevivals(s: State, a: ActorId, c: Choice)
    requires CopiesOK(s) && CellsOK(s) && Enabled(s, Act(a, c))
    ensures CountsRevival(s, Move(s, a, c))
  {
    var x := At(s, a);
    MoveLegal(s, a, c);
    match x
    case Worker(job, task) => GripFound(s, a, job.id); WorkerRevivals(s, job, task, c);
    case Sweeper(_, _, _) => if x.found == [] { DueRevivals(s, x, c.fault); }
    case Creator(run, call) => CreatorInserts(s, a, run, call, c);
    case _ =>
  }

  lemma RevivalLifts(s: State, a: ActorId, fx: Effect, i: Id)
    requires CountsRevival(s, fx) && Has(s, i, Cancelled) && Has(Commit(s, a, fx), i, Queued)
    ensures HistOf(Commit(s, a, fx), i).revived == HistOf(s, i).revived + 1
  {
  }

  /** Every write that puts a cancelled notification back is counted. */
  lemma RevivalsAreCounted(s: State, e: Event, i: Id)
    requires Reachable(s) && Enabled(s, e) && Has(s, i, Cancelled) && Has(Apply(s, e), i, Queued)
    ensures HistOf(Apply(s, e), i).revived == HistOf(s, i).revived + 1
  {
    ReachableOK(s);
    match e
    case Act(a, c) => MoveRevivals(s, a, c); RevivalLifts(s, a, Move(s, a, c), i);
    case Tick(_) =>
    case Expire(_) =>
    case Crash(_) =>
    case _ => StartLegal(s, e);
  }
}
