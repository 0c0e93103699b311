/** The stored batch counters against a recount of the rows, while creation, delivery,
    cancellation and recounts interleave. */
module Batches {
  import opened Model
  import opened Machine
  import opened Copies
  import opened Delivery
  import opened Guarantees

  function RunOf(x: Actor): Option<BatchRun> {
    match x
    case Creator(run, _) => run
    case Between(r) => Some(r)
    case _ => None
  }

  /** Rows the goroutine may still insert for its batch. */
  function Claims(x: Actor): nat
    requires RunOf(x).Some?
  {
    |RunOf(x).value.left| + One(x.Creator? && (x.call.Looking? || x.call.Fetching? || x.call.Inserting?))
  }

  /** Requests of the batch that are counted, under way or to come. */
  function Requests(x: Actor): nat
    requires RunOf(x).Some?
  {
    var r := RunOf(x).value;
    r.created + r.failed + |r.left| + One(x.Creator?)
  }

  /** Rows the goroutine has inserted, counting the one its call is publishing. */
  function Inserted(x: Actor): nat
    requires RunOf(x).Some?
  {
    RunOf(x).value.created + One(x.Creator? && (x.call.Publishing? || (x.call.Storing? && x.call.mine.Some?)))
  }

  ghost predicate OwnerOK(s: State, x: Actor) {
    RunOf(x).Some? ==>
      var r := RunOf(x).value;
      && r.batch in s.batches && s.batches[r.batch].total == r.total == Requests(x)
      && |Members(s, r.batch)| + Claims(x) <= r.total
  }

  ghost predicate Owns(x: Actor, b: BatchId) {
    RunOf(x).Some? && RunOf(x).value.batch == b
  }

  ghost predicate OwnersOK(s: State) {
    && (forall a :: OwnerOK(s, At(s, a)))
    && (forall a, c, b :: Owns(At(s, a), b) && Owns(At(s, c), b) ==> a == c)
  }

  ghost predicate CountOK(s: State, b: BatchId)
    requires b in s.batches
  {
    |Members(s, b)| <= s.batches[b].total && s.batches[b].delivered <= |MembersIn(s, b, {Delivered})|
  }

  ghost predicate CountsOK(s: State) {
    && (forall i :: i in s.rows && s.rows[i].batch.Some? ==> s.rows[i].batch.value in s.batches)
    && (forall b :: b in s.batches ==> CountOK(s, b))
  }

  ghost predicate BatchesOK(s: State) {
    OwnersOK(s) && CountsOK(s)
  }

  // ---- what an effect does to batches ----

  /** The goroutine goes on with its batch, uses up a claim for every row it inserts, or is done. */
  ghost predicate RunFine(x: Actor, fx: Effect, clean: bool) {
    && (fx.sql.InsertRow? ==>
          x.Creator? && fx.sql.row.batch == (if x.run.Some? then Some(x.run.value.batch) else None)
          && fx.sql.row.status in LIVE)
    && (RunOf(x).Some? && RunOf(fx.next).None? ==> !fx.sql.InsertRow?)
    && (RunOf(x).None? && !fx.sql.SetBatch? ==> RunOf(fx.next).None?)
    && (RunOf(x).Some? && RunOf(fx.next).Some? ==>
          && RunOf(fx.next).value.batch == RunOf(x).value.batch && RunOf(fx.next).value.total == RunOf(x).value.total
          && Requests(fx.next) == Requests(x)
          && Claims(fx.next) + One(fx.sql.InsertRow?) <= Claims(x)
          && (clean ==> Inserted(x) + One(fx.sql.InsertRow?) <= Inserted(fx.next)))
  }

  /** A row keeps its batch, and 'delivered'; a new row is new. */
  ghost predicate RowFine(s: State, fx: Effect) {
    && (fx.sql.SetRow? ==>
          && fx.id in s.rows && fx.sql.row.batch == s.rows[fx.id].batch
          && (s.rows[fx.id].status == Delivered ==> fx.sql.row.status == Delivered))
    && (fx.sql.InsertRow? ==> fx.id !in s.rows)
  }

  /** The three statements that write counters. */
  ghost predicate CounterFine(s: State, x: Actor, fx: Effect) {
    fx.sql.SetBatch? ==>
      var b, n := fx.sql.batch, fx.sql.counters;
      match fx.sql.mark
      case Opened =>
        && x == Idle && b !in s.batches && n.total >= 0 && n.delivered == 0
        && (RunOf(fx.next).Some? ==>
              && fx.next.Between? && fx.next.batchRun.batch == b
              && |fx.next.batchRun.left| == n.total == fx.next.batchRun.total
              && fx.next.batchRun.created == fx.next.batchRun.failed == 0)
      case Overwritten(c) =>
        && x.Between? && x.batchRun.left == [] && x.batchRun.batch == b && b in s.batches && RunOf(fx.next).None?
        && c == x.batchRun.created && n == s.batches[b].(pending := c, failed := x.batchRun.failed)
      case Recounted =>
        && x.Recounting? && x.batch == b && b in s.batches && RunOf(fx.next).None?
        && n == Recount(s, b, s.batches[b].total)
  }

  ghost predicate BatchFine(s: State, a: ActorId, fx: Effect, clean: bool) {
    RunFine(At(s, a), fx, clean) && RowFine(s, fx) && CounterFine(s, At(s, a), fx)
  }

  /** The effect inserts a row of the batch. */
  predicate Joins(fx: Effect, b: BatchId) {
    fx.sql.InsertRow? && fx.sql.row.batch == Some(b)
  }

  lemma MemberAfter(s: State, a: ActorId, fx: Effect, b: BatchId, i: Id)
    requires RowFine(s, fx)
    ensures i in Members(Commit(s, a, fx), b) <==> i in Members(s, b) || (Joins(fx, b) && i == fx.id)
    ensures Joins(fx, b) ==> fx.id !in Members(s, b)
  {
  }

  lemma MembersAfter(s: State, a: ActorId, fx: Effect, b: BatchId)
    requires RowFine(s, fx)
    ensures Members(Commit(s, a, fx), b) == Members(s, b) + (if Joins(fx, b) then {fx.id} else {})
    ensures |Members(Commit(s, a, fx), b)| == |Members(s, b)| + One(Joins(fx, b))
  {
    MemberAfter(s, a, fx, b, fx.id);
    var was, now := Members(s, b), Members(Commit(s, a, fx), b);
    forall i ensures i in now <==> i in was || (Joins(fx, b) && i == fx.id) { MemberAfter(s, a, fx, b, i); }
    Grown(was, now, fx.id, Joins(fx, b));
  }

  lemma Grown(was: set<Id>, now: set<Id>, i: Id, joins: bool)
    requires joins ==> i !in was
    requires forall j :: j in now <==> j in was || (joins && j == i)
    ensures now == was + (if joins then {i} else {}) && |now| == |was| + One(joins)
  {
    assert now == was + (if joins then {i} else {});
  }

  lemma Subset(x: set<Id>, y: set<Id>)
    requires x <= y
    ensures |x| <= |y|
  {
    assert y == x + (y - x);
  }

  lemma DeliveredGrow(s: State, a: ActorId, fx: Effect, b: BatchId)
    requires RowFine(s, fx)
    ensures |MembersIn(s, b, {Delivered})| <= |MembersIn(Commit(s, a, fx), b, {Delivered})|
  {
    Subset(MembersIn(s, b, {Delivered}), MembersIn(Commit(s, a, fx), b, {Delivered}));
  }

  lemma OwnerLift(s: State, a: ActorId, fx: Effect, clean: bool, c: ActorId)
    requires BatchesOK(s) && BatchFine(s, a, fx, clean)
    ensures OwnerOK(Commit(s, a, fx), At(Commit(s, a, fx), c))
  {
    var t := Commit(s, a, fx);
    var x := At(t, c);
    if RunOf(x).Some? {
      var b := RunOf(x).value.batch;
      MembersAfter(s, a, fx, b);
      assert OwnerOK(s, At(s, c));
      if c == a {
        assert x == fx.next;
        if fx.sql.SetBatch? && fx.sql.mark == Opened { NewBatch(s, b); }
      } else {
        assert x == At(s, c);
        assert Owns(At(s, c), b);
        assert Owns(At(s, a), b) ==> a == c;
      }
    }
  }

  /** No row belongs to a batch that does not exist. */
  lemma NewBatch(s: State, b: BatchId)
    requires CountsOK(s) && b !in s.batches
    ensures Members(s, b) == {}
  {
  }

  /** Who owns a batch after the effect owned it before, or has just opened it. */
  lemma OwnedBefore(s: State, a: ActorId, fx: Effect, clean: bool, c: ActorId, b: BatchId)
    requires OwnersOK(s) && BatchFine(s, a, fx, clean) && Owns(At(Commit(s, a, fx), c), b)
    ensures Owns(At(s, c), b) || (c == a && b !in s.batches)
  {
    assert At(Commit(s, a, fx), c) == if c == a then fx.next else At(s, c);
  }

  lemma OneOwner(s: State, a: ActorId, fx: Effect, clean: bool, c: ActorId, d: ActorId, b: BatchId)
    requires OwnersOK(s) && BatchFine(s, a, fx, clean)
    requires Owns(At(Commit(s, a, fx), c), b) && Owns(At(Commit(s, a, fx), d), b)
    ensures c == d
  {
    OwnedBefore(s, a, fx, clean, c, b);
    OwnedBefore(s, a, fx, clean, d, b);
    assert OwnerOK(s, At(s, c)) && OwnerOK(s, At(s, d));
  }

  lemma OwnersLift(s: State, a: ActorId, fx: Effect, clean: bool)
    requires BatchesOK(s) && BatchFine(s, a, fx, clean)
    ensures OwnersOK(Commit(s, a, fx))
  {
    var t := Commit(s, a, fx);
    forall c ensures OwnerOK(t, At(t, c)) { OwnerLift(s, a, fx, clean, c); }
    forall c, d, b | Owns(At(t, c), b) && Owns(At(t, d), b) ensures c == d { OneOwner(s, a, fx, clean, c, d, b); }
  }

  lemma CountLift(s: State, a: ActorId, fx: Effect, clean: bool, b: BatchId)
    requires BatchesOK(s) && BatchFine(s, a, fx, clean) && b in Commit(s, a, fx).batches
    ensures CountOK(Commit(s, a, fx), b)
  {
    MembersAfter(s, a, fx, b);
    DeliveredGrow(s, a, fx, b);
    if b !in s.batches { NewBatch(s, b); }
    assert OwnerOK(s, At(s, a));
  }

  lemma CountsLift(s: State, a: ActorId, fx: Effect, clean: bool)
    requires BatchesOK(s) && BatchFine(s, a, fx, clean)
    ensures CountsOK(Commit(s, a, fx))
  {
    var t := Commit(s, a, fx);
    assert OwnerOK(s, At(s, a));
    forall b | b in t.batches ensures CountOK(t, b) { CountLift(s, a, fx, clean, b); }
  }

  // ---- every move is in order ----

  lemma InsertingRun(s: State, a: ActorId, run: Option<BatchRun>, req: Request, c: Choice)
    ensures RunFine(Creator(run, Inserting(req)), MoveInserting(s, a, run, req, c), c.fault == Fine)
    ensures !MoveInserting(s, a, run, req, c).sql.SetBatch?
  {
  }

  lemma CreatorRun(s: State, a: ActorId, run: Option<BatchRun>, call: Call, c: Choice)
    requires !call.Inserting?
    ensures RunFine(Creator(run, call), MoveCreator(s, a, run, call, c), c.fault == Fine)
    ensures !MoveCreator(s, a, run, call, c).sql.SetBatch?
  {
  }

  lemma BetweenFine(s: State, a: ActorId, r: BatchRun, c: Choice)
    requires At(s, a) == Between(r)
    ensures RunFine(Between(r), MoveBetween(s, r, c), c.fault == Fine)
    ensures CounterFine(s, Between(r), MoveBetween(s, r, c))
  {
  }

  /** Workers, schedulers and recounts have no batch under way. */
  lemma OtherFine(s: State, a: ActorId, c: Choice)
    requires Busy(At(s, a)) && (At(s, a).Probing? || At(s, a).FindBatch? || At(s, a).Recounting?)
    ensures RunFine(At(s, a), Move(s, a, c), c.fault == Fine) && CounterFine(s, At(s, a), Move(s, a, c))
  {
  }

  lemma WorkerRun(s: State, job: Job, task: Task, c: Choice)
    ensures RunFine(Worker(job, task), MoveWorker(s, job, task, c), c.fault == Fine)
    ensures !MoveWorker(s, job, task, c).sql.SetBatch?
  {
  }

  lemma SweeperRun(s: State, a: ActorId, x: Actor, c: Choice)
    requires x.Sweeper? && Busy(x)
    ensures RunFine(x, MoveSweeper(s, a, x, c), c.fault == Fine)
    ensures !MoveSweeper(s, a, x, c).sql.SetBatch?
  {
  }

  lemma RowKept(s: State, a: ActorId, fx: Effect, clean: bool)
    requires Legal(s, a, fx) && CellFine(s, a, fx, clean)
    ensures RowFine(s, fx)
  {
  }

  lemma MoveRun(s: State, a: ActorId, c: Choice)
    requires Enabled(s, Act(a, c))
    ensures RunFine(At(s, a), Move(s, a, c), CleanMove(At(s, a), c))
    ensures CounterFine(s, At(s, a), Move(s, a, c))
  {
    var x := At(s, a);
    match x
    case Creator(run, call) =>
      if call.Inserting? { InsertingRun(s, a, run, call.req, c); } else { CreatorRun(s, a, run, call, c); }
    case Between(r) => BetweenFine(s, a, r, c);
    case Worker(job, task) => WorkerRun(s, job, task, c);
    case Sweeper(_, _, _) => SweeperRun(s, a, x, c);
    case _ => OtherFine(s, a, c);
  }

  lemma MoveBatch(s: State, a: ActorId, c: Choice)
    requires DeliveryOK(s) && Enabled(s, Act(a, c))
    ensures BatchFine(s, a, Move(s, a, c), CleanMove(At(s, a), c))
  {
    MoveRun(s, a, c);
    MoveLegal(s, a, c);
    MoveFine(s, a, c);
    RowKept(s, a, Move(s, a, c), CleanMove(At(s, a), c));
  }

  lemma StartBatch(s: State, e: Event)
    requires CellsOK(s) && Enabled(s, e)
    requires e.Submit? || e.OpenBatch? || e.Cancel? || e.Dequeue? || e.Sweep?
    ensures BatchFine(s, e.actor, Start(s, e), Clean(s, e))
  {
    StartLegal(s, e);
    StartFine(s, e);
    RowKept(s, e.actor, Start(s, e), Clean(s, e));
  }

  lemma BatchesLift(s: State, a: ActorId, fx: Effect, clean: bool)
    requires BatchesOK(s) && BatchFine(s, a, fx, clean)
    ensures BatchesOK(Commit(s, a, fx))
  {
    OwnersLift(s, a, fx, clean);
    CountsLift(s, a, fx, clean);
  }

  /** Rows and batches stay; the goroutines that change go idle. */
  lemma IdleKeeps(s: State, t: State)
    requires BatchesOK(s) && t.rows == s.rows && t.batches == s.batches
    requires forall a :: At(t, a) == At(s, a) || At(t, a) == Idle
    ensures BatchesOK(t)
  {
    assert forall b :: Members(t, b) == Members(s, b);
    assert forall b :: MembersIn(t, b, {Delivered}) == MembersIn(s, b, {Delivered});
  }

  lemma BatchesStep(s: State, e: Event)
    requires DeliveryOK(s) && BatchesOK(s) && Enabled(s, e)
    ensures BatchesOK(Apply(s, e))
  {
    match e
    case Act(a, c) => MoveBatch(s, a, c); BatchesLift(s, a, Move(s, a, c), CleanMove(At(s, a), c));
    case Tick(_) => IdleKeeps(s, Apply(s, e));
    case Expire(_) => IdleKeeps(s, Apply(s, e));
    case Crash(_) => IdleKeeps(s, Apply(s, e));
    case _ => StartBatch(s, e); BatchesLift(s, e.actor, Start(s, e), Clean(s, e));
  }

  lemma {:induction false} RunBatches(s: State, trace: seq<Event>)
    requires DeliveryOK(s) && BatchesOK(s) && Runs(s, trace)
    ensures BatchesOK(After(s, trace))
    decreases |trace|
  {
    if trace != [] {
      DeliveryStep(s, trace[0]);
      BatchesStep(s, trace[0]);
      RunBatches(Apply(s, trace[0]), trace[1..]);
    }
  }

  lemma ReachableBatches(s: State)
    requires Reachable(s)
    ensures BatchesOK(s)
  {
    var now :| Reaches(Empty(now), s);
    var trace :| Runs(Empty(now), trace) && After(Empty(now), trace) == s;
    RunBatches(Empty(now), trace);
  }

  // ---- conservation ----

  lemma SplitMembers(s: State, b: BatchId, x: set<Status>, y: set<Status>)
    requires x !! y
    ensures |MembersIn(s, b, x + y)| == |MembersIn(s, b, x)| + |MembersIn(s, b, y)|
  {
    assert MembersIn(s, b, x + y) == MembersIn(s, b, x) + MembersIn(s, b, y);
  }

  lemma Partition(s: State, b: BatchId)
    ensures |Members(s, b)| == |MembersIn(s, b, LIVE)| + |MembersIn(s, b, {Delivered})|
                             + |MembersIn(s, b, {Failed})| + |MembersIn(s, b, {Cancelled})|
  {
    SplitMembers(s, b, LIVE, {Delivered});
    SplitMembers(s, b, LIVE + {Delivered}, {Failed});
    SplitMembers(s, b, LIVE + {Delivered} + {Failed}, {Cancelled});
    AllStatuses(s, b);
  }

  lemma AllStatuses(s: State, b: BatchId)
    ensures Members(s, b) == MembersIn(s, b, LIVE + {Delivered} + {Failed} + {Cancelled})
  {
    forall st: Status ensures st in LIVE + {Delivered} + {Failed} + {Cancelled} {
      assert Terminal(st) || st in LIVE;
    }
  }

  lemma LiteralSets(s: State, b: BatchId)
    ensures MembersIn(s, b, {Delivered})
      == set i | i in s.rows && s.rows[i].batch == Some(b) && s.rows[i].status == Delivered
    ensures MembersIn(s, b, LIVE)
      == set i | i in s.rows && s.rows[i].batch == Some(b)
           && s.rows[i].status != Delivered && s.rows[i].status != Failed && s.rows[i].status != Cancelled
  {
  }

  /** A batch never has more rows than requests, so the clamp of the recount never acts, and what
      a recount writes accounts for every request of the batch. */
  lemma RecountConserves(s: State, b: BatchId)
    requires Reachable(s) && b in s.batches
    ensures |Members(s, b)| <= s.batches[b].total
    ensures var r := Recount(s, b, s.batches[b].total);
      && r.failed == s.batches[b].total - |Members(s, b)| + |MembersIn(s, b, {Failed})|
      && r.delivered + r.failed + r.pending + |MembersIn(s, b, {Cancelled})| == s.batches[b].total
      && r.delivered == |set i | i in s.rows && s.rows[i].batch == Some(b) && s.rows[i].status == Delivered|
      && r.pending == |set i | i in s.rows && s.rows[i].batch == Some(b)
                        && s.rows[i].status != Delivered && s.rows[i].status != Failed && s.rows[i].status != Cancelled|
  {
    ReachableOK(s);
    ReachableBatches(s);
    Partition(s, b);
    LiteralSets(s, b);
  }

  /** Whatever goes wrong, the stored `delivered` is never more than the delivered rows. */
  lemma DeliveredNeverOverstated(s: State, b: BatchId)
    requires Reachable(s) && b in s.batches
    ensures s.batches[b].delivered <= |MembersIn(s, b, {Delivered})|
  {
    ReachableBatches(s);
  }
}
