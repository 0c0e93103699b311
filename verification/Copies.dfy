/** Where the copies of a job are. The invariant ties every list slot, every member of the
    sorted set and every goroutine's hand to the one recorded place of the notification. */
module Copies {
  import opened Model
  import opened Machine

  /** What a goroutine is about to do with the copy it holds, and that copy's scheduled_at. */
  datatype Grip = Grip(task: Task, at: Option<int>)

  predicate InJobs(jobs: seq<Job>, i: Id) {
    exists k :: 0 <= k < |jobs| && jobs[k].id == i
  }

  predicate DistinctIds(jobs: seq<Job>) {
    forall k, l :: 0 <= k < l < |jobs| ==> jobs[k].id != jobs[l].id
  }

  ghost predicate InSched(sched: map<Job, int>, i: Id) {
    exists job :: job in sched && job.id == i
  }

  function GripOf(x: Actor, i: Id): Option<Grip> {
    match x
    case Worker(job, task) => if job.id == i then Some(Grip(task, job.at)) else None
    case Creator(_, Publishing(d)) => if d.job.id == i then Some(Grip(Publish(d.timed), d.job.at)) else None
    case Creator(_, Storing(_, _, Some(d), _)) =>
      if d.job.id == i then Some(Grip(Publish(d.timed), d.job.at)) else None
    case Sweeper(_, due, step) =>
      if due != [] && due[0].id == i then Some(Grip(step, None))
      else if InJobs(due, i) then Some(Grip(Check, None))
      else None
    case _ => None
  }

  ghost predicate Contains(s: State, p: Place, i: Id) {
    match p
    case Nowhere => false
    case Listed(q) => InJobs(Seq(s.lists, q), i)
    case Timed => InSched(s.sched, i)
    case Held(a) => GripOf(At(s, a), i).Some?
  }

  /** A place holds a copy of `i` exactly when it is the recorded place of `i`. */
  ghost predicate Agrees(s: State) {
    forall p, i :: p != Nowhere ==> (Contains(s, p, i) <==> (i in s.place && s.place[i] == p))
  }

  ghost predicate ListsOK(lists: map<Queue, seq<Job>>) {
    && (forall q :: q in lists ==> DistinctIds(lists[q]))
    && (forall q, k :: q in lists && 0 <= k < |lists[q]| ==> lists[q][k].queue == q)
  }

  ghost predicate SchedOK(sched: map<Job, int>) {
    forall j, k :: j in sched && k in sched && j.id == k.id ==> j == k
  }

  /** A task of schedulers. */
  predicate SweepTask(task: Task) {
    task.Check? || task.Unschedule? || task.Requeue?
  }

  /** A scheduler has work left, and claims jobs before it looks at the first of them. */
  ghost predicate Tidy(x: Actor) {
    && (x.Sweeper? ==>
          && (x.found != [] || x.due != [])
          && DistinctIds(x.due) && SweepTask(x.step) && (x.found != [] ==> x.step == Check))
    && (x.Worker? ==> !SweepTask(x.task) && !x.task.Publish?)
  }

  ghost predicate HandsOK(actors: map<ActorId, Actor>) {
    forall a :: a in actors ==> Tidy(actors[a])
  }

  ghost predicate CopiesOK(s: State) {
    && s.rows.Keys == s.place.Keys
    && Agrees(s) && ListsOK(s.lists) && SchedOK(s.sched) && HandsOK(s.actors)
  }

  // ---- what a legal effect does to the copies ----

  ghost predicate OtherGrips(x: Actor, y: Actor, i: Id) {
    forall j :: j != i ==> GripOf(y, j) == GripOf(x, j)
  }

  /** Only a creator inserts, answers and fills the cache; anybody else can at most start a call. */
  ghost predicate CreatorsOnly(x: Actor, fx: Effect) {
    !x.Creator? ==>
      && !fx.sql.InsertRow? && !fx.redis.SetKey? && fx.answer.None?
      && (fx.next.Creator? ==> fx.next.call.Inserting? || (fx.next.call.Looking? && fx.next.call.req.key.Some?))
  }

  ghost predicate Legal(s: State, a: ActorId, fx: Effect) {
    var x := At(s, a);
    var i := fx.id;
    var held := GripOf(x, i).Some?;
    && OtherGrips(x, fx.next, i) && Tidy(fx.next) && CreatorsOnly(x, fx)
    && (fx.sql.InsertRow? ==> i !in s.rows)
    && (fx.sql.SetRow? ==> i in s.rows)
    && match fx.place
       case None =>
         && (fx.redis.NoRedis? || fx.redis.SetKey?) && !fx.sql.InsertRow?
         && (GripOf(fx.next, i).Some? <==> held)
       case Some(p) =>
         && (GripOf(fx.next, i).Some? <==> p == Held(a))
         && match p
            case Listed(q) =>
              && held && !fx.sql.InsertRow?
              && fx.redis.LPush? && fx.redis.job.id == i && fx.redis.job.queue == q
            case Timed => held && !fx.sql.InsertRow? && fx.redis.ZAdd? && fx.redis.job.id == i
            case _ =>
              && (p == Nowhere || p == Held(a))
              && match fx.redis
                 case RPop(q) => !fx.sql.InsertRow? && Seq(s.lists, q) != [] && Seq(s.lists, q)[0].id == i
                 case ZRem(job) => !fx.sql.InsertRow? && job in s.sched && job.id == i
                 case LPush(_) => false
                 case ZAdd(_, _) => false
                 case _ => fx.sql.InsertRow? || (held && p == Nowhere)
  }

  /** The copy of `i` moves from `was` to `p`; no other place gains or loses anything. */
  lemma MoveKeeps(s: State, t: State, i: Id, was: Place, p: Place)
    requires Agrees(s) && t.place == s.place[i := p]
    requires was == if i in s.place then s.place[i] else Nowhere
    requires forall o, j :: o != Nowhere && !(j == i && (o == was || o == p)) ==>
      (Contains(t, o, j) <==> Contains(s, o, j))
    requires was != Nowhere && was != p ==> !Contains(t, was, i)
    requires p != Nowhere ==> Contains(t, p, i)
    ensures Agrees(t)
  {
  }

  lemma HandsKept(s: State, a: ActorId, fx: Effect)
    requires OtherGrips(At(s, a), fx.next, fx.id)
    ensures forall b, j :: !(b == a && j == fx.id) ==>
      (Contains(Commit(s, a, fx), Held(b), j) <==> Contains(s, Held(b), j))
    ensures Contains(Commit(s, a, fx), Held(a), fx.id) <==> GripOf(fx.next, fx.id).Some?
  {
    var t := Commit(s, a, fx);
    assert forall b :: At(t, b) == if b == a then fx.next else At(s, b);
  }

  lemma InAppend(jobs: seq<Job>, job: Job, i: Id)
    ensures InJobs(jobs + [job], i) <==> InJobs(jobs, i) || job.id == i
  {
    var all := jobs + [job];
    assert all[|jobs|] == job;
    assert forall k :: 0 <= k < |jobs| ==> all[k] == jobs[k];
  }

  lemma InTail(jobs: seq<Job>, i: Id)
    requires jobs != [] && DistinctIds(jobs)
    ensures InJobs(jobs[1..], i) <==> InJobs(jobs, i) && jobs[0].id != i
  {
    if k :| 0 <= k < |jobs| && jobs[k].id == i {
      if k > 0 { assert jobs[1..][k - 1].id == i; }
    }
  }

  lemma ListsAppend(lists: map<Queue, seq<Job>>, job: Job)
    requires ListsOK(lists) && !InJobs(Seq(lists, job.queue), job.id)
    ensures ListsOK(lists[job.queue := Seq(lists, job.queue) + [job]])
  {
    var jobs := Seq(lists, job.queue);
    assert forall k :: 0 <= k < |jobs| ==> jobs[k].id != job.id;
  }

  lemma ListsTail(lists: map<Queue, seq<Job>>, q: Queue)
    requires ListsOK(lists) && Seq(lists, q) != []
    ensures ListsOK(lists[q := Seq(lists, q)[1..]])
  {
  }

  lemma PushKeeps(s: State, a: ActorId, fx: Effect)
    requires CopiesOK(s) && Legal(s, a, fx) && fx.redis.LPush?
    ensures CopiesOK(Commit(s, a, fx))
  {
    var t := Commit(s, a, fx);
    var job := fx.redis.job;
    HandsKept(s, a, fx);
    assert Contains(s, Held(a), job.id);
    assert !Contains(s, Listed(job.queue), job.id);
    ListsAppend(s.lists, job);
    forall j ensures Contains(t, Listed(job.queue), j) <==> Contains(s, Listed(job.queue), j) || j == job.id {
      InAppend(Seq(s.lists, job.queue), job, j);
    }
    assert forall q :: q != job.queue ==> Seq(t.lists, q) == Seq(s.lists, q);
    MoveKeeps(s, t, job.id, Held(a), Listed(job.queue));
  }

  lemma ZAddKeeps(s: State, a: ActorId, fx: Effect)
    requires CopiesOK(s) && Legal(s, a, fx) && fx.redis.ZAdd?
    ensures CopiesOK(Commit(s, a, fx))
  {
    var t := Commit(s, a, fx);
    var job := fx.redis.job;
    HandsKept(s, a, fx);
    assert Contains(s, Held(a), job.id);
    assert !Contains(s, Timed, job.id);
    assert job in t.sched;
    forall j ensures Contains(t, Timed, j) <==> Contains(s, Timed, j) || j == job.id {
      assert forall k :: k in s.sched ==> k in t.sched;
    }
    MoveKeeps(s, t, job.id, Held(a), Timed);
  }

  lemma PopKeeps(s: State, a: ActorId, fx: Effect)
    requires CopiesOK(s) && Legal(s, a, fx) && fx.redis.RPop?
    ensures CopiesOK(Commit(s, a, fx))
  {
    var t := Commit(s, a, fx);
    var q := fx.redis.queue;
    var jobs := Seq(s.lists, q);
    HandsKept(s, a, fx);
    ListsTail(s.lists, q);
    assert InJobs(jobs, fx.id);
    assert Contains(s, Listed(q), fx.id);
    forall j ensures Contains(t, Listed(q), j) <==> Contains(s, Listed(q), j) && j != fx.id {
      InTail(jobs, j);
    }
    assert forall p :: p != q ==> Seq(t.lists, p) == Seq(s.lists, p);
    MoveKeeps(s, t, fx.id, Listed(q), fx.place.value);
  }

  lemma ZRemKeeps(s: State, a: ActorId, fx: Effect)
    requires CopiesOK(s) && Legal(s, a, fx) && fx.redis.ZRem?
    ensures CopiesOK(Commit(s, a, fx))
  {
    var t := Commit(s, a, fx);
    var job := fx.redis.job;
    HandsKept(s, a, fx);
    assert InSched(s.sched, job.id);
    assert Contains(s, Timed, job.id);
    forall j ensures Contains(t, Timed, j) <==> Contains(s, Timed, j) && j != job.id {
      if Contains(s, Timed, j) && j != job.id {
        var k :| k in s.sched && k.id == j;
        assert k in t.sched;
      }
    }
    MoveKeeps(s, t, fx.id, Timed, fx.place.value);
  }

  /** No list or sorted-set command: a copy is made, dropped, or nothing moves. */
  lemma QuietKeeps(s: State, a: ActorId, fx: Effect)
    requires CopiesOK(s) && Legal(s, a, fx) && (fx.redis.NoRedis? || fx.redis.SetKey?)
    ensures CopiesOK(Commit(s, a, fx))
  {
    var t := Commit(s, a, fx);
    HandsKept(s, a, fx);
    assert Contains(s, Held(a), fx.id) <==> GripOf(At(s, a), fx.id).Some?;
    assert forall p, j :: p == Timed || p.Listed? ==> (Contains(t, p, j) <==> Contains(s, p, j));
    if fx.place.Some? {
      MoveKeeps(s, t, fx.id, if fx.sql.InsertRow? then Nowhere else Held(a), fx.place.value);
    } else {
      assert forall p, j :: p != Nowhere ==> (Contains(t, p, j) <==> Contains(s, p, j));
    }
  }

  lemma LegalKeeps(s: State, a: ActorId, fx: Effect)
    requires CopiesOK(s) && Legal(s, a, fx)
    ensures CopiesOK(Commit(s, a, fx))
  {
    match fx.redis
    case LPush(_) => PushKeeps(s, a, fx);
    case ZAdd(_, _) => ZAddKeeps(s, a, fx);
    case RPop(_) => PopKeeps(s, a, fx);
    case ZRem(_) => ZRemKeeps(s, a, fx);
    case _ => QuietKeeps(s, a, fx);
  }

  lemma CrashKeeps(s: State, a: ActorId)
    requires CopiesOK(s)
    ensures CopiesOK(s.(actors := s.actors[a := Idle], place := Forget(s.place, a)))
  {
    var t := s.(actors := s.actors[a := Idle], place := Forget(s.place, a));
    forall p, i | p != Nowhere
      ensures Contains(t, p, i) <==> (i in t.place && t.place[i] == p)
    {
      if p != Held(a) { assert Contains(t, p, i) <==> Contains(s, p, i); }
    }
  }

  // ---- every move is legal ----

  lemma WorkerLegal(s: State, a: ActorId, job: Job, task: Task, c: Choice)
    requires At(s, a) == Worker(job, task) && Tidy(At(s, a))
    ensures Legal(s, a, MoveWorker(s, job, task, c))
  {
  }

  lemma ProbingLegal(s: State, a: ActorId, x: Actor, fault: Fault)
    requires x.Probing? && At(s, a) == x
    ensures Legal(s, a, MoveProbing(s, a, x, fault))
  {
  }

  lemma CreatorLegal(s: State, a: ActorId, run: Option<BatchRun>, call: Call, c: Choice)
    requires At(s, a) == Creator(run, call)
    requires call.Inserting? ==> c.newId !in s.rows
    ensures Legal(s, a, MoveCreator(s, a, run, call, c))
  {
  }

  lemma ClaimingLegal(s: State, a: ActorId, x: Actor, fault: Fault)
    requires CopiesOK(s) && x.Sweeper? && x.found != [] && At(s, a) == x
    ensures Legal(s, a, MoveClaiming(s, a, x, fault))
  {
    var fx := MoveClaiming(s, a, x, fault);
    var job := x.found[0];
    if fx.redis.ZRem? {
      assert InSched(s.sched, job.id) && Contains(s, Timed, job.id);
      assert !Contains(s, Held(a), job.id);
      NotDue(x, job.id);
      forall j ensures InJobs(x.due + [job], j) <==> InJobs(x.due, j) || j == job.id {
        InAppend(x.due, job, j);
      }
    }
  }

  /** A goroutine without a grip on `i` has no claimed job `i`. */
  lemma NotDue(x: Actor, i: Id)
    requires x.Sweeper? && GripOf(x, i).None?
    ensures !InJobs(x.due, i) && forall k :: 0 <= k < |x.due| ==> x.due[k].id != i
  {
  }

  lemma RestGrips(x: Actor)
    requires x.Sweeper? && x.found == [] && x.due != [] && DistinctIds(x.due)
    ensures Tidy(Sweeping([], x.due[1..]))
    ensures OtherGrips(x, Sweeping([], x.due[1..]), x.due[0].id)
    ensures GripOf(Sweeping([], x.due[1..]), x.due[0].id).None?
  {
    forall j ensures InJobs(x.due[1..], j) <==> InJobs(x.due, j) && x.due[0].id != j {
      InTail(x.due, j);
    }
  }

  lemma DueLegal(s: State, a: ActorId, x: Actor, fault: Fault)
    requires x.Sweeper? && x.found == [] && x.due != [] && Tidy(x) && At(s, a) == x
    ensures Legal(s, a, MoveDue(s, x, fault))
  {
    RestGrips(x);
  }

  lemma StartLegal(s: State, e: Event)
    requires e.Submit? || e.OpenBatch? || e.Cancel? || e.Dequeue? || e.Sweep?
    requires Enabled(s, e)
    ensures Legal(s, e.actor, Start(s, e))
  {
  }

  lemma MoveLegal(s: State, a: ActorId, c: Choice)
    requires CopiesOK(s) && Enabled(s, Act(a, c))
    ensures Legal(s, a, Move(s, a, c))
  {
    var x := At(s, a);
    assert Tidy(x);
    match x
    case Creator(run, call) => CreatorLegal(s, a, run, call, c);
    case Probing(_, _) => ProbingLegal(s, a, x, c.fault);
    case Worker(job, task) => WorkerLegal(s, a, job, task, c);
    case Sweeper(_, _, _) => if x.found != [] { ClaimingLegal(s, a, x, c.fault); } else { DueLegal(s, a, x, c.fault); }
    case _ =>
  }

  lemma SamePlaces(s: State, t: State)
    requires CopiesOK(s)
    requires t == s.(now := t.now, cache := t.cache)
    ensures CopiesOK(t)
  {
    assert forall p, i :: Contains(t, p, i) <==> Contains(s, p, i);
  }

  // ---- the theorem ----

  /** A slot that can hold a job copy: a position of a list, a member of the sorted set, or a
      position in a goroutine's hand. */
  datatype Slot = ListSlot(queue: Queue, index: nat) | SetSlot(job: Job) | HandSlot(actor: ActorId, index: nat)

  /** The live copies a goroutine holds. */
  function Hand(x: Actor): seq<Job> {
    match x
    case Worker(job, _) => [job]
    case Creator(_, Publishing(d)) => [d.job]
    case Creator(_, Storing(_, _, Some(d), _)) => [d.job]
    case Sweeper(_, due, _) => due
    case _ => []
  }

  function InSlot(s: State, slot: Slot): Option<Job> {
    match slot
    case ListSlot(q, k) => if k < |Seq(s.lists, q)| then Some(Seq(s.lists, q)[k]) else None
    case SetSlot(job) => if job in s.sched then Some(job) else None
    case HandSlot(a, k) => if k < |Hand(At(s, a))| then Some(Hand(At(s, a))[k]) else None
  }

  function PlaceOf(slot: Slot): Place {
    match slot
    case ListSlot(q, _) => Listed(q)
    case SetSlot(_) => Timed
    case HandSlot(a, _) => Held(a)
  }

  ghost predicate CopyIn(s: State, slot: Slot, i: Id) {
    InSlot(s, slot).Some? && InSlot(s, slot).value.id == i
  }

  lemma SlotPlace(s: State, slot: Slot, i: Id)
    requires CopiesOK(s) && CopyIn(s, slot, i)
    ensures i in s.place && s.place[i] == PlaceOf(slot)
  {
    assert Contains(s, PlaceOf(slot), i);
  }

  /** At most one live copy of a notification exists, wherever it may be. */
  lemma OneCopy(s: State, slot: Slot, other: Slot, i: Id)
    requires CopiesOK(s) && CopyIn(s, slot, i) && CopyIn(s, other, i)
    ensures slot == other
  {
    SlotPlace(s, slot, i);
    SlotPlace(s, other, i);
    if slot.HandSlot? {
      assert Tidy(At(s, slot.actor));
    }
  }

  /** A notification has a copy somewhere exactly when its recorded place is somewhere. */
  lemma HasCopy(s: State, i: Id)
    requires CopiesOK(s)
    ensures (exists slot :: CopyIn(s, slot, i)) <==> (i in s.place && s.place[i] != Nowhere)
  {
    if slot :| CopyIn(s, slot, i) { SlotPlace(s, slot, i); }
    if i in s.place && s.place[i] != Nowhere {
      var p := s.place[i];
      assert Contains(s, p, i);
      match p
      case Listed(q) =>
        var k :| 0 <= k < |Seq(s.lists, q)| && Seq(s.lists, q)[k].id == i;
        assert CopyIn(s, ListSlot(q, k), i);
      case Timed =>
        var job :| job in s.sched && job.id == i;
        assert CopyIn(s, SetSlot(job), i);
      case Held(a) =>
        var x := At(s, a);
        if x.Sweeper? {
          var k :| 0 <= k < |x.due| && x.due[k].id == i;
          assert CopyIn(s, HandSlot(a, k), i);
        } else {
          assert CopyIn(s, HandSlot(a, 0), i);
        }
    }
  }
}
