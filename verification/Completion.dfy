/** Work can always be finished: from every reachable state, whatever has failed before, whatever
    the provider answers from now on and however the remaining requests of open batches are judged,
    the system can go on without failures to a state in which nobody is busy and nothing waits. */
module Completion {
  import opened Model
  import opened Machine
  import opened Copies
  import opened Delivery
  import opened Guarantees
  import opened Settlement
  import Backoff
  import Batches
  import Queues
  import Worlds

  /** What is not up to the system: whether a request of a batch passes validation, by the number of
      requests left, and what the provider answers to a notification's sends, by their number. */
  datatype Oracle = Oracle(valid: (BatchId, nat) -> bool, accepts: (Id, nat) -> bool)

  /** What a move of the goroutine is told. */
  function Told(s: State, x: Actor, o: Oracle): bool {
    match x
    case Between(r) => o.valid(r.batch, |r.left|)
    case Worker(job, Await(_, _)) => o.accepts(job.id, HistOf(s, job.id).sends)
    case _ => true
  }

  /** An event of a system left to itself: no new work and no cancellation, and every move is told
      what the oracle says. */
  predicate Heeds(s: State, e: Event, o: Oracle) {
    match e
    case Act(a, c) => c.good == Told(s, At(s, a), o)
    case Tick(_) => true
    case Dequeue(_, _) => true
    case Sweep(_, _, _, _) => true
    case _ => false
  }

  /** A run of such events in which nothing fails. */
  ghost predicate Goes(s: State, trace: seq<Event>, o: Oracle): (r: bool)
    ensures r ==> Runs(s, trace) && CleanRun(s, trace)
    decreases |trace|
  {
    trace == [] ||
    (Enabled(s, trace[0]) && Clean(s, trace[0]) && Heeds(s, trace[0], o) && Goes(Apply(s, trace[0]), trace[1..], o))
  }

  lemma Prepend(s: State, e: Event, rest: seq<Event>, o: Oracle)
    requires Enabled(s, e) && Clean(s, e) && Heeds(s, e, o) && Goes(Apply(s, e), rest, o)
    ensures Goes(s, [e] + rest, o) && After(s, [e] + rest) == After(Apply(s, e), rest)
  {
    assert ([e] + rest)[0] == e && ([e] + rest)[1..] == rest;
  }

  lemma {:induction false} Append(s: State, first: seq<Event>, rest: seq<Event>, o: Oracle)
    requires Goes(s, first, o) && Goes(After(s, first), rest, o)
    ensures Goes(s, first + rest, o) && After(s, first + rest) == After(After(s, first), rest)
    decreases |first|
  {
    if first == [] {
      assert first + rest == rest;
    } else {
      Append(Apply(s, first[0]), first[1..], rest, o);
      assert (first + rest)[1..] == first[1..] + rest;
    }
  }

  // ---- a goroutine finishes what it is doing ----

  function CallSteps(call: Call): nat {
    match call
    case Looking(_) => 8
    case Fetching(_, _) => 7
    case Inserting(_) => 6
    case Refetching(_) => 5
    case Storing(_, _, _, probe) => if probe == 0 then 4 else if probe == 1 then 3 else 2
    case Publishing(_) => 1
  }

  function TaskSteps(task: Task): nat {
    match task
    case Throttle => 10
    case Load => 9
    case Mark(_, _) => 8
    case Send(_, _) => 7
    case Await(_, _) => 6
    case Deliver => 5
    case Fail => 5
    case SaveRetry(_) => 5
    case Reschedule => 4
    case _ => 1
  }

  function SweepSteps(task: Task): nat {
    if task == Check then 3 else if task == Unschedule then 2 else 1
  }

  /** A bound on the moves a goroutine has left if nothing fails. */
  function Steps(x: Actor): nat {
    match x
    case Idle => 0
    case Creator(run, call) => CallSteps(call) + if run.Some? then 1 + 10 * |run.value.left| else 0
    case Between(r) => 1 + 10 * |r.left|
    case Probing(_, index) => 11 + if index < 3 then 3 - index else 0
    case Worker(_, task) => TaskSteps(task)
    case Sweeper(found, due, step) => 5 * |found| + 4 * |due| + SweepSteps(step)
    case FindBatch(_, _) => 2
    case Recounting(_, _, _) => 1
  }

  lemma CreatorSteps(s: State, a: ActorId, run: Option<BatchRun>, call: Call, c: Choice)
    requires c.fault == Fine
    ensures Steps(MoveCreator(s, a, run, call, c).next) < Steps(Creator(run, call))
  {
  }

  lemma WorkerSteps(s: State, job: Job, task: Task, c: Choice)
    requires c.fault == Fine
    ensures Steps(MoveWorker(s, job, task, c).next) < Steps(Worker(job, task))
  {
  }

  lemma SweeperSteps(s: State, a: ActorId, x: Actor, c: Choice)
    requires x.Sweeper? && Busy(x) && Tidy(x) && c.fault == Fine
    ensures Steps(MoveSweeper(s, a, x, c).next) < Steps(x)
  {
  }

  lemma BetweenSteps(s: State, r: BatchRun, c: Choice)
    ensures Steps(MoveBetween(s, r, c).next) < Steps(Between(r))
  {
  }

  lemma OtherSteps(s: State, a: ActorId, c: Choice)
    requires c.fault == Fine && (At(s, a).Probing? || At(s, a).FindBatch? || At(s, a).Recounting?)
    ensures Steps(Move(s, a, c).next) < Steps(At(s, a))
  {
  }

  lemma MoveSteps(s: State, a: ActorId, c: Choice)
    requires Busy(At(s, a)) && Tidy(At(s, a)) && c.fault == Fine
    ensures Steps(Move(s, a, c).next) < Steps(At(s, a))
  {
    var x := At(s, a);
    match x
    case Creator(run, call) => CreatorSteps(s, a, run, call, c);
    case Between(r) => BetweenSteps(s, r, c);
    case Worker(job, task) => WorkerSteps(s, job, task, c);
    case Sweeper(_, _, _) => SweeperSteps(s, a, x, c);
    case _ => OtherSteps(s, a, c);
  }

  /** The next move of `a`, in which nothing fails. */
  ghost predicate Steady(s: State, e: Event, a: ActorId, o: Oracle) {
    Enabled(s, e) && Clean(s, e) && Heeds(s, e, o) && e.Act? && e.actor == a && e.choice.fault == Fine
  }

  lemma NextMove(s: State, a: ActorId, o: Oracle) returns (e: Event)
    requires Reachable(s) && At(s, a) != Idle
    ensures Steady(s, e, a, o) && Reachable(Apply(s, e))
    ensures Steps(At(Apply(s, e), a)) < Steps(At(s, a))
    ensures forall b :: b != a ==> At(Apply(s, e), b) == At(s, b)
  {
    ReachableOK(s);
    assert Tidy(At(s, a));
    Worlds.SomeNewId(s.rows.Keys);
    var newId: Id :| newId !in s.rows.Keys;
    var c := Choice(Fine, Told(s, At(s, a), o), newId, s.now);
    e := Act(a, c);
    MoveSteps(s, a, c);
    Extend(s, e);
    assert At(Apply(s, e), a) == Move(s, a, c).next;
  }

  /** The run leaves `a` idle and all others as they were. */
  ghost predicate Finishes(s: State, trace: seq<Event>, a: ActorId, o: Oracle) {
    && Goes(s, trace, o)
    && At(After(s, trace), a) == Idle && forall b :: b != a ==> At(After(s, trace), b) == At(s, b)
  }

  lemma {:induction false} Finish(s: State, a: ActorId, o: Oracle) returns (trace: seq<Event>)
    requires Reachable(s)
    ensures Finishes(s, trace, a, o) && |trace| <= Steps(At(s, a))
    decreases Steps(At(s, a))
  {
    if At(s, a) == Idle {
      trace := [];
    } else {
      var e := NextMove(s, a, o);
      var rest := Finish(Apply(s, e), a, o);
      Prepend(s, e, rest, o);
      trace := [e] + rest;
    }
  }

  ghost predicate AllIdle(s: State) {
    forall a :: At(s, a) == Idle
  }

  function Awake(s: State): set<ActorId> {
    set a | a in s.actors && s.actors[a] != Idle
  }

  lemma {:induction false} FinishAll(s: State, o: Oracle) returns (trace: seq<Event>)
    requires Reachable(s)
    ensures Goes(s, trace, o) && AllIdle(After(s, trace))
    decreases |Awake(s)|
  {
    if Awake(s) == {} {
      trace := [];
      assert forall a :: At(s, a) != Idle ==> a in Awake(s);
    } else {
      var a :| a in Awake(s);
      var first := Finish(s, a, o);
      var t := After(s, first);
      FewerAwake(s, t, a);
      ExtendRun(s, first);
      var rest := FinishAll(t, o);
      Append(s, first, rest, o);
      trace := first + rest;
    }
  }

  lemma FewerAwake(s: State, t: State, a: ActorId)
    requires a in Awake(s) && At(t, a) == Idle && forall b :: b != a ==> At(t, b) == At(s, b)
    ensures |Awake(t)| < |Awake(s)|
  {
    forall b | b in Awake(t) ensures b in Awake(s) - {a} { assert At(t, b) != Idle; assert At(s, b) != Idle; }
    Batches.Subset(Awake(t), Awake(s) - {a});
  }

  // ---- the fuel of all notifications together ----

  ghost function FuelOf(s: State, i: Id): nat {
    if i in s.rows && Fuel(s.rows[i], HistOf(s, i), ViewOf(s, i)) >= 0
    then Fuel(s.rows[i], HistOf(s, i), ViewOf(s, i)) else 0
  }

  ghost function AllFuel(s: State, ids: seq<Id>): nat
    decreases |ids|
  {
    if ids == [] then 0 else FuelOf(s, ids[0]) + AllFuel(s, ids[1..])
  }

  /** No fuel is gained, and some is lost if the view of a listed notification changes. */
  lemma {:induction false} FuelFalls(s: State, t: State, ids: seq<Id>, moved: Id)
    requires DeliveryOK(s) && DeliveryOK(t) && AllAdvance(s, t)
    requires forall i :: i in ids ==> i in s.rows
    ensures AllFuel(t, ids) <= AllFuel(s, ids)
    ensures moved in ids && ViewOf(t, moved) != ViewOf(s, moved) ==> AllFuel(t, ids) < AllFuel(s, ids)
    decreases |ids|
  {
    if ids != [] {
      var i := ids[0];
      assert Advances(s, t, i);
      FuelBounds(s, i);
      FuelBounds(t, i);
      FuelFalls(s, t, ids[1..], moved);
    }
  }

  /** `ids` lists the notifications. */
  ghost predicate Lists(s: State, ids: seq<Id>) {
    forall i :: i in ids <==> i in s.rows
  }

  lemma {:induction false} InOrder<T>(all: set<T>) returns (order: seq<T>)
    ensures forall x :: x in order <==> x in all
    ensures forall k, l :: 0 <= k < l < |order| ==> order[k] != order[l]
    decreases |all|
  {
    if all == {} {
      order := [];
    } else {
      var x :| x in all;
      var others := InOrder(all - {x});
      order := [x] + others;
    }
  }

  // ---- the queues are worked off ----

  /** The goroutine creates nothing. */
  predicate Serving(x: Actor) {
    !x.Creator? && !x.Between?
  }

  /** It will move a copy on. */
  predicate Useful(s: State, x: Actor) {
    match x
    case Probing(ch, _) => FirstFull(s, ch).Some?
    case Worker(_, _) => true
    case Sweeper(found, due, _) => due != [] || (found != [] && found[0] in s.sched)
    case _ => false
  }

  lemma StillServing(s: State, a: ActorId, c: Choice)
    requires Busy(At(s, a)) && Serving(At(s, a))
    ensures Serving(Move(s, a, c).next)
  {
  }

  lemma RowsFixed(s: State, a: ActorId, c: Choice)
    requires CopiesOK(s) && Enabled(s, Act(a, c)) && Serving(At(s, a))
    ensures forall i :: i in Apply(s, Act(a, c)).rows <==> i in s.rows
  {
    MoveLegal(s, a, c);
  }

  /** The copy the effect is about is seen elsewhere, or in another stage. */
  ghost predicate MovesCopy(s: State, fx: Effect) {
    fx.id in s.rows && ViewAfter(s, fx) != ViewOf(s, fx.id)
  }

  lemma WorkerMoves(s: State, a: ActorId, job: Job, task: Task, c: Choice)
    requires CopiesOK(s) && At(s, a) == Worker(job, task)
    ensures MovesCopy(s, MoveWorker(s, job, task, c))
  {
    GripView(s, a, job.id);
  }

  lemma DueMoves(s: State, a: ActorId, x: Actor)
    requires CopiesOK(s) && At(s, a) == x && x.Sweeper? && x.found == [] && x.due != []
    ensures MovesCopy(s, MoveDue(s, x, Fine))
  {
    assert Tidy(x);
    GripView(s, a, x.due[0].id);
    InTail(x.due, x.due[0].id);
  }

  /** A claim takes the copy out of the sorted set; a missed one changes nothing. */
  lemma ClaimMoves(s: State, a: ActorId, x: Actor)
    requires CopiesOK(s) && At(s, a) == x && x.Sweeper? && x.found != []
    ensures var fx := MoveClaiming(s, a, x, Fine);
      if x.found[0] in s.sched then MovesCopy(s, fx) else x.due != [] ==> fx.next.Sweeper? && fx.next.due == x.due
  {
    if x.found[0] in s.sched {
      var i := x.found[0].id;
      assert InSched(s.sched, i) && Contains(s, Timed, i);
      assert s.place[i] == Timed;
      ClaimGrips(x.found[1..], x.due, x.found[0]);
    }
  }

  lemma ClaimGrips(found: seq<Job>, due: seq<Job>, job: Job)
    ensures GripOf(Sweeping(found, due + [job]), job.id).Some?
  {
    InAppend(due, job, job.id);
  }

  /** A probe takes a job, or goes on past an empty list while another is not. */
  lemma ProbeMoves(s: State, a: ActorId, x: Actor)
    requires CopiesOK(s) && At(s, a) == x && x.Probing? && FirstFull(s, x.channel).Some?
    ensures var fx := MoveProbing(s, a, x, Fine);
      MovesCopy(s, fx) || (fx.redis == NoRedis && fx.next == x.(index := x.index + 1))
  {
    var fx := MoveProbing(s, a, x, Fine);
    if fx.redis.RPop? {
      var q := fx.redis.queue;
      assert Seq(s.lists, q)[0].id == fx.id && InJobs(Seq(s.lists, q), fx.id);
      assert Contains(s, Listed(q), fx.id);
      assert s.place[fx.id] == Listed(q);
    }
  }

  /** A useful goroutine moves a copy or stays useful. */
  lemma UsefulMoves(s: State, a: ActorId, c: Choice)
    requires CopiesOK(s) && Enabled(s, Act(a, c)) && Serving(At(s, a)) && Useful(s, At(s, a)) && c.fault == Fine
    ensures var fx := Move(s, a, c); MovesCopy(s, fx) || Useful(Commit(s, a, fx), fx.next)
  {
    var x := At(s, a);
    match x
    case Worker(job, task) => WorkerMoves(s, a, job, task, c);
    case Probing(_, _) => ProbeMoves(s, a, x);
    case Sweeper(_, _, _) => if x.found != [] { ClaimMoves(s, a, x); } else { DueMoves(s, a, x); }
    case _ => assert false;
  }

  /** A steady move of a serving goroutine costs fuel, or leaves it as useful as it was. */
  lemma MoveCosts(s: State, a: ActorId, e: Event, o: Oracle, ids: seq<Id>)
    requires Reachable(s) && Steady(s, e, a, o) && Serving(At(s, a)) && Lists(s, ids)
    ensures Lists(Apply(s, e), ids) && Serving(At(Apply(s, e), a))
    ensures AllFuel(Apply(s, e), ids) <= AllFuel(s, ids)
    ensures Useful(s, At(s, a)) ==>
      AllFuel(Apply(s, e), ids) < AllFuel(s, ids) || Useful(Apply(s, e), At(Apply(s, e), a))
  {
    var fx := Move(s, a, e.choice);
    ReachableOK(s);
    DeliveryStep(s, e);
    StillServing(s, a, e.choice);
    RowsFixed(s, a, e.choice);
    MoveLegal(s, a, e.choice);
    assert At(Apply(s, e), a) == fx.next;
    if Useful(s, At(s, a)) { UsefulMoves(s, a, e.choice); }
    if MovesCopy(s, fx) { OwnView(s, a, fx); }
    FuelFalls(s, Apply(s, e), ids, fx.id);
  }

  lemma {:induction false} ServeOut(s: State, a: ActorId, o: Oracle, ids: seq<Id>) returns (trace: seq<Event>)
    requires Reachable(s) && Serving(At(s, a)) && Lists(s, ids)
    ensures Finishes(s, trace, a, o) && Lists(After(s, trace), ids)
    ensures AllFuel(After(s, trace), ids) <= AllFuel(s, ids)
    ensures Useful(s, At(s, a)) ==> AllFuel(After(s, trace), ids) < AllFuel(s, ids)
    decreases Steps(At(s, a))
  {
    if At(s, a) == Idle {
      trace := [];
    } else {
      var e := NextMove(s, a, o);
      MoveCosts(s, a, e, o, ids);
      var rest := ServeOut(Apply(s, e), a, o, ids);
      Prepend(s, e, rest, o);
      trace := [e] + rest;
    }
  }

  /** The event starts `a` on something useful and touches neither rows nor copies. */
  ghost predicate SetsOut(s: State, e: Event, a: ActorId) {
    && Enabled(s, e) && Clean(s, e) && (e.Dequeue? || e.Sweep?) && e.actor == a
    && Serving(At(Apply(s, e), a)) && Useful(Apply(s, e), At(Apply(s, e), a))
  }

  lemma StartTouchesNothing(s: State, e: Event)
    requires Reachable(s) && Enabled(s, e) && (e.Dequeue? || e.Sweep? || e.Tick?)
    ensures var t := Apply(s, e);
      && t.rows == s.rows && t.lists == s.lists && t.sched == s.sched && Reachable(t)
      && (forall b :: e.Tick? || b != e.actor ==> At(t, b) == At(s, b))
  {
    Extend(s, e);
  }

  /** Neither setting out nor waiting costs or gains fuel. */
  lemma StartKeepsFuel(s: State, e: Event, ids: seq<Id>)
    requires Reachable(s) && Enabled(s, e) && (e.Dequeue? || e.Sweep? || e.Tick?) && Lists(s, ids)
    ensures Reachable(Apply(s, e)) && Lists(Apply(s, e), ids) && AllFuel(Apply(s, e), ids) <= AllFuel(s, ids)
  {
    StartTouchesNothing(s, e);
    ReachableOK(s);
    DeliveryStep(s, e);
    FuelFalls(s, Apply(s, e), ids, 0);
  }

  lemma IdleAgain(s: State, t: State, u: State, a: ActorId)
    requires AllIdle(s) && At(u, a) == Idle
    requires forall b :: b != a ==> At(t, b) == At(s, b)
    requires forall b :: b != a ==> At(u, b) == At(t, b)
    ensures AllIdle(u)
  {
    forall b ensures At(u, b) == Idle { if b != a { assert At(t, b) == At(s, b); } }
  }

  /** One round: `a` sets out, serves, and is idle again. */
  lemma OneRound(s: State, a: ActorId, e: Event, o: Oracle, ids: seq<Id>) returns (trace: seq<Event>)
    requires Reachable(s) && AllIdle(s) && SetsOut(s, e, a) && Lists(s, ids)
    ensures Goes(s, trace, o) && AllIdle(After(s, trace)) && Lists(After(s, trace), ids)
    ensures AllFuel(After(s, trace), ids) < AllFuel(s, ids)
  {
    var t := Apply(s, e);
    StartKeepsFuel(s, e, ids);
    StartTouchesNothing(s, e);
    var rest := ServeOut(t, a, o, ids);
    IdleAgain(s, t, After(t, rest), a);
    Prepend(s, e, rest, o);
    trace := [e] + rest;
  }

  lemma FullChannel(s: State, q: Queue)
    requires Seq(s.lists, q) != []
    ensures FirstFull(s, q.channel).Some?
  {
    assert q == Queue(q.channel, q.priority);
    match q.priority
    case High =>
    case Normal =>
    case Low =>
  }

  lemma LeastFirst(s: State, job: Job, others: seq<Job>)
    requires ByScore(s, others) && job !in others
    requires forall other :: other in others ==> ScoreOf(s, job) <= ScoreOf(s, other)
    requires forall k, l :: 0 <= k < l < |others| ==> others[k] != others[l]
    ensures var all := [job] + others;
      ByScore(s, all) && forall k, l :: 0 <= k < l < |all| ==> all[k] != all[l]
  {
    var all := [job] + others;
    forall k, l | 0 <= k < l < |all| ensures all[k] != all[l] && ScoreOf(s, all[k]) <= ScoreOf(s, all[l]) {
      assert all[l] == others[l - 1] && others[l - 1] in others;
    }
  }

  /** The jobs by ascending score. */
  lemma {:induction false} InScoreOrder(s: State, jobs: set<Job>) returns (order: seq<Job>)
    ensures forall job :: job in order <==> job in jobs
    ensures forall k, l :: 0 <= k < l < |order| ==> order[k] != order[l]
    ensures ByScore(s, order)
    decreases |jobs|
  {
    if jobs == {} {
      order := [];
    } else {
      Queues.LeastScore(s, jobs);
      var job :| job in jobs && forall other :: other in jobs ==> ScoreOf(s, job) <= ScoreOf(s, other);
      var others := InScoreOrder(s, jobs - {job});
      assert forall other :: other in others ==> other in jobs;
      LeastFirst(s, job, others);
      order := [job] + others;
    }
  }

  /** An instant at which everything in the sorted set is due. */
  lemma {:induction false} Latest(sched: map<Job, int>, jobs: seq<Job>) returns (latest: nat)
    requires forall job :: job in jobs ==> job in sched
    ensures forall job :: job in jobs ==> sched[job] <= latest
    decreases |jobs|
  {
    if jobs == [] {
      latest := 0;
    } else {
      var bound := Latest(sched, jobs[1..]);
      latest := if sched[jobs[0]] <= bound then bound else sched[jobs[0]];
      assert forall job :: job in jobs ==> job == jobs[0] || job in jobs[1..];
    }
  }

  /** `found` lists the whole sorted set, all of it due. */
  ghost predicate AllFound(s: State, found: seq<Job>) {
    && (forall job :: job in found <==> job in s.sched)
    && (forall k, l :: 0 <= k < l < |found| ==> found[k] != found[l])
    && (forall job :: job in s.sched ==> s.sched[job] <= Backoff.Secs(s.now))
    && ByScore(s, found)
  }

  lemma SweepSetsOut(s: State, a: ActorId, found: seq<Job>)
    requires At(s, a) == Idle && AllFound(s, found) && found != []
    ensures SetsOut(s, Sweep(a, s.now, found, Fine), a)
  {
    assert found[0] in s.sched;
  }

  /** Time passes until everything in the sorted set is due. */
  lemma TimePasses(s: State, latest: nat) returns (e: Event)
    ensures e.Tick? && Backoff.Secs(Apply(s, e).now) >= latest
  {
    var target := latest * Backoff.SECOND;
    e := Tick(if s.now < target then target - s.now else 0);
    SecsGrow(target, Apply(s, e).now);
  }

  /** One round of the scheduler, once everything is due. */
  lemma SweepRound(s: State, o: Oracle, ids: seq<Id>) returns (trace: seq<Event>)
    requires Reachable(s) && AllIdle(s) && Lists(s, ids) && s.sched != map[]
    ensures Goes(s, trace, o) && AllIdle(After(s, trace)) && Lists(After(s, trace), ids)
    ensures AllFuel(After(s, trace), ids) < AllFuel(s, ids)
  {
    var found := InScoreOrder(s, s.sched.Keys);
    var latest := Latest(s.sched, found);
    var e := TimePasses(s, latest);
    var t := Apply(s, e);
    StartTouchesNothing(s, e);
    StartKeepsFuel(s, e, ids);
    assert found != [] && AllFound(t, found);
    assert At(t, 0) == At(s, 0) == Idle;
    SweepSetsOut(t, 0, found);
    var rest := OneRound(t, 0, Sweep(0, t.now, found, Fine), o, ids);
    Prepend(s, e, rest, o);
    trace := [e] + rest;
  }

  /** Every round costs fuel, so the rounds end. */
  lemma {:induction false} Drain(s: State, o: Oracle, ids: seq<Id>) returns (trace: seq<Event>)
    requires Reachable(s) && AllIdle(s) && Lists(s, ids)
    ensures Goes(s, trace, o) && Quiescent(After(s, trace))
    decreases AllFuel(s, ids)
  {
    if s.sched == map[] && forall q :: Seq(s.lists, q) == [] {
      trace := [];
    } else {
      var first;
      if q :| Seq(s.lists, q) != [] {
        FullChannel(s, q);
        first := OneRound(s, 0, Dequeue(0, q.channel), o, ids);
      } else {
        first := SweepRound(s, o, ids);
      }
      ExtendRun(s, first);
      var rest := Drain(After(s, first), o, ids);
      Append(s, first, rest, o);
      trace := first + rest;
    }
  }

  /** Every reachable state can go on, without failures, new work or cancellations, to one in which
      all work is done, whatever the oracle says. */
  lemma WorkCanFinish(s: State, o: Oracle)
    requires Reachable(s)
    ensures exists trace :: Goes(s, trace, o) && Quiescent(After(s, trace))
  {
    var first := FinishAll(s, o);
    ExtendRun(s, first);
    var ids := InOrder(After(s, first).rows.Keys);
    var rest := Drain(After(s, first), o, ids);
    Append(s, first, rest, o);
    assert Quiescent(After(s, first + rest));
  }

  predicate AllEnded(s: State) {
    forall i :: i in s.rows ==> Terminal(s.rows[i].status)
  }

  /** In particular, as long as nothing fails, every notification can still reach a final status. */
  lemma EveryoneCanFinish(s: State, o: Oracle)
    requires CleanlyReached(s)
    ensures exists trace :: Goes(s, trace, o) && AllEnded(After(s, trace))
  {
    ReachedCleanly(s);
    WorkCanFinish(s, o);
    var trace :| Goes(s, trace, o) && Quiescent(After(s, trace));
    CleanContinues(s, trace);
    forall i | i in After(s, trace).rows { AllFinished(After(s, trace), i); }
    assert AllEnded(After(s, trace));
  }

  lemma ReachedCleanly(s: State)
    requires CleanlyReached(s)
    ensures Reachable(s)
  {
    var now, trace :| Runs(Empty(now), trace) && CleanRun(Empty(now), trace) && After(Empty(now), trace) == s;
    assert Reaches(Empty(now), s);
  }
}
