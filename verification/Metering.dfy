/** The delivery counters of one process against what its workers did, over any interleaving with
    the goroutines of other processes. */
module Metering {
  import opened Model
  import opened Machine

  /** The three counters of a Collector. */
  datatype Totals = Totals(sent: nat, failed: nat, retried: nat)

  /** The event is a move by a worker of the process `mine`. */
  predicate Works(s: State, e: Event, mine: set<ActorId>) {
    e.Act? && e.actor in mine && At(s, e.actor).Worker?
  }

  function TaskOf(s: State, e: Event, mine: set<ActorId>): Task
    requires Works(s, e, mine)
  {
    At(s, e.actor).task
  }

  /** The answer to a send is an error, and the retries are used up. */
  predicate LastError(task: Task, good: bool) {
    task.Await? && !good && task.retry + 1 > task.max
  }

  /** What process and handleFailure count when the answer to a send is in. */
  function Tallied(t: Totals, task: Task, good: bool): Totals {
    if !task.Await? then t
    else if good then t.(sent := t.sent + 1)
    else if LastError(task, good) then t.(failed := t.failed + 1)
    else t.(failed := t.failed + 1, retried := t.retried + 1)
  }

  /** The counters of the process at the end of the run. */
  ghost function TotalsOf(s: State, trace: seq<Event>, mine: set<ActorId>): Totals
    requires Runs(s, trace)
    decreases |trace|
  {
    if trace == [] then Totals(0, 0, 0)
    else
      var rest := TotalsOf(Apply(s, trace[0]), trace[1..], mine);
      if Works(s, trace[0], mine) then Tallied(rest, TaskOf(s, trace[0], mine), trace[0].choice.good) else rest
  }

  /** What a worker may be in the middle of. */
  datatype Stage = Sending | Delivering | GivingUp

  predicate InStage(x: Actor, g: Stage) {
    x.Worker? &&
    match g
    case Sending => x.task.Await?
    case Delivering => x.task.Deliver?
    case GivingUp => x.task.Fail?
  }

  /** The move begins the stage. */
  predicate Begins(task: Task, good: bool, g: Stage) {
    match g
    case Sending => task.Send?
    case Delivering => task.Await? && good
    case GivingUp => LastError(task, good)
  }

  /** The workers of the process that are in the stage. */
  function Amid(s: State, mine: set<ActorId>, g: Stage): set<ActorId> {
    set a | a in mine && InStage(At(s, a), g)
  }

  ghost function Begun(s: State, trace: seq<Event>, mine: set<ActorId>, g: Stage): nat
    requires Runs(s, trace)
    decreases |trace|
  {
    if trace == [] then 0
    else
      One(Works(s, trace[0], mine) && Begins(TaskOf(s, trace[0], mine), trace[0].choice.good, g))
      + Begun(Apply(s, trace[0]), trace[1..], mine, g)
  }

  /** The stage ends with the worker's next move. */
  ghost function Ended(s: State, trace: seq<Event>, mine: set<ActorId>, g: Stage): nat
    requires Runs(s, trace)
    decreases |trace|
  {
    if trace == [] then 0
    else
      One(Works(s, trace[0], mine) && InStage(At(s, trace[0].actor), g))
      + Ended(Apply(s, trace[0]), trace[1..], mine, g)
  }

  /** Rows that workers of the process set to 'delivered'. */
  ghost function RowsMarked(s: State, trace: seq<Event>, mine: set<ActorId>): nat
    requires Runs(s, trace)
    decreases |trace|
  {
    if trace == [] then 0
    else
      One(Works(s, trace[0], mine) && TaskOf(s, trace[0], mine).Deliver?
          && Move(s, trace[0].actor, trace[0].choice).sql.SetRow?)
      + RowsMarked(Apply(s, trace[0]), trace[1..], mine)
  }

  predicate Alive(trace: seq<Event>, mine: set<ActorId>) {
    forall k :: 0 <= k < |trace| ==> !(trace[k].Crash? && trace[k].actor in mine)
  }

  lemma WorkerNext(s: State, job: Job, task: Task, c: Choice, g: Stage)
    ensures InStage(MoveWorker(s, job, task, c).next, g) <==> Begins(task, c.good, g)
  {
  }

  /** No other goroutine enters a stage. */
  lemma OtherNext(s: State, a: ActorId, c: Choice, g: Stage)
    requires Busy(At(s, a)) && !At(s, a).Worker?
    ensures !InStage(Move(s, a, c).next, g)
  {
  }

  lemma Rest(s: State, a: ActorId, mine: set<ActorId>, g: Stage, rest: set<ActorId>)
    requires a in mine && a !in rest
    requires forall b :: b != a ==> (b in rest <==> b in mine && InStage(At(s, b), g))
    ensures |Amid(s, mine, g)| == |rest| + One(InStage(At(s, a), g))
  {
    assert Amid(s, mine, g) == if InStage(At(s, a), g) then rest + {a} else rest;
  }

  /** Only `a` moves. */
  lemma OneMoves(s: State, t: State, a: ActorId, mine: set<ActorId>, g: Stage)
    requires a in mine && forall b :: b != a ==> At(t, b) == At(s, b)
    ensures |Amid(t, mine, g)| + One(InStage(At(s, a), g)) == |Amid(s, mine, g)| + One(InStage(At(t, a), g))
  {
    var rest := Amid(s, mine, g) - {a};
    Rest(s, a, mine, g, rest);
    Rest(t, a, mine, g, rest);
  }

  lemma WorkMoves(s: State, e: Event, mine: set<ActorId>, g: Stage)
    requires Enabled(s, e) && Works(s, e, mine)
    ensures InStage(At(Apply(s, e), e.actor), g) <==> Begins(TaskOf(s, e, mine), e.choice.good, g)
    ensures forall b :: b != e.actor ==> At(Apply(s, e), b) == At(s, b)
  {
    WorkerNext(s, At(s, e.actor).job, At(s, e.actor).task, e.choice, g);
    assert At(Apply(s, e), e.actor) == Move(s, e.actor, e.choice).next;
  }

  lemma OtherMoves(s: State, e: Event, mine: set<ActorId>, g: Stage)
    requires Enabled(s, e) && !Works(s, e, mine) && !(e.Crash? && e.actor in mine)
    ensures Amid(Apply(s, e), mine, g) == Amid(s, mine, g)
  {
    forall b | b in mine ensures InStage(At(Apply(s, e), b), g) <==> InStage(At(s, b), g) {
      if e.Act? && e.actor == b { OtherNext(s, b, e.choice, g); }
    }
  }

  lemma StepAmid(s: State, e: Event, mine: set<ActorId>, g: Stage)
    requires Enabled(s, e) && !(e.Crash? && e.actor in mine)
    ensures |Amid(Apply(s, e), mine, g)| + One(Works(s, e, mine) && InStage(At(s, e.actor), g))
         == |Amid(s, mine, g)| + One(Works(s, e, mine) && Begins(TaskOf(s, e, mine), e.choice.good, g))
  {
    if Works(s, e, mine) {
      WorkMoves(s, e, mine, g);
      OneMoves(s, Apply(s, e), e.actor, mine, g);
    } else {
      OtherMoves(s, e, mine, g);
    }
  }

  lemma {:induction false} Balance(s: State, trace: seq<Event>, mine: set<ActorId>, g: Stage)
    requires Runs(s, trace) && Alive(trace, mine)
    ensures |Amid(After(s, trace), mine, g)| + Ended(s, trace, mine, g) == |Amid(s, mine, g)| + Begun(s, trace, mine, g)
    decreases |trace|
  {
    if trace != [] {
      StepAmid(s, trace[0], mine, g);
      Balance(Apply(s, trace[0]), trace[1..], mine, g);
    }
  }

  /** The counters count stages. */
  lemma {:induction false} CountersCount(s: State, trace: seq<Event>, mine: set<ActorId>)
    requires Runs(s, trace)
    ensures var t := TotalsOf(s, trace, mine);
      && t.sent + t.failed == Ended(s, trace, mine, Sending)
      && t.sent == Begun(s, trace, mine, Delivering)
      && t.failed == t.retried + Begun(s, trace, mine, GivingUp)
      && RowsMarked(s, trace, mine) <= Ended(s, trace, mine, Delivering)
    decreases |trace|
  {
    if trace != [] { CountersCount(Apply(s, trace[0]), trace[1..], mine); }
  }

  /** While no worker of the process is in the middle of a send or of recording its outcome, what
      it has counted is what it has done: every send is counted once, as sent or as failed; the
      failed ones are those retried and those given up; and no row is set to 'delivered' that is
      not counted as sent. */
  lemma CountersConserve(now: int, trace: seq<Event>, mine: set<ActorId>)
    requires Runs(Empty(now), trace) && Alive(trace, mine)
    requires forall g :: Amid(After(Empty(now), trace), mine, g) == {}
    ensures var t := TotalsOf(Empty(now), trace, mine);
      && t.sent + t.failed == Begun(Empty(now), trace, mine, Sending)
      && t.failed == t.retried + Ended(Empty(now), trace, mine, GivingUp)
      && t.sent >= RowsMarked(Empty(now), trace, mine)
  {
    CountersCount(Empty(now), trace, mine);
    forall g ensures Ended(Empty(now), trace, mine, g) == Begun(Empty(now), trace, mine, g) {
      Balance(Empty(now), trace, mine, g);
      assert Amid(Empty(now), mine, g) == {};
      assert Amid(After(Empty(now), trace), mine, g) == {};
    }
  }
}
