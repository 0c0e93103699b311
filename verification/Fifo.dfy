/** Order of the live lists: first in first out in each, and high before normal before low
    within one call of DequeueNext, whatever other goroutines push and pop meanwhile. */
module Fifo {
  import opened Model
  import opened Machine

  /** For each list, what was popped followed by what is there is what was pushed. */
  ghost predicate FlowOK(s: State) {
    forall q :: Seq(s.pushed, q) == Seq(s.popped, q) + Seq(s.lists, q)
  }

  lemma CommitFlow(s: State, a: ActorId, fx: Effect, q: Queue)
    requires Seq(s.pushed, q) == Seq(s.popped, q) + Seq(s.lists, q)
    ensures var t := Commit(s, a, fx);
      && Seq(t.pushed, q) == Seq(t.popped, q) + Seq(t.lists, q)
      && Seq(s.pushed, q) <= Seq(t.pushed, q) && Seq(s.popped, q) <= Seq(t.popped, q)
  {
    if fx.redis.RPop? && fx.redis.queue == q && Seq(s.lists, q) != [] {
      assert Seq(s.lists, q) == [Seq(s.lists, q)[0]] + Seq(s.lists, q)[1..];
    }
  }

  lemma FlowStep(s: State, e: Event)
    requires FlowOK(s) && Enabled(s, e)
    ensures FlowOK(Apply(s, e))
    ensures forall q :: Seq(s.pushed, q) <= Seq(Apply(s, e).pushed, q) && Seq(s.popped, q) <= Seq(Apply(s, e).popped, q)
  {
    match e
    case Tick(_) =>
    case Expire(_) =>
    case Crash(_) =>
    case Act(a, c) => forall q { CommitFlow(s, a, Move(s, a, c), q); }
    case _ => forall q { CommitFlow(s, e.actor, Start(s, e), q); }
  }

  lemma {:induction false} RunFlow(s: State, trace: seq<Event>)
    requires FlowOK(s) && Runs(s, trace)
    ensures FlowOK(After(s, trace))
    decreases |trace|
  {
    if trace != [] {
      FlowStep(s, trace[0]);
      RunFlow(Apply(s, trace[0]), trace[1..]);
    }
  }

  /** In every reachable state each list holds exactly the pushed jobs that were not yet popped,
      and they were popped in the order they were pushed. */
  lemma FirstInFirstOut(s: State, q: Queue)
    requires Reachable(s)
    ensures Seq(s.pushed, q) == Seq(s.popped, q) + Seq(s.lists, q)
  {
    var now :| Reaches(Empty(now), s);
    var trace :| Runs(Empty(now), trace) && After(Empty(now), trace) == s;
    RunFlow(Empty(now), trace);
  }

  /** The call of DequeueNext by `a` is still looking for a job all along the run. */
  ghost predicate StillProbing(s: State, trace: seq<Event>, a: ActorId)
    requires Runs(s, trace)
    decreases |trace|
  {
    At(s, a).Probing? && (trace == [] || StillProbing(Apply(s, trace[0]), trace[1..], a))
  }

  /** The lists probed without success so far have been emptied of everything pushed before `start`. */
  ghost predicate Passed(start: State, s: State, ch: Channel, index: nat) {
    && (forall q :: Seq(start.pushed, q) <= Seq(s.pushed, q))
    && (forall k: nat :: k < index && k < 3 ==>
          Seq(start.pushed, Queue(ch, Nth(k))) <= Seq(s.popped, Queue(ch, Nth(k))))
  }

  /** A probe goes on to the next list only past an empty one. */
  lemma ProbeNext(s: State, a: ActorId, x: Actor, fault: Fault)
    requires x.Probing? && MoveProbing(s, a, x, fault).next.Probing?
    ensures MoveProbing(s, a, x, fault).next == x.(index := x.index + 1)
    ensures MoveProbing(s, a, x, fault).redis == NoRedis
    ensures x.index < 3 && Seq(s.lists, Queue(x.channel, Nth(x.index))) == []
  {
  }

  lemma OthersKeep(s: State, e: Event, a: ActorId)
    requires Enabled(s, e) && At(s, a).Probing? && At(Apply(s, e), a).Probing?
    ensures At(Apply(s, e), a) == At(s, a)
      || (e.Act? && e.actor == a && At(Apply(s, e), a) == MoveProbing(s, a, At(s, a), e.choice.fault).next)
  {
  }

  /** Pops and pushes by anybody leave the passed lists passed. */
  lemma PassedGrows(start: State, s: State, t: State, ch: Channel, index: nat)
    requires Passed(start, s, ch, index)
    requires forall q :: Seq(s.pushed, q) <= Seq(t.pushed, q) && Seq(s.popped, q) <= Seq(t.popped, q)
    ensures Passed(start, t, ch, index)
  {
  }

  /** An empty list is passed. */
  lemma EmptyPassed(start: State, s: State, ch: Channel, index: nat)
    requires FlowOK(s) && Passed(start, s, ch, index) && index < 3 && Seq(s.lists, Queue(ch, Nth(index))) == []
    ensures Passed(start, s, ch, index + 1)
  {
    var q := Queue(ch, Nth(index));
    assert Seq(s.pushed, q) == Seq(s.popped, q) + Seq(s.lists, q);
    forall k: nat | k < index + 1 && k < 3
      ensures Seq(start.pushed, Queue(ch, Nth(k))) <= Seq(s.popped, Queue(ch, Nth(k)))
    {
    }
  }

  lemma ProbeStep(start: State, s: State, e: Event, a: ActorId)
    requires FlowOK(s) && Enabled(s, e) && At(s, a).Probing? && At(Apply(s, e), a).Probing?
    requires Passed(start, s, At(s, a).channel, At(s, a).index)
    ensures At(Apply(s, e), a).channel == At(s, a).channel
    ensures Passed(start, Apply(s, e), At(s, a).channel, At(Apply(s, e), a).index)
  {
    var x := At(s, a);
    FlowStep(s, e);
    OthersKeep(s, e, a);
    if At(Apply(s, e), a) != x {
      ProbeNext(s, a, x, e.choice.fault);
      EmptyPassed(start, s, x.channel, x.index);
    }
    PassedGrows(start, s, Apply(s, e), x.channel, At(Apply(s, e), a).index);
  }

  lemma {:induction false} ProbeRun(start: State, s: State, trace: seq<Event>, a: ActorId)
    requires FlowOK(s) && Runs(s, trace) && StillProbing(s, trace, a)
    requires Passed(start, s, At(s, a).channel, At(s, a).index)
    ensures FlowOK(After(s, trace)) && At(After(s, trace), a).Probing?
    ensures At(After(s, trace), a).channel == At(s, a).channel
    ensures Passed(start, After(s, trace), At(s, a).channel, At(After(s, trace), a).index)
    decreases |trace|
  {
    if trace != [] {
      FlowStep(s, trace[0]);
      ProbeStep(start, s, trace[0], a);
      ProbeRun(start, Apply(s, trace[0]), trace[1..], a);
    }
  }

  function Rank(p: Priority): nat {
    match p case High => 0 case Normal => 1 case Low => 2
  }

  /** What a probe takes comes after the lists it has passed. */
  lemma ProbeTakes(s: State, a: ActorId, x: Actor, fault: Fault)
    requires x.Probing? && MoveProbing(s, a, x, fault).redis.RPop?
    ensures var q := MoveProbing(s, a, x, fault).redis.queue;
      q.channel == x.channel && Rank(q.priority) <= x.index
  {
  }

  /** When a call of DequeueNext takes a job, every more urgent job of the channel that was
      waiting when the call began has been popped. */
  lemma UrgentFirst(s: State, a: ActorId, ch: Channel, trace: seq<Event>, c: Choice)
    requires Reachable(s) && Enabled(s, Dequeue(a, ch))
    requires Runs(Apply(s, Dequeue(a, ch)), trace) && StillProbing(Apply(s, Dequeue(a, ch)), trace, a)
    requires Enabled(After(Apply(s, Dequeue(a, ch)), trace), Act(a, c))
    ensures var u := After(Apply(s, Dequeue(a, ch)), trace);
      var redis := Move(u, a, c).redis;
      redis.RPop? ==>
        && redis.queue.channel == ch
        && forall p :: Rank(p) < Rank(redis.queue.priority) ==>
             Seq(s.popped, Queue(ch, p)) + Seq(s.lists, Queue(ch, p)) <= Seq(u.popped, Queue(ch, p))
  {
    var t := Apply(s, Dequeue(a, ch));
    forall q ensures Seq(s.pushed, q) == Seq(s.popped, q) + Seq(s.lists, q) { FirstInFirstOut(s, q); }
    FlowStep(s, Dequeue(a, ch));
    assert At(t, a) == Probing(ch, 0);
    ProbeRun(s, t, trace, a);
    var u := After(t, trace);
    var x := At(u, a);
    if Move(u, a, c).redis.RPop? {
      ProbeTakes(u, a, x, c.fault);
      forall p | Rank(p) < Rank(Move(u, a, c).redis.queue.priority)
        ensures Seq(s.pushed, Queue(ch, p)) <= Seq(u.popped, Queue(ch, p))
      {
        assert p == Nth(Rank(p));
      }
    }
  }
}
