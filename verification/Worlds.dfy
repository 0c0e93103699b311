/** The running system as an object. A goroutine's code performs one command at a time; before
    each, the script lets the other goroutines, the clock and the failures have their turn. */
module Worlds {
  import opened Model
  import opened Machine
  import opened Delivery
  import opened Guarantees

  /** What happens before the next command: events of others, and the fault it meets. */
  datatype Turn = Turn(others: seq<Event>, fault: Fault)

  predicate Calm(script: seq<Turn>) {
    forall k :: 0 <= k < |script| ==> script[k] == Turn([], Fine)
  }

  /** In a calm world nobody else acts and no call fails; there is one of any length. */
  lemma CalmWorlds(script: seq<Turn>, n: nat)
    ensures Calm(script) <==> forall turn :: turn in script ==> turn.others == [] && turn.fault == Fine
    ensures Calm(seq(n, _ => Turn([], Fine)))
  {
    if Calm(script) {
      forall turn | turn in script ensures turn.others == [] && turn.fault == Fine { }
    }
  }

  predicate By(e: Event, a: ActorId) {
    match e
    case Tick(_) => false
    case Expire(_) => false
    case _ => e.actor == a
  }

  /** Rows stay, with their idempotency keys. */
  ghost predicate RowsStay(s: State, t: State) {
    forall i :: i in s.rows ==> i in t.rows && t.rows[i].key == s.rows[i].key
  }

  lemma EventKeepsRows(s: State, e: Event)
    requires DeliveryOK(s) && Enabled(s, e)
    ensures RowsStay(s, Apply(s, e))
  {
    DeliveryStep(s, e);
    forall i | i in s.rows ensures i in Apply(s, e).rows && Apply(s, e).rows[i].key == s.rows[i].key {
      assert Advances(s, Apply(s, e), i);
    }
  }

  predicate AtInsert(x: Actor) {
    x.Creator? && x.call.Inserting?
  }

  class World {
    var state: State
    var script: seq<Turn>
    ghost var start: int
    ghost var log: seq<Event>

    constructor (now: int, script: seq<Turn>)
      ensures Valid() && state == Empty(now) && this.script == script
    {
      state := Empty(now);
      this.script := script;
      start := now;
      log := [];
    }

    /** The state is what the logged events make of the empty stores. */
    ghost predicate Valid()
      reads this
    {
      Runs(Empty(start), log) && After(Empty(start), log) == state
    }

    /** The run so far goes on from an earlier one. */
    ghost predicate Continues(was: int, before: seq<Event>)
      reads this
    {
      start == was && before <= log
    }

    lemma IsReachable()
      requires Valid()
      ensures Reachable(state) && DeliveryOK(state)
    {
      assert Reaches(Empty(start), state);
      ReachableOK(state);
    }

    method Do(e: Event)
      requires Valid() && Enabled(state, e)
      modifies this`state, this`log
      ensures Valid() && state == Apply(old(state), e) && log == old(log) + [e]
      ensures RowsStay(old(state), state) && old(state.now) <= state.now
    {
      IsReachable();
      EventKeepsRows(state, e);
      RunsThen(Empty(start), log, e);
      state := Apply(state, e);
      log := log + [e];
    }

    /** The others' turn before the next command of `a`. */
    method Yield(a: ActorId) returns (fault: Fault)
      requires Valid()
      modifies this
      ensures Valid() && Continues(old(start), old(log))
      ensures At(state, a) == old(At(state, a)) && RowsStay(old(state), state) && old(state.now) <= state.now
      ensures Calm(old(script)) ==> fault == Fine && state == old(state) && Calm(script)
    {
      if script == [] {
        return Fine;
      }
      var turn := script[0];
      script := script[1..];
      fault := turn.fault;
      var k := 0;
      while k < |turn.others|
        invariant 0 <= k <= |turn.others|
        invariant Valid() && Continues(old(start), old(log)) && script == old(script)[1..]
        invariant At(state, a) == old(At(state, a)) && RowsStay(old(state), state) && old(state.now) <= state.now
        invariant k == 0 ==> state == old(state)
      {
        var e := turn.others[k];
        if !By(e, a) && Enabled(state, e) {
          Do(e);
        }
        k := k + 1;
      }
    }

    /** One command of `a`: the others' turn, then its move. `met` is the state the command meets. */
    method Step(a: ActorId, good: bool) returns (fault: Fault, met: State)
      requires Valid() && Busy(At(state, a)) && !AtInsert(At(state, a))
      modifies this
      ensures Valid() && Continues(old(start), old(log))
      ensures At(met, a) == old(At(state, a)) && Reachable(met) && RowsStay(old(state), state)
      ensures state == Commit(met, a, Move(met, a, Choice(fault, good, 0, 0)))
      ensures Calm(old(script)) ==> fault == Fine && met == old(state) && Calm(script)
    {
      fault := Yield(a);
      IsReachable();
      met := state;
      Do(Act(a, Choice(fault, good, 0, 0)));
    }

    /** The INSERT of a row under a new UUID, its status decided by the clock reading `asOf`. */
    method Insert(a: ActorId, asOf: int) returns (fault: Fault, met: State, newId: Id)
      requires Valid() && AtInsert(At(state, a)) && asOf <= state.now
      modifies this
      ensures Valid() && Continues(old(start), old(log))
      ensures At(met, a) == old(At(state, a)) && newId !in met.rows && RowsStay(old(state), state)
      ensures state == Commit(met, a, Move(met, a, Choice(fault, true, newId, asOf)))
      ensures Calm(old(script)) ==> fault == Fine && met == old(state) && Calm(script)
    {
      fault := Yield(a);
      met := state;
      SomeNewId(met.rows.Keys);
      newId :| newId !in met.rows;
      Do(Act(a, Choice(fault, true, newId, asOf)));
    }
  }

  /** A log that continues another is a run from the state the other led to. */
  lemma {:induction false} RunGoesOn(s: State, before: seq<Event>, log: seq<Event>)
    requires Runs(s, log) && before <= log
    ensures Runs(s, before) && Runs(After(s, before), log[|before|..])
    ensures After(After(s, before), log[|before|..]) == After(s, log)
    decreases |before|
  {
    if before == [] {
      assert log[0..] == log;
    } else {
      assert before[0] == log[0];
      RunGoesOn(Apply(s, before[0]), before[1..], log[1..]);
      assert log[1..][|before[1..]|..] == log[|before|..];
    }
  }

  /** So whatever a method of the system does, and whatever happens meanwhile: what was delivered or
      failed before it is so afterwards, and what the provider had accepted is not sent again. */
  lemma OutcomesSurvive(start: int, before: seq<Event>, log: seq<Event>, i: Id)
    requires Runs(Empty(start), log) && before <= log
    requires Runs(Empty(start), before) && i in After(Empty(start), before).rows
    ensures var s, t := After(Empty(start), before), After(Empty(start), log);
      && (s.rows[i].status == Delivered || s.rows[i].status == Failed ==> i in t.rows && t.rows[i] == s.rows[i])
      && (HistOf(s, i).accepts > 0 ==> HistOf(t, i).sends == HistOf(s, i).sends)
  {
    var s := After(Empty(start), before);
    RunGoesOn(Empty(start), before, log);
    assert Reaches(Empty(start), s);
    if s.rows[i].status == Delivered || s.rows[i].status == Failed { OutcomesAreFinal(s, log[|before|..], i); }
    if HistOf(s, i).accepts > 0 { AcceptedOnce(s, log[|before|..], i); }
  }

  /** New UUIDs never run out. */
  lemma SomeNewId(used: set<Id>)
    ensures exists i: Id :: i !in used
  {
    var i := AboveAll(used);
    assert i !in used;
  }

  lemma {:induction false} AboveAll(used: set<Id>) returns (i: Id)
    ensures forall j :: j in used ==> j < i
    decreases |used|
  {
    if used == {} {
      i := 0;
    } else {
      var j :| j in used;
      var k := AboveAll(used - {j});
      i := if j < k then k else j + 1;
      assert forall x :: x in used ==> x == j || x in used - {j};
    }
  }
}
