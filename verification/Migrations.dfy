/** internal/db/migrations.go: any number of processes run the same migrations against one
    database, and each may fail or die at any statement. A runner applies a migration and records
    it in one transaction; the primary key of schema_migrations makes a second INSERT of a name
    wait for the transaction that holds the first. */
module Migrations {
  import M = Model

  type Name = string
  type Runner = nat

  /** Where a runner stands; the number is an index into the sorted names. */
  datatype Phase =
    | Off
    | Opening              // CREATE TABLE IF NOT EXISTS schema_migrations
    | Checking(k: nat)     // SELECT EXISTS
    | Applying(k: nat)     // read the file, BEGIN, execute it
    | Recording(k: nat)    // INSERT the name
    | Committing(k: nat)   // COMMIT; the uncommitted record is held
    | Returned(ok: bool)

  /** The committed migrations in the order of their commits, the committed records, and the runners. */
  datatype State = State(applied: seq<Name>, records: set<Name>, runners: map<Runner, Phase>)

  datatype Event = Start(runner: Runner) | Step(runner: Runner, fault: M.Fault) | Kill(runner: Runner)

  const EMPTY: State := State([], {}, map[])

  function At(s: State, r: Runner): Phase {
    if r in s.runners then s.runners[r] else Off
  }

  predicate Running(p: Phase) {
    !p.Off? && !p.Returned?
  }

  /** Another transaction holds an uncommitted record of the name the runner wants to insert. */
  predicate Blocked(s: State, r: Runner) {
    At(s, r).Recording? && exists h :: h in s.runners && h != r && s.runners[h] == Committing(At(s, r).k)
  }

  predicate Enabled(s: State, e: Event) {
    match e
    case Start(r) => !Running(At(s, r))
    case Step(r, _) => Running(At(s, r)) && !Blocked(s, r)
    case Kill(_) => true
  }

  function Next(names: seq<Name>, k: nat): Phase {
    if k < |names| then Checking(k) else Returned(true)
  }

  /** The next phase of a runner. */
  function Advance(names: seq<Name>, s: State, p: Phase, fault: M.Fault): Phase {
    if !fault.Fine? then Returned(false) else
    match p
    case Opening => Next(names, 0)
    case Checking(k) =>
      if k < |names| && names[k] in s.records then Next(names, k + 1) else Applying(k)
    case Applying(k) => Recording(k)
    case Recording(k) => if k < |names| && names[k] in s.records then Returned(false) else Committing(k)
    case Committing(k) => Next(names, k + 1)
    case _ => p
  }

  predicate Commits(names: seq<Name>, p: Phase, fault: M.Fault) {
    p.Committing? && p.k < |names| && !fault.Lost?
  }

  function Apply(names: seq<Name>, s: State, e: Event): State {
    match e
    case Start(r) => s.(runners := s.runners[r := Opening])
    case Kill(r) => s.(runners := s.runners[r := Off])
    case Step(r, fault) =>
      var p := At(s, r);
      var t := s.(runners := s.runners[r := Advance(names, s, p, fault)]);
      if Commits(names, p, fault)
      then t.(applied := s.applied + [names[p.k]], records := s.records + {names[p.k]})
      else t
  }

  ghost predicate Runs(names: seq<Name>, s: State, trace: seq<Event>)
    decreases |trace|
  {
    trace == [] || (Enabled(s, trace[0]) && Runs(names, Apply(names, s, trace[0]), trace[1..]))
  }

  function After(names: seq<Name>, s: State, trace: seq<Event>): State
    decreases |trace|
  {
    if trace == [] then s else After(names, Apply(names, s, trace[0]), trace[1..])
  }

  // ---- the invariant ----

  predicate Distinct(names: seq<Name>) {
    forall k, l :: 0 <= k < l < |names| ==> names[k] != names[l]
  }

  /** What a runner in phase `p` has made sure of. */
  predicate PhaseOK(names: seq<Name>, applied: seq<Name>, p: Phase) {
    match p
    case Checking(k) => k < |names| && k <= |applied|
    case Applying(k) => k < |names| && k <= |applied|
    case Recording(k) => k < |names| && k <= |applied|
    case Committing(k) => k < |names| && k == |applied|
    case Returned(ok) => ok ==> |applied| == |names|
    case _ => true
  }

  ghost predicate RunnersOK(names: seq<Name>, s: State) {
    && (forall r :: PhaseOK(names, s.applied, At(s, r)))
    && (forall q, r :: At(s, q).Committing? && At(s, r) == At(s, q) ==> q == r)
  }

  /** The committed migrations are a prefix of the sorted names, each with its record. */
  predicate CommittedOK(names: seq<Name>, s: State) {
    s.applied <= names && s.records == set k | 0 <= k < |s.applied| :: s.applied[k]
  }

  ghost predicate MigrationsOK(names: seq<Name>, s: State) {
    CommittedOK(names, s) && RunnersOK(names, s)
  }

  /** A name of the list is recorded exactly when the prefix covers it. */
  lemma RecordedIff(names: seq<Name>, s: State, k: nat)
    requires Distinct(names) && CommittedOK(names, s) && k < |names|
    ensures names[k] in s.records <==> k < |s.applied|
  {
    if k < |s.applied| { assert s.applied[k] == names[k]; }
  }

  lemma CommitKeeps(names: seq<Name>, s: State, k: nat, t: State)
    requires CommittedOK(names, s) && k == |s.applied| < |names|
    requires t.applied == s.applied + [names[k]] && t.records == s.records + {names[k]}
    ensures CommittedOK(names, t)
  {
    forall n ensures n in t.records <==> exists l :: 0 <= l < |t.applied| && t.applied[l] == n {
      if n in s.records {
        var l :| 0 <= l < |s.applied| && s.applied[l] == n;
        assert t.applied[l] == n;
      }
      assert t.applied[k] == names[k];
    }
  }

  lemma StepKeeps(names: seq<Name>, s: State, r: Runner, fault: M.Fault)
    requires Distinct(names) && MigrationsOK(names, s) && Enabled(s, Step(r, fault))
    ensures MigrationsOK(names, Apply(names, s, Step(r, fault)))
  {
    var t := Apply(names, s, Step(r, fault));
    var p := At(s, r);
    assert PhaseOK(names, s.applied, p);
    if p.Committing? || p.Recording? || p.Checking? { RecordedIff(names, s, p.k); }
    if Commits(names, p, fault) { CommitKeeps(names, s, p.k, t); }
    forall q ensures PhaseOK(names, t.applied, At(t, q)) {
      assert PhaseOK(names, s.applied, At(s, q));
      assert At(s, q).Committing? && p == At(s, q) ==> q == r;
    }
    assert forall q :: At(t, q) == if q == r then Advance(names, s, p, fault) else At(s, q);
  }

  lemma EventKeeps(names: seq<Name>, s: State, e: Event)
    requires Distinct(names) && MigrationsOK(names, s) && Enabled(s, e)
    ensures MigrationsOK(names, Apply(names, s, e)) && s.applied <= Apply(names, s, e).applied
  {
    if e.Step? {
      StepKeeps(names, s, e.runner, e.fault);
    } else {
      var t := Apply(names, s, e);
      assert forall q :: At(t, q) == if q == e.runner then (if e.Start? then Opening else Off) else At(s, q);
    }
  }

  lemma {:induction false} RunKeeps(names: seq<Name>, s: State, trace: seq<Event>)
    requires Distinct(names) && MigrationsOK(names, s) && Runs(names, s, trace)
    ensures MigrationsOK(names, After(names, s, trace)) && s.applied <= After(names, s, trace).applied
    decreases |trace|
  {
    if trace != [] {
      EventKeeps(names, s, trace[0]);
      RunKeeps(names, Apply(names, s, trace[0]), trace[1..]);
    }
  }

  /** Whatever runners do, fail at and die of: migrations are committed in the order of their names,
      without gap or repetition, each together with its record; and a runner that returns success
      has seen all of them committed. */
  lemma OnceInOrder(names: seq<Name>, trace: seq<Event>)
    requires Distinct(names) && Runs(names, EMPTY, trace)
    ensures var s := After(names, EMPTY, trace);
      && s.applied <= names && Distinct(s.applied)
      && (forall n :: n in s.records <==> n in s.applied)
      && (forall r :: At(s, r) == Returned(true) ==> s.applied == names)
  {
    RunKeeps(names, EMPTY, trace);
    var s := After(names, EMPTY, trace);
    forall r | At(s, r) == Returned(true) ensures s.applied == names {
      assert PhaseOK(names, s.applied, At(s, r));
    }
  }

  /** A committed migration is never undone, moved or applied again. */
  lemma NothingUndone(names: seq<Name>, before: seq<Event>, trace: seq<Event>)
    requires Distinct(names) && Runs(names, EMPTY, before) && Runs(names, After(names, EMPTY, before), trace)
    ensures After(names, EMPTY, before).applied <= After(names, After(names, EMPTY, before), trace).applied
  {
    RunKeeps(names, EMPTY, before);
    RunKeeps(names, After(names, EMPTY, before), trace);
  }

  lemma OthersStay(names: seq<Name>, s: State, e: Event)
    ensures forall q :: q != e.runner ==> At(Apply(names, s, e), q) == At(s, q)
  {
  }

  /** The end of the transaction of runner `h`: its COMMIT, with the fault it meets, or its death. */
  predicate Ends(e: Event, h: Runner) {
    !e.Start? && e.runner == h
  }

  /** When the transaction that held the name has ended, the waiting INSERT goes on. */
  lemma Unblocked(names: seq<Name>, s: State, r: Runner, holder: Runner, e: Event)
    requires RunnersOK(names, s) && At(s, r).Recording? && holder != r && At(s, holder) == Committing(At(s, r).k)
    requires Ends(e, holder)
    ensures !Blocked(Apply(names, s, e), r)
  {
    var t := Apply(names, s, e);
    OthersStay(names, s, e);
    forall h | h in t.runners && h != r ensures t.runners[h] != Committing(At(s, r).k) {
      assert At(t, h) == if h == holder then At(t, holder) else At(s, h);
    }
  }

  /** The waiting INSERT succeeds if that transaction was rolled back or its runner died, and fails
      on the primary key if it was committed, even if its COMMIT reported an error. */
  lemma WaitDecides(names: seq<Name>, s: State, r: Runner, holder: Runner, e: Event)
    requires Distinct(names) && MigrationsOK(names, s) && Ends(e, holder)
    requires At(s, r).Recording? && holder != r && At(s, holder) == Committing(At(s, r).k)
    ensures var t, k := Apply(names, s, e), At(s, r).k;
      At(Apply(names, t, Step(r, M.Fine)), r) ==
        if e.Kill? || e.fault.Lost? then Committing(k) else Returned(false)
  {
    assert PhaseOK(names, s.applied, At(s, holder));
    RecordedIff(names, s, At(s, r).k);
    OthersStay(names, s, e);
  }

  // ---- RunMigrations ----

  /** What happens before the next statement: events of the other runners, and the fault it meets.
      `held` is the fault met by the COMMIT of a transaction it has to wait for, None if that
      transaction's runner dies. */
  datatype Turn = Turn(others: seq<Event>, fault: M.Fault, held: M.Option<M.Fault>)

  predicate Calm(script: seq<Turn>) {
    forall k :: 0 <= k < |script| ==> script[k].others == [] && script[k].fault.Fine?
  }

  class Database {
    const names: seq<Name>
    var state: State
    var script: seq<Turn>

    constructor (names: seq<Name>, script: seq<Turn>)
      requires Distinct(names)
      ensures Valid() && this.names == names && state == EMPTY && this.script == script
    {
      this.names := names;
      this.script := script;
      state := EMPTY;
    }

    ghost predicate Valid()
      reads this
    {
      Distinct(names) && MigrationsOK(names, state)
    }

    method Do(e: Event)
      requires Valid() && Enabled(state, e)
      modifies this`state
      ensures Valid() && state == Apply(names, old(state), e) && old(state.applied) <= state.applied
    {
      EventKeeps(names, state, e);
      state := Apply(names, state, e);
    }

    /** The other runners' turn. */
    method Yield(r: Runner) returns (fault: M.Fault, held: M.Option<M.Fault>)
      requires Valid()
      modifies this
      ensures Valid() && At(state, r) == old(At(state, r)) && old(state.applied) <= state.applied
      ensures Calm(old(script)) ==> fault.Fine? && state == old(state) && Calm(script)
    {
      if script == [] {
        return M.Fine, M.None;
      }
      var turn := script[0];
      script := script[1..];
      fault, held := turn.fault, turn.held;
      var k := 0;
      while k < |turn.others|
        invariant 0 <= k <= |turn.others| && script == old(script)[1..]
        invariant Valid() && At(state, r) == old(At(state, r)) && old(state.applied) <= state.applied
        invariant k == 0 ==> state == old(state)
      {
        var e := turn.others[k];
        if e.runner != r && Enabled(state, e) {
          Do(e);
        }
        k := k + 1;
      }
    }

    /** One statement of `r` that never has to wait. */
    method Exec(r: Runner) returns (fault: M.Fault, met: State)
      requires Valid() && Running(At(state, r)) && !At(state, r).Recording?
      modifies this
      ensures Valid() && old(state.applied) <= state.applied
      ensures At(met, r) == old(At(state, r)) && state == Apply(names, met, Step(r, fault))
      ensures Calm(old(script)) ==> fault.Fine? && met == old(state) && Calm(script)
      ensures Calm(old(script)) && Alone(old(state), r) ==> Alone(state, r)
    {
      var turn, _ := Yield(r);
      fault, met := turn, state;
      OthersStay(names, met, Step(r, fault));
      Do(Step(r, fault));
    }

    /** The INSERT of the record; it waits for the end of a transaction that holds the same name. It
        succeeds exactly if the name is not recorded in the state it meets then. */
    method Record(r: Runner, k: nat) returns (ok: bool, ghost fault: M.Fault, ghost met: State)
      requires Valid() && At(state, r) == Recording(k)
      modifies this
      ensures Valid() && old(state.applied) <= met.applied && k < |names|
      ensures At(met, r) == Recording(k) && !Blocked(met, r) && state == Apply(names, met, Step(r, fault))
      ensures ok <==> fault.Fine? && names[k] !in met.records
      ensures At(state, r) == if ok then Committing(k) else Returned(false)
      ensures Calm(old(script)) && Alone(old(state), r) ==>
        Calm(script) && fault.Fine? && met == old(state) && Alone(state, r)
    {
      var mine, held := Yield(r);
      if Blocked(state, r) {
        var holder :| holder in state.runners && holder != r && state.runners[holder] == Committing(k);
        var e := if held.Some? then Step(holder, held.value) else Kill(holder);
        Unblocked(names, state, r, holder, e);
        Do(e);
      }
      assert PhaseOK(names, state.applied, At(state, r));
      fault, met := mine, state;
      ok := mine.Fine? && names[k] !in state.records;
      OthersStay(names, state, Step(r, mine));
      Do(Step(r, mine));
    }

    /** RunMigrations. On success everything is committed; if no other runner is under way and no
        call fails, it succeeds. */
    method RunMigrations(r: Runner) returns (ok: bool)
      requires Valid() && !Running(At(state, r))
      modifies this
      ensures Valid() && old(state.applied) <= state.applied && At(state, r) == Returned(ok)
      ensures ok ==> state.applied == names
      ensures Calm(old(script)) && Alone(old(state), r) ==> ok
    {
      OthersStay(names, state, Start(r));
      Do(Start(r));
      var fault, _ := Exec(r);
      if !fault.Fine? {
        return false;
      }
      var k := 0;
      while k < |names|
        invariant 0 <= k <= |names| && Valid() && old(state.applied) <= state.applied
        invariant At(state, r) == Next(names, k)
        invariant Calm(old(script)) && Alone(old(state), r) ==> Calm(script) && Alone(state, r)
      {
        ok := Migrate(r, k);
        if !ok {
          return;
        }
        k := k + 1;
      }
      assert PhaseOK(names, state.applied, At(state, r));
      ok := true;
    }

    /** One round of the loop: check, apply, record, commit. */
    method Migrate(r: Runner, k: nat) returns (ok: bool)
      requires Valid() && At(state, r) == Checking(k) && k < |names|
      modifies this
      ensures Valid() && old(state.applied) <= state.applied
      ensures At(state, r) == if ok then Next(names, k + 1) else Returned(false)
      ensures ok ==> k < |state.applied|
      ensures Calm(old(script)) && Alone(old(state), r) ==> ok && Calm(script) && Alone(state, r)
    {
      var fault, met := Exec(r);
      if !fault.Fine? {
        return false;
      }
      if names[k] in met.records {
        assert PhaseOK(names, state.applied, At(state, r));
        return true;
      }
      fault, met := Exec(r);
      if !fault.Fine? {
        return false;
      }
      ghost var recorded, waited;
      ok, recorded, waited := Record(r, k);
      if !ok {
        return;
      }
      fault, met := Exec(r);
      ok := fault.Fine?;
      assert PhaseOK(names, state.applied, At(state, r));
    }
  }

  /** No other runner is under way. */
  ghost predicate Alone(s: State, r: Runner) {
    forall q :: q != r ==> !Running(At(s, q))
  }
}
