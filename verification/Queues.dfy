/** internal/queue/manager.go and the scheduler of internal/worker/pool.go, command by command
    over a World. */
module Queues {
  import opened Model
  import opened Machine
  import opened Backoff
  import opened Copies
  import opened Worlds
  import opened Workers
  import Metrics

  /** The job a call of DequeueNext takes when nobody interferes. */
  function MostUrgent(s: State, ch: Channel): Option<Job> {
    match FirstFull(s, ch)
    case Some(q) => if Seq(s.lists, q) == [] then None else Some(Seq(s.lists, q)[0])
    case None => None
  }

  /** The lists before `index` in DequeueNext's order are empty. */
  predicate EmptyBefore(s: State, ch: Channel, index: nat) {
    && (index > 0 ==> Seq(s.lists, Queue(ch, High)) == [])
    && (index > 1 ==> Seq(s.lists, Queue(ch, Normal)) == [])
    && (index > 2 ==> Seq(s.lists, Queue(ch, Low)) == [])
  }

  /** The head of list `q` has been taken. */
  function Popped(s: State, q: Queue): State {
    if Seq(s.lists, q) == [] then s else s.(lists := s.lists[q := Seq(s.lists, q)[1..]])
  }

  /** The most urgent job of the channel, if any, has been taken. */
  function Taken(s: State, ch: Channel): State {
    if FirstFull(s, ch).Some? then Popped(s, FirstFull(s, ch).value) else s
  }

  /** RPOP on one list. */
  method Probe(w: World, a: ActorId, ch: Channel, index: nat) returns (failed: bool, taken: Option<Job>)
    requires w.Valid() && At(w.state, a) == Probing(ch, index) && index < 3
    modifies w
    ensures w.Continues(old(w.start), old(w.log))
    ensures w.Valid()
    ensures At(w.state, a) ==
      if taken.Some? then Worker(taken.value, Throttle) else if failed then Idle else Probing(ch, index + 1)
    ensures Calm(old(w.script)) ==>
      var list := Seq(old(w.state.lists), Queue(ch, Nth(index)));
      && Calm(w.script) && !failed && taken == (if list == [] then None else Some(list[0]))
      && SameStores(Popped(old(w.state), Queue(ch, Nth(index))), w.state)
  {
    var fault, met := w.Step(a, true);
    var list := Seq(met.lists, Queue(ch, Nth(index)));
    failed := fault != Fine;
    taken := if failed || list == [] then None else Some(list[0]);
  }

  /** What BRPOP takes when the call succeeds. */
  lemma BlockTakes(s: State, a: ActorId, ch: Channel)
    ensures var fx := MoveProbing(s, a, Probing(ch, 3), Fine);
      match FirstFull(s, ch)
      case None => fx == Go(0, Idle)
      case Some(q) => Seq(s.lists, q) != [] && fx == Receive(a, Seq(s.lists, q)[0], q, Fine)
  {
  }

  lemma BlockEffect(s: State, a: ActorId, ch: Channel, fault: Fault)
    requires At(s, a) == Probing(ch, 3)
    ensures var t := Commit(s, a, Move(s, a, Choice(fault, true, 0, 0)));
      && At(t, a) == (if fault == Fine && MostUrgent(s, ch).Some?
                      then Worker(MostUrgent(s, ch).value, Throttle) else Idle)
      && (fault == Fine ==> SameStores(Taken(s, ch), t))
  {
    BlockTakes(s, a, ch);
  }

  /** BRPOP on the three lists. */
  method Block(w: World, a: ActorId, ch: Channel) returns (taken: Option<Job>)
    requires w.Valid() && At(w.state, a) == Probing(ch, 3)
    modifies w
    ensures w.Continues(old(w.start), old(w.log))
    ensures w.Valid()
    ensures At(w.state, a) == if taken.Some? then Worker(taken.value, Throttle) else Idle
    ensures Calm(old(w.script)) ==>
      && Calm(w.script) && taken == MostUrgent(old(w.state), ch)
      && SameStores(Taken(old(w.state), ch), w.state)
  {
    var fault, met := w.Step(a, true);
    taken := if fault == Fine then MostUrgent(met, ch) else None;
    BlockEffect(met, a, ch, fault);
  }

  lemma FirstFullAt(s: State, ch: Channel, index: nat)
    requires index < 3 && EmptyBefore(s, ch, index) && Seq(s.lists, Queue(ch, Nth(index))) != []
    ensures FirstFull(s, ch) == Some(Queue(ch, Nth(index)))
  {
  }

  /** Probes high, normal and low, then blocks on all three. */
  method DequeueNext(w: World, a: ActorId, ch: Channel) returns (taken: Option<Job>)
    requires w.Valid() && At(w.state, a) == Idle
    modifies w
    ensures w.Continues(old(w.start), old(w.log))
    ensures w.Valid()
    ensures At(w.state, a) == if taken.Some? then Worker(taken.value, Throttle) else Idle
    ensures Calm(old(w.script)) ==>
      var s := old(w.state);
      && Calm(w.script) && taken == MostUrgent(s, ch)
      && SameStores(Taken(s, ch), w.state)
  {
    w.Do(Dequeue(a, ch));
    var index: nat := 0;
    while index < 3
      invariant index <= 3 && w.Valid() && At(w.state, a) == Probing(ch, index)
      invariant w.Continues(old(w.start), old(w.log))
      invariant Calm(old(w.script)) ==>
        Calm(w.script) && SameStores(old(w.state), w.state) && EmptyBefore(old(w.state), ch, index)
    {
      var failed;
      failed, taken := Probe(w, a, ch, index);
      if failed || taken.Some? {
        if Calm(old(w.script)) { FirstFullAt(old(w.state), ch, index); }
        return;
      }
      index := index + 1;
    }
    taken := Block(w, a, ch);
  }

  // ---- scheduler ----

  lemma {:induction false} LeastScore(s: State, jobs: set<Job>)
    requires jobs != {}
    ensures exists job :: job in jobs && forall other :: other in jobs ==> ScoreOf(s, job) <= ScoreOf(s, other)
    decreases |jobs|
  {
    var one :| one in jobs;
    if jobs != {one} {
      LeastScore(s, jobs - {one});
      var rest := jobs - {one};
      var best :| best in rest && forall other :: other in rest ==> ScoreOf(s, best) <= ScoreOf(s, other);
      var least := if ScoreOf(s, one) < ScoreOf(s, best) then one else best;
      assert forall other :: other in jobs ==> other == one || other in jobs - {one};
      assert least in jobs && forall other :: other in jobs ==> ScoreOf(s, least) <= ScoreOf(s, other);
    } else {
      assert forall other :: other in jobs ==> other == one;
    }
  }

  /** ZRANGEBYSCORE -inf now: every due member once, by ascending score. */
  method DueJobs(s: State, asOf: int) returns (found: seq<Job>)
    ensures forall job :: job in found ==> Due(s, job, asOf)
    ensures forall job :: job in s.sched && Due(s, job, asOf) ==> job in found
    ensures forall k, l :: 0 <= k < l < |found| ==> found[k] != found[l]
    ensures ByScore(s, found)
  {
    found := [];
    var rest := set job | job in s.sched && s.sched[job] <= Secs(asOf);
    while rest != {}
      invariant forall job :: job in rest ==> Due(s, job, asOf)
      invariant forall job :: job in found ==> Due(s, job, asOf) && job !in rest
      invariant forall job :: job in s.sched && Due(s, job, asOf) ==> job in found || job in rest
      invariant forall k, l :: 0 <= k < l < |found| ==> found[k] != found[l]
      invariant ByScore(s, found)
      invariant forall k, job :: 0 <= k < |found| && job in rest ==> ScoreOf(s, found[k]) <= ScoreOf(s, job)
      decreases |rest|
    {
      LeastScore(s, rest);
      var job :| job in rest && forall other :: other in rest ==> ScoreOf(s, job) <= ScoreOf(s, other);
      rest := rest - {job};
      found := found + [job];
    }
  }

  /** ZREM of one found member. */
  method Claim(w: World, a: ActorId, found: seq<Job>, due: seq<Job>) returns (claimed: bool)
    requires w.Valid() && At(w.state, a) == Sweeping(found, due) && found != []
    modifies w
    ensures w.Continues(old(w.start), old(w.log))
    ensures w.Valid()
    ensures At(w.state, a) == Sweeping(found[1..], if claimed then due + [found[0]] else due)
    ensures Calm(old(w.script)) ==>
      && Calm(w.script) && claimed == (found[0] in old(w.state.sched))
      && SameStores(old(w.state).(sched := old(w.state.sched) - {found[0]}), w.state)
  {
    var fault, met := w.Step(a, true);
    claimed := fault == Fine && found[0] in met.sched;
  }

  /** Without the claimed members. */
  function Without(s: State, due: seq<Job>): State {
    s.(sched := s.sched - (set job | job in due))
  }

  /** One more claimed member. */
  lemma ClaimNext(s: State, mid: State, t: State, found: seq<Job>, k: nat)
    requires k < |found| && found[k] in s.sched
    requires forall l, m :: 0 <= l < m < |found| ==> found[l] != found[m]
    requires SameStores(Without(s, found[..k]), mid)
    requires SameStores(mid.(sched := mid.sched - {found[k]}), t)
    ensures found[k] in mid.sched && SameStores(Without(s, found[..k + 1]), t)
  {
    assert found[k] !in found[..k];
    assert found[..k + 1] == found[..k] + [found[k]];
  }

  lemma Slices(found: seq<Job>, k: nat)
    requires k < |found|
    ensures found[k..] != [] && found[k..][0] == found[k] && found[k..][1..] == found[k + 1..]
    ensures found[..k] + [found[k]] == found[..k + 1]
  {
  }

  /** The ZREM loop. */
  method ClaimAll(w: World, a: ActorId, found: seq<Job>) returns (due: seq<Job>)
    requires w.Valid() && At(w.state, a) == Sweeping(found, [])
    requires forall job :: job in found ==> job in w.state.sched
    requires forall l, m :: 0 <= l < m < |found| ==> found[l] != found[m]
    modifies w
    ensures w.Continues(old(w.start), old(w.log))
    ensures w.Valid() && At(w.state, a) == Sweeping([], due)
    ensures Calm(old(w.script)) ==> Calm(w.script) && due == found && SameStores(Without(old(w.state), found), w.state)
  {
    due := [];
    var k := 0;
    while k < |found|
      invariant 0 <= k <= |found| && w.Valid() && At(w.state, a) == Sweeping(found[k..], due)
      invariant w.Continues(old(w.start), old(w.log))
      invariant Calm(old(w.script)) ==> Calm(w.script) && due == found[..k]
      invariant Calm(old(w.script)) ==> SameStores(Without(old(w.state), found[..k]), w.state)
    {
      Slices(found, k);
      ghost var mid := w.state;
      var claimed := Claim(w, a, found[k..], due);
      if Calm(old(w.script)) { ClaimNext(old(w.state), mid, w.state, found, k); }
      if claimed {
        due := due + [found[k]];
      }
      k := k + 1;
    }
    assert found[..k] == found;
  }

  /** Claims by removal every member that was due. */
  method PopDueScheduled(w: World, a: ActorId) returns (due: seq<Job>)
    requires w.Valid() && At(w.state, a) == Idle
    modifies w
    ensures w.Continues(old(w.start), old(w.log))
    ensures w.Valid() && At(w.state, a) == Sweeping([], due)
    ensures Calm(old(w.script)) ==>
      && Calm(w.script) && SameStores(Without(old(w.state), due), w.state)
      && (forall job :: job in due <==> Due(old(w.state), job, old(w.state.now)))
      && (forall job :: job in due ==> job in old(w.state.sched))
      && (forall k, l :: 0 <= k < l < |due| ==> old(w.state.sched)[due[k]] <= old(w.state.sched)[due[l]])
    ensures DistinctIds(due)
  {
    var now := w.state.now;
    var fault := w.Yield(a);
    var found := DueJobs(w.state, now);
    w.Do(Sweep(a, now, found, fault));
    if fault != Fine {
      return [];
    }
    due := ClaimAll(w, a, found);
    w.IsReachable();
    assert Tidy(At(w.state, a));
  }

  // ---- processScheduled ----

  /** The job has joined its list. */
  function Appended(s: State, job: Job): State {
    s.(lists := s.lists[job.queue := Seq(s.lists, job.queue) + [job]])
  }

  /** The row is not in a final status. */
  predicate Unfinished(rows: map<Id, Row>, i: Id) {
    i in rows && !Terminal(rows[i].status)
  }

  /** What becomes of one due job when nobody interferes. */
  function Released(s: State, job: Job): State {
    if Unfinished(s.rows, job.id)
    then Appended(s.(rows := s.rows[job.id := Unscheduled(s.rows[job.id], true)]), job)
    else s
  }

  function Unscheduled(row: Row, due: bool): Row {
    if due && row.status == Scheduled then row.(status := Queued) else row
  }

  function ReleasedAll(s: State, due: seq<Job>): State
    decreases |due|
  {
    if due == [] then s else ReleasedAll(Released(s, due[0]), due[1..])
  }

  method CurrentStatus(w: World, a: ActorId, ghost due: seq<Job>, id: Id) returns (ok: bool, status: Status)
    requires w.Valid() && At(w.state, a) == Sweeping([], due) && due != [] && due[0].id == id
    modifies w
    ensures w.Continues(old(w.start), old(w.log))
    ensures w.Valid()
    ensures At(w.state, a) ==
      if !ok || Terminal(status) then Sweeping([], due[1..])
      else Sweeper([], due, if status == Scheduled then Unschedule else Requeue)
    ensures Calm(old(w.script)) ==>
      && Calm(w.script) && SameStores(old(w.state), w.state)
      && ok == (id in old(w.state.rows)) && (ok ==> status == old(w.state.rows)[id].status)
  {
    var fault, met := w.Step(a, true);
    ok := fault == Fine && id in met.rows;
    status := RowOf(met, id).status;
  }

  /** updateStatus with 'queued'. */
  method UpdateToQueued(w: World, a: ActorId, ghost due: seq<Job>, id: Id) returns (ok: bool)
    requires w.Valid() && At(w.state, a) == Sweeper([], due, Unschedule) && due != [] && due[0].id == id
    modifies w
    ensures w.Continues(old(w.start), old(w.log))
    ensures w.Valid()
    ensures At(w.state, a) == if ok then Sweeper([], due, Requeue) else Sweeping([], due[1..])
    ensures Calm(old(w.script)) && id in old(w.state.rows) ==>
      && Calm(w.script) && ok
      && SameStores(old(w.state).(rows := old(w.state.rows)[id := old(w.state.rows)[id].(status := Queued)]), w.state)
  {
    var fault, _ := w.Step(a, true);
    ok := fault == Fine;
  }

  /** Enqueue by the scheduler: LPUSH. */
  method PushBack(w: World, a: ActorId, job: Job, ghost due: seq<Job>) returns (ok: bool)
    requires w.Valid() && At(w.state, a) == Sweeper([], due, Requeue) && due != [] && due[0] == job
    modifies w
    ensures w.Continues(old(w.start), old(w.log))
    ensures w.Valid() && At(w.state, a) == Sweeping([], due[1..])
    ensures Calm(old(w.script)) ==>
      && Calm(w.script) && ok
      && SameStores(Appended(old(w.state), job), w.state)
  {
    var fault, _ := w.Step(a, true);
    ok := fault == Fine;
  }

  /** The body of processScheduled's loop. */
  method Release(w: World, a: ActorId, due: seq<Job>)
    requires w.Valid() && At(w.state, a) == Sweeping([], due) && due != []
    modifies w
    ensures w.Continues(old(w.start), old(w.log))
    ensures w.Valid() && At(w.state, a) == Sweeping([], due[1..])
    ensures Calm(old(w.script)) ==> Calm(w.script) && SameStores(Released(old(w.state), due[0]), w.state)
  {
    var job := due[0];
    var ok, status := CurrentStatus(w, a, due, job.id);
    if !ok || Terminal(status) {
      return;
    }
    if status == Scheduled {
      var updated := UpdateToQueued(w, a, due, job.id);
      if !updated {
        return;
      }
    }
    var _ := PushBack(w, a, job, due);
  }

  method ReleaseAll(w: World, a: ActorId, due: seq<Job>)
    requires w.Valid() && At(w.state, a) == Sweeping([], due)
    modifies w
    ensures w.Continues(old(w.start), old(w.log))
    ensures w.Valid() && At(w.state, a) == Idle
    ensures Calm(old(w.script)) ==> Calm(w.script) && SameStores(ReleasedAll(old(w.state), due), w.state)
  {
    var k := 0;
    while k < |due|
      invariant 0 <= k <= |due| && w.Valid() && At(w.state, a) == Sweeping([], due[k..])
      invariant w.Continues(old(w.start), old(w.log))
      invariant Calm(old(w.script)) ==>
        Calm(w.script) && SameStores(ReleasedAll(old(w.state), due), ReleasedAll(w.state, due[k..]))
    {
      Slices(due, k);
      ghost var before := w.state;
      Release(w, a, due[k..]);
      if Calm(old(w.script)) { SameRelease(Released(before, due[k]), w.state, due[k + 1..]); }
      k := k + 1;
    }
  }

  lemma {:induction false} SameRelease(s: State, t: State, due: seq<Job>)
    requires SameStores(s, t)
    ensures SameStores(ReleasedAll(s, due), ReleasedAll(t, due))
    decreases |due|
  {
    if due != [] {
      SameReleased(s, t, due[0]);
      SameRelease(Released(s, due[0]), Released(t, due[0]), due[1..]);
    }
  }

  lemma SameReleased(s: State, t: State, job: Job)
    requires SameStores(s, t)
    ensures SameStores(Released(s, job), Released(t, job))
  {
  }

  lemma ReleasedRow(s: State, job: Job, i: Id)
    ensures i in Released(s, job).rows <==> i in s.rows
    ensures i in s.rows ==> Released(s, job).rows[i] == Unscheduled(s.rows[i], job.id == i)
  {
  }

  /** Exactly the due rows that were scheduled become queued; no other row changes. */
  lemma {:induction false} ReleasedRows(s: State, due: seq<Job>, i: Id)
    requires DistinctIds(due) && i in s.rows
    ensures i in ReleasedAll(s, due).rows
    ensures ReleasedAll(s, due).rows[i] == Unscheduled(s.rows[i], InJobs(due, i))
    decreases |due|
  {
    if due != [] {
      assert due[0].id == i ==> InJobs(due, i);
      InTail(due, i);
      ReleasedRow(s, due[0], i);
      ReleasedRows(Released(s, due[0]), due[1..], i);
    }
  }

  /** The jobs of unfinished rows that belong into list `q`. */
  function Returning(rows: map<Id, Row>, due: seq<Job>, q: Queue): seq<Job>
    decreases |due|
  {
    if due == [] then []
    else (if Unfinished(rows, due[0].id) && due[0].queue == q then [due[0]] else []) + Returning(rows, due[1..], q)
  }

  lemma {:induction false} SameReturning(rows: map<Id, Row>, later: map<Id, Row>, due: seq<Job>, q: Queue)
    requires forall i :: Unfinished(rows, i) <==> Unfinished(later, i)
    ensures Returning(rows, due, q) == Returning(later, due, q)
    decreases |due|
  {
    if due != [] { SameReturning(rows, later, due[1..], q); }
  }

  /** Every list gains exactly the due jobs of unfinished rows that belong into it, at its end. */
  lemma {:induction false} ReleasedLists(s: State, due: seq<Job>, q: Queue)
    ensures Seq(ReleasedAll(s, due).lists, q) == Seq(s.lists, q) + Returning(s.rows, due, q)
    decreases |due|
  {
    if due != [] {
      var t := Released(s, due[0]);
      ReleasedLists(t, due[1..], q);
      forall i ensures Unfinished(s.rows, i) <==> Unfinished(t.rows, i) { ReleasedRow(s, due[0], i); }
      SameReturning(s.rows, t.rows, due[1..], q);
      ReleasedList(s, due[0], q);
    }
  }

  lemma ReleasedList(s: State, job: Job, q: Queue)
    ensures Seq(Released(s, job).lists, q)
         == Seq(s.lists, q) + if Unfinished(s.rows, job.id) && job.queue == q then [job] else []
  {
  }

  /** A job of the notification is due. */
  ghost predicate IsDue(s: State, i: Id) {
    exists job: Job :: Due(s, job, s.now) && job.id == i
  }

  /** Without interference: exactly the due rows that were scheduled have become queued, and every
      list has gained exactly the due jobs of unfinished rows that belong into it, each once and those
      due earlier first. */
  ghost predicate ScheduledOnce(s: State, t: State, due: seq<Job>) {
    && DistinctIds(due) && (forall job :: job in due <==> Due(s, job, s.now))
    && (forall job :: job in due ==> job in s.sched)
    && (forall k, l :: 0 <= k < l < |due| ==> s.sched[due[k]] <= s.sched[due[l]])
    && t.rows.Keys == s.rows.Keys
    && (forall i :: i in s.rows ==> i in t.rows && t.rows[i] == Unscheduled(s.rows[i], IsDue(s, i)))
    && (forall q :: Seq(t.lists, q) == Seq(s.lists, q) + Returning(s.rows, due, q))
    && t.sched == s.sched - (set job | job in due)
    && t.batches == s.batches && t.cache == s.cache && t.now == s.now
  }

  /** No row comes or goes, and the stores beside rows and lists are the same. */
  predicate SameBeside(s: State, t: State) {
    && t.rows.Keys == s.rows.Keys
    && t.sched == s.sched && t.batches == s.batches && t.cache == s.cache && t.now == s.now
  }

  lemma ReleasedBeside(s: State, job: Job)
    ensures SameBeside(s, Released(s, job))
  {
    if Unfinished(s.rows, job.id) { KeysStay(s.rows, job.id, Unscheduled(s.rows[job.id], true)); }
  }

  lemma KeysStay(rows: map<Id, Row>, i: Id, row: Row)
    requires i in rows
    ensures rows[i := row].Keys == rows.Keys
  {
  }

  lemma {:induction false} ReleasedRest(s: State, due: seq<Job>)
    ensures SameBeside(s, ReleasedAll(s, due))
    decreases |due|
  {
    if due != [] {
      ReleasedBeside(s, due[0]);
      ReleasedRest(Released(s, due[0]), due[1..]);
    }
  }

  lemma RoundIsOnce(s: State, mid: State, t: State, due: seq<Job>)
    requires DistinctIds(due) && (forall job :: job in due <==> Due(s, job, s.now))
    requires forall job :: job in due ==> job in s.sched
    requires forall k, l :: 0 <= k < l < |due| ==> s.sched[due[k]] <= s.sched[due[l]]
    requires SameStores(Without(s, due), mid) && SameStores(ReleasedAll(mid, due), t)
    ensures ScheduledOnce(s, t, due)
  {
    ReleasedRest(mid, due);
    forall i | i in s.rows ensures i in t.rows && t.rows[i] == Unscheduled(s.rows[i], IsDue(s, i)) {
      ReleasedRows(mid, due, i);
      DueJob(s, due, i);
    }
    forall q ensures Seq(t.lists, q) == Seq(s.lists, q) + Returning(s.rows, due, q) { ReleasedLists(mid, due, q); }
  }

  lemma DueJob(s: State, due: seq<Job>, i: Id)
    requires forall job :: job in due <==> Due(s, job, s.now)
    ensures IsDue(s, i) <==> InJobs(due, i)
  {
    if job: Job :| Due(s, job, s.now) && job.id == i {
      assert job in due;
    }
    if k :| 0 <= k < |due| && due[k].id == i {
      assert due[k] in due;
    }
  }

  /** processScheduled: every due job is claimed and put back into its live list. */
  method ProcessScheduled(w: World, a: ActorId) returns (ghost due: seq<Job>)
    requires w.Valid() && At(w.state, a) == Idle
    modifies w
    ensures w.Continues(old(w.start), old(w.log))
    ensures w.Valid() && At(w.state, a) == Idle && DistinctIds(due)
    ensures Calm(old(w.script)) ==> Calm(w.script) && ScheduledOnce(old(w.state), w.state, due)
  {
    var jobs := PopDueScheduled(w, a);
    due := jobs;
    ghost var mid := w.state;
    ReleaseAll(w, a, jobs);
    if Calm(old(w.script)) { RoundIsOnce(old(w.state), mid, w.state, due); }
  }

  // ---- runWorker ----

  /** limiter.Wait: it lets the job pass, or gives it up. */
  method Wait(w: World, a: ActorId, ghost job: Job, passes: bool)
    requires w.Valid() && At(w.state, a) == Worker(job, Throttle)
    modifies w
    ensures w.Continues(old(w.start), old(w.log))
    ensures w.Valid() && At(w.state, a) == if passes then Worker(job, Load) else Idle
    ensures Calm(old(w.script)) ==> Calm(w.script) && SameStores(old(w.state), w.state)
  {
    var _, _ := w.Step(a, passes);
  }

  /** What a popped job comes to when nobody interferes. */
  ghost predicate Served(s: State, t: State, job: Job, accepted: bool) {
    if CanClaim(s, job.id) then Sent(s, t, job, accepted) else SameStores(s, t)
  }

  lemma SameServed(s: State, mid: State, t: State, job: Job, accepted: bool)
    requires SameStores(s, mid) && Served(mid, t, job, accepted)
    ensures Served(s, t, job, accepted)
  {
  }

  /** What a round counts: a send with its latency and its answer, if it came to one. */
  twostate predicate Metered(m: Metrics.Collector, sent: bool, accepted: bool, elapsed: int)
    reads m
  {
    && m.recorded == old(m.recorded) + (if sent then [elapsed] else [])
    && m.sent == old(m.sent) + (if sent && accepted then 1 else 0)
    && m.failed == old(m.failed) + (if sent && !accepted then 1 else 0)
    && old(m.retried) <= m.retried <= old(m.retried) + (m.failed - old(m.failed))
  }

  /** The rest of a round after the job has been popped. */
  method Serve(w: World, a: ActorId, job: Job, m: Metrics.Collector, passes: bool, accepted: bool, elapsed: int)
    returns (sent: bool)
    requires w.Valid() && m.Valid() && At(w.state, a) == Worker(job, Throttle)
    modifies w, m
    ensures w.Continues(old(w.start), old(w.log))
    ensures w.Valid() && m.Valid() && At(w.state, a) == Idle
    ensures Metered(m, sent, accepted, elapsed) && (sent ==> passes)
    ensures Calm(old(w.script)) ==>
      && sent == (passes && CanClaim(old(w.state), job.id))
      && if passes then Served(old(w.state), w.state, job, accepted) else SameStores(old(w.state), w.state)
  {
    Wait(w, a, job, passes);
    if !passes {
      return false;
    }
    ghost var mid := w.state;
    var n := new Notification(job);
    sent := Process(w, a, n, m, accepted, elapsed);
    if Calm(old(w.script)) { SameServed(old(w.state), mid, w.state, job, accepted); }
  }

  /** One round of runWorker's loop: the most urgent job is popped and served, or given up by the
      limiter; exactly a send is counted. */
  method WorkOnce(w: World, a: ActorId, ch: Channel, m: Metrics.Collector, passes: bool, accepted: bool, elapsed: int)
    returns (sent: bool)
    requires w.Valid() && m.Valid() && At(w.state, a) == Idle
    modifies w, m
    ensures w.Continues(old(w.start), old(w.log))
    ensures w.Valid() && m.Valid() && At(w.state, a) == Idle
    ensures Metered(m, sent, accepted, elapsed)
    ensures Calm(old(w.script)) ==>
      var s := old(w.state);
      match MostUrgent(s, ch)
      case None => !sent && SameStores(s, w.state)
      case Some(job) =>
        && sent == (passes && CanClaim(s, job.id))
        && if passes then Served(Taken(s, ch), w.state, job, accepted) else SameStores(Taken(s, ch), w.state)
  {
    var taken := DequeueNext(w, a, ch);
    if taken.None? {
      return false;
    }
    ghost var s, mid := old(w.state), w.state;
    sent := Serve(w, a, taken.value, m, passes, accepted, elapsed);
    if Calm(old(w.script)) && passes {
      SameServed(Taken(s, ch), mid, w.state, taken.value, accepted);
    }
  }
}
