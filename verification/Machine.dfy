/** The system as a state machine. One event is one SQL statement, one Redis command, or one
    local move between two of them; goroutines interleave event by event. Every move of a
    goroutine is computed as an Effect, the commands that reach the stores, and then committed. */
module Machine {
  import opened Model
  import opened Backoff

  /** Everything a move leaves open. `good` is the provider's answer, the limiter's verdict or
      the outcome of validation; `newId` a new UUID; `asOf` an earlier clock reading. */
  datatype Choice = Choice(fault: Fault, good: bool, newId: Id, asOf: int)

  datatype Event =
    | Tick(nanos: nat)
    | Expire(key: Key)
    | Crash(actor: ActorId)
    | Submit(actor: ActorId, req: Request)
    | OpenBatch(actor: ActorId, batch: BatchId, reqs: seq<Request>, fault: Fault)
    | Cancel(actor: ActorId, id: Id, fault: Fault)
    | Dequeue(actor: ActorId, channel: Channel)
    | Sweep(actor: ActorId, asOf: int, found: seq<Job>, fault: Fault)
    | Act(actor: ActorId, choice: Choice)

  /** What a statement writes; a row is the row of the effect's notification. */
  datatype Sql =
    | NoSql
    | SetRow(row: Row)
    | InsertRow(row: Row)
    | SetBatch(batch: BatchId, counters: Batch, mark: LastWrite)

  datatype Redis =
    | NoRedis
    | LPush(job: Job)
    | RPop(queue: Queue)
    | ZAdd(job: Job, score: int)
    | ZRem(job: Job)
    | SetKey(key: Key, value: Id)

  /** `place` and `hist` are the new place and history of notification `id`, if they change. */
  datatype Effect = Effect(next: Actor, id: Id, sql: Sql, redis: Redis,
                           place: Option<Place>, hist: Option<Hist>, answer: Option<Answer>)

  function Go(id: Id, next: Actor): Effect {
    Effect(next, id, NoSql, NoRedis, None, None, None)
  }

  /** The goroutine lets go of its copy of `id`. */
  function Drop(id: Id, next: Actor): Effect {
    Go(id, next).(place := Some(Nowhere))
  }

  // ---- reading the stores ----

  function RowOf(s: State, i: Id): Row {
    if i in s.rows then s.rows[i] else Row(Failed, 0, 0, None, None)
  }

  predicate Has(s: State, i: Id, status: Status) {
    i in s.rows && s.rows[i].status == status
  }

  /** UPDATE ... WHERE id = i AND guard, when the statement reaches the database. */
  function Update(s: State, i: Id, guard: bool, row: Row, fault: Fault): Sql {
    if i in s.rows && guard && fault != Lost then SetRow(row) else NoSql
  }

  function Members(s: State, b: BatchId): set<Id> {
    set i | i in s.rows && s.rows[i].batch == Some(b)
  }

  function MembersIn(s: State, b: BatchId, statuses: set<Status>): set<Id> {
    set i | i in s.rows && s.rows[i].batch == Some(b) && s.rows[i].status in statuses
  }

  const LIVE: set<Status> := {Pending, Queued, Processing, Scheduled}

  /** The counters as the recount statement computes them. */
  function Recount(s: State, b: BatchId, total: int): Batch {
    var missing := total - |Members(s, b)|;
    Batch(total,
          |MembersIn(s, b, LIVE)|,
          |MembersIn(s, b, {Delivered})|,
          (if missing < 0 then 0 else missing) + |MembersIn(s, b, {Failed})|)
  }

  // ---- queue commands by the holder of the copy ----

  /** Enqueue. */
  function Enqueue(job: Job, fault: Fault, next: Actor): Effect {
    if fault == Lost then Drop(job.id, next)
    else Go(job.id, next).(redis := LPush(job), place := Some(Listed(job.queue)))
  }

  /** EnqueueScheduled. */
  function EnqueueScheduled(job: Job, fault: Fault, next: Actor): Effect {
    if fault == Lost then Drop(job.id, next)
    else Go(job.id, next).(redis := ZAdd(job, Secs(job.at.GetOr(0))), place := Some(Timed))
  }

  // ---- workers: DequeueNext, process, handleFailure, markDelivered ----

  /** The popped job reaches the worker, unless the reply was lost. */
  function Receive(a: ActorId, job: Job, q: Queue, fault: Fault): Effect {
    if fault == Fine then Go(job.id, Worker(job, Throttle)).(redis := RPop(q), place := Some(Held(a)))
    else Drop(job.id, Idle).(redis := RPop(q))
  }

  /** BRPOP serves the first non-empty list in key order. */
  function FirstFull(s: State, ch: Channel): Option<Queue> {
    if Seq(s.lists, Queue(ch, High)) != [] then Some(Queue(ch, High))
    else if Seq(s.lists, Queue(ch, Normal)) != [] then Some(Queue(ch, Normal))
    else if Seq(s.lists, Queue(ch, Low)) != [] then Some(Queue(ch, Low))
    else None
  }

  function MoveProbing(s: State, a: ActorId, x: Actor, fault: Fault): Effect
    requires x.Probing?
  {
    var q := if x.index < 3 then Some(Queue(x.channel, Nth(x.index))) else FirstFull(s, x.channel);
    if fault == Lost then Go(0, Idle)
    else if q.Some? && Seq(s.lists, q.value) != [] then Receive(a, Seq(s.lists, q.value)[0], q.value, fault)
    else if x.index >= 3 || fault == Late then Go(0, Idle)
    else Go(0, x.(index := x.index + 1))
  }

  function MoveWorker(s: State, job: Job, task: Task, c: Choice): Effect {
    var i := job.id;
    var row := RowOf(s, i);
    var h := HistOf(s, i);
    match task
    case Throttle =>
      if c.good then Go(i, Worker(job, Load)) else Drop(i, Idle)
    case Load =>
      if c.fault == Fine && i in s.rows && Claimable(row.status)
      then Go(i, Worker(job, Mark(row.retry, row.max)))
      else Drop(i, Idle)
    case Mark(r, m) =>
      var claimed := i in s.rows && Claimable(row.status);
      var sql := Update(s, i, claimed, row.(status := Processing), c.fault);
      if c.fault == Fine && claimed then Go(i, Worker(job, Send(r, m))).(sql := sql)
      else Drop(i, Idle).(sql := sql)
    case Send(r, m) =>
      Go(i, Worker(job, Await(r, m))).(hist := Some(h.(sends := h.sends + 1)))
    case Await(r, m) =>
      if c.good then
        Go(i, Worker(job, Deliver)).(hist := Some(h.(accepts := h.accepts + 1)))
      else if r + 1 > m then
        Go(i, Worker(job, Fail)).(hist := Some(h.(lastFailure := s.now)))
      else
        var next := s.now + Delay(r + 1);
        Go(i, Worker(job.(at := Some(next), retry := r + 1), SaveRetry(r + 1)))
          .(hist := Some(h.(lastFailure := s.now, notBefore := next)))
    case Deliver =>
      var processing := Has(s, i, Processing);
      Drop(i, if c.fault == Fine && processing then FindBatch(i, Delivered) else Idle)
        .(sql := Update(s, i, processing, row.(status := Delivered), c.fault))
    case Fail =>
      // the statement has no status guard
      Drop(i, FindBatch(i, Failed)).(sql := Update(s, i, true, row.(status := Failed), c.fault))
    case SaveRetry(r) =>
      Go(i, Worker(job, Reschedule))
        .(sql := Update(s, i, row.status == Processing, row.(status := Queued, retry := r), c.fault))
    case Reschedule => EnqueueScheduled(job, c.fault, Idle)
    case _ => Drop(i, Idle)
  }

  // ---- scheduler: PopDueScheduled, processScheduled ----

  predicate Due(s: State, job: Job, asOf: int) {
    job in s.sched && s.sched[job] <= Secs(asOf)
  }

  function ScoreOf(s: State, job: Job): int {
    if job in s.sched then s.sched[job] else 0
  }

  /** The jobs stand in the order of their scores, equal ones in any order. */
  predicate ByScore(s: State, jobs: seq<Job>) {
    forall k, l :: 0 <= k < l < |jobs| ==> ScoreOf(s, jobs[k]) <= ScoreOf(s, jobs[l])
  }

  function Sweeping(found: seq<Job>, due: seq<Job>): Actor {
    if found == [] && due == [] then Idle else Sweeper(found, due, Check)
  }

  function MoveSweeper(s: State, a: ActorId, x: Actor, c: Choice): Effect
    requires x.Sweeper? && Busy(x)
  {
    if x.found != [] then MoveClaiming(s, a, x, c.fault) else MoveDue(s, x, c.fault)
  }

  /** ZREM: the scheduler that removes the member owns the job. */
  function MoveClaiming(s: State, a: ActorId, x: Actor, fault: Fault): Effect
    requires x.Sweeper? && x.found != []
  {
    var job := x.found[0];
    var missed := Sweeping(x.found[1..], x.due);
    if job !in s.sched || fault == Lost then Go(0, missed)
    else if fault == Late then Drop(job.id, missed).(redis := ZRem(job))
    else Go(job.id, Sweeping(x.found[1..], x.due + [job])).(redis := ZRem(job), place := Some(Held(a)))
  }

  function MoveDue(s: State, x: Actor, fault: Fault): Effect
    requires x.Sweeper? && x.due != []
  {
    var job := x.due[0];
    var i := job.id;
    var row := RowOf(s, i);
    var h := HistOf(s, i);
    var rest := Sweeping([], x.due[1..]);
    match x.step
    case Check =>
      if fault != Fine || i !in s.rows || Terminal(row.status) then Drop(i, rest)
      else Go(i, x.(step := if row.status == Scheduled then Unschedule else Requeue))
    case Unschedule =>
      // the statement has no status guard
      var sql := Update(s, i, true, row.(status := Queued), fault);
      var hist := if sql.SetRow? && row.status == Cancelled then Some(h.(revived := h.revived + 1)) else None;
      (if fault == Fine then Go(i, x.(step := Requeue)) else Drop(i, rest)).(sql := sql, hist := hist)
    case _ => Enqueue(job, fault, rest)
  }

  // ---- creation: EnqueueNotification, CheckIdempotency, CreateBatch ----

  function StartCall(req: Request): Call {
    if req.key.Some? then Looking(req) else Inserting(req)
  }

  /** The call returns to its caller: the handler, or CreateBatch's loop. */
  function Caller(run: Option<BatchRun>, ok: bool): Actor {
    match run
    case None => Idle
    case Some(r) => Between(if ok then r.(created := r.created + 1) else r.(failed := r.failed + 1))
  }

  function Answered(key: Option<Key>, id: Id): Option<Answer> {
    if key.Some? then Some(Answer(key.value, id)) else None
  }

  /** After CheckIdempotency, whose result is ignored: publish what this call created. */
  function Stored(run: Option<BatchRun>, call: Call): Effect
    requires call.Storing?
  {
    match call.mine
    case Some(d) => Go(d.job.id, Creator(run, Publishing(d)))
    case None => Go(0, Caller(run, true)).(answer := Some(Answer(call.key, call.id)))
  }

  function MoveInserting(s: State, a: ActorId, run: Option<BatchRun>, req: Request, c: Choice): Effect {
    var i := c.newId;
    var conflict := req.key.Some? && req.key.value in s.unique;
    var timed := req.at.Some? && req.at.value > c.asOf;
    var d := Draft(Job(i, req.queue, req.at, 0), timed);
    var batch := if run.Some? then Some(run.value.batch) else None;
    var row := Row(if timed then Scheduled else Queued, 0, MAX_RETRIES, batch, req.key);
    var made := Go(i, Idle).(sql := InsertRow(row), hist := Some(Hist(0, 0, 0, 0, req.at.GetOr(s.now), 0)));
    var failed := if req.key.Some? then Creator(run, Refetching(req.key.value)) else Caller(run, false);
    if conflict || c.fault == Lost then Go(0, failed)
    else if c.fault == Late then made.(next := failed, place := Some(Nowhere))
    else made.(next := Creator(run, if req.key.Some? then Storing(req.key.value, i, Some(d), 0) else Publishing(d)),
               place := Some(Held(a)))
  }

  function MoveCreator(s: State, a: ActorId, run: Option<BatchRun>, call: Call, c: Choice): Effect {
    match call
    case Looking(req) =>
      if c.fault == Fine && req.key.Some? && req.key.value in s.cache
      then Go(0, Creator(run, Fetching(req, s.cache[req.key.value])))
      else Go(0, Creator(run, Inserting(req)))
    case Fetching(req, id) =>
      if c.fault == Fine && id in s.rows then Go(0, Caller(run, true)).(answer := Answered(req.key, id))
      else Go(0, Creator(run, Inserting(req)))
    case Inserting(req) => MoveInserting(s, a, run, req, c)
    case Refetching(key) =>
      if c.fault == Fine && key in s.unique
      then Go(0, Creator(run, Storing(key, s.unique[key], None, 0)))
      else Go(0, Caller(run, false))
    case Storing(key, id, mine, probe) =>
      var i := if mine.Some? then mine.value.job.id else 0;
      if probe == 0 && c.fault == Fine && key !in s.cache then Go(i, Creator(run, call.(probe := 1)))
      else if probe == 1 then
        var taken := key in s.cache;
        var redis := if taken || c.fault == Lost then NoRedis else SetKey(key, id);
        var lost := c.fault == Fine && taken;
        (if lost then Go(i, Creator(run, call.(probe := 2))) else Stored(run, call)).(redis := redis)
      else Stored(run, call)
    case Publishing(d) =>
      var h := HistOf(s, d.job.id);
      var next := Caller(run, true);
      (if d.timed then EnqueueScheduled(d.job, c.fault, next) else Enqueue(d.job, c.fault, next))
        .(hist := if c.fault == Lost then None else Some(h.(published := h.published + 1)),
          answer := Answered(RowOf(s, d.job.id).key, d.job.id))
  }

  function MoveBetween(s: State, r: BatchRun, c: Choice): Effect {
    if r.left != [] then
      var rest := r.(left := r.left[1..]);
      if c.good then Go(0, Creator(Some(rest), StartCall(r.left[0])))
      else Go(0, Between(rest.(failed := r.failed + 1)))
    else if c.fault == Lost || r.batch !in s.batches then Go(0, Idle)
    else Go(0, Idle).(sql := SetBatch(r.batch, s.batches[r.batch].(pending := r.created, failed := r.failed),
                                      Overwritten(r.created)))
  }

  // ---- recount: updateBatchCounters and refreshBatchCounters ----

  function MoveFindBatch(s: State, i: Id, wrote: Status, fault: Fault): Effect {
    var batch := RowOf(s, i).batch;
    Go(0, if fault == Fine && batch.Some? then Recounting(batch.value, i, wrote) else Idle)
  }

  function MoveRecounting(s: State, b: BatchId, fault: Fault): Effect {
    if fault == Lost || b !in s.batches then Go(0, Idle)
    else Go(0, Idle).(sql := SetBatch(b, Recount(s, b, s.batches[b].total), Recounted))
  }

  // ---- events ----

  predicate Busy(x: Actor) {
    && x != Idle
    && (x.Sweeper? ==> x.found != [] || x.due != [])
  }

  predicate Enabled(s: State, e: Event) {
    match e
    case Tick(_) => true
    case Expire(_) => true
    case Crash(_) => true
    case Submit(a, _) => At(s, a) == Idle
    case OpenBatch(a, b, reqs, _) => At(s, a) == Idle && b !in s.batches && 0 < |reqs| <= MAX_BATCH
    case Cancel(a, _, _) => At(s, a) == Idle
    case Dequeue(a, _) => At(s, a) == Idle
    case Sweep(a, asOf, found, _) =>
      && At(s, a) == Idle && asOf <= s.now
      && (forall job :: job in found ==> Due(s, job, asOf))
      && (forall job :: job in s.sched && Due(s, job, asOf) ==> job in found)
      && (forall k, l :: 0 <= k < l < |found| ==> found[k] != found[l])
      && ByScore(s, found)
    case Act(a, c) =>
      && Busy(At(s, a))
      && (At(s, a).Creator? && At(s, a).call.Inserting? ==> c.newId !in s.rows && c.asOf <= s.now)
  }

  /** Nothing goes wrong: no crash, no failed call, no job given up by the rate limiter. */
  ghost predicate Clean(s: State, e: Event) {
    match e
    case Crash(_) => false
    case OpenBatch(_, _, _, fault) => fault == Fine
    case Cancel(_, _, fault) => fault == Fine
    case Sweep(_, _, _, fault) => fault == Fine
    case Act(a, c) => CleanMove(At(s, a), c)
    case _ => true
  }

  predicate CleanMove(x: Actor, c: Choice) {
    c.fault == Fine && (x.Worker? && x.task == Throttle ==> c.good)
  }

  /** One move of goroutine `a` in the middle of its work. */
  function Move(s: State, a: ActorId, c: Choice): Effect
    requires Busy(At(s, a))
  {
    var x := At(s, a);
    match x
    case Creator(run, call) => MoveCreator(s, a, run, call, c)
    case Between(r) => MoveBetween(s, r, c)
    case Probing(_, _) => MoveProbing(s, a, x, c.fault)
    case Worker(job, task) => MoveWorker(s, job, task, c)
    case Sweeper(_, _, _) => MoveSweeper(s, a, x, c)
    case FindBatch(i, wrote) => MoveFindBatch(s, i, wrote, c.fault)
    case Recounting(b, _, _) => MoveRecounting(s, b, c.fault)
    case Idle => Go(0, Idle)
  }

  /** The first move of an idle goroutine. */
  function Start(s: State, e: Event): Effect
    requires e.Submit? || e.OpenBatch? || e.Cancel? || e.Dequeue? || e.Sweep?
  {
    match e
    case Submit(_, req) => Go(0, Creator(None, StartCall(req)))
    case OpenBatch(_, b, reqs, fault) =>
      Go(0, if fault == Fine then Between(BatchRun(b, |reqs|, reqs, 0, 0)) else Idle)
        .(sql := if fault == Lost then NoSql else SetBatch(b, Batch(|reqs|, |reqs|, 0, 0), Opened))
    case Cancel(_, i, fault) =>
      var open := i in s.rows && Cancellable(s.rows[i].status);
      Go(i, if fault == Fine && open then FindBatch(i, Cancelled) else Idle)
        .(sql := Update(s, i, open, RowOf(s, i).(status := Cancelled), fault))
    case Dequeue(_, ch) => Go(0, Probing(ch, 0))
    case Sweep(_, _, found, fault) =>
      Go(0, if fault == Fine then Sweeping(found, []) else Idle)
  }

  // ---- committing an effect, store by store ----

  function RowsAfter(rows: map<Id, Row>, fx: Effect): map<Id, Row> {
    if fx.sql.SetRow? || fx.sql.InsertRow? then rows[fx.id := fx.sql.row] else rows
  }

  function UniqueAfter(unique: map<Key, Id>, fx: Effect): map<Key, Id> {
    if fx.sql.InsertRow? && fx.sql.row.key.Some? then unique[fx.sql.row.key.value := fx.id] else unique
  }

  function BatchesAfter(batches: map<BatchId, Batch>, fx: Effect): map<BatchId, Batch> {
    if fx.sql.SetBatch? then batches[fx.sql.batch := fx.sql.counters] else batches
  }

  function TallyAfter(tally: map<BatchId, LastWrite>, fx: Effect): map<BatchId, LastWrite> {
    if fx.sql.SetBatch? then tally[fx.sql.batch := fx.sql.mark] else tally
  }

  /** Index 0 of a list is the end RPOP takes from; LPUSH adds at the other end. */
  function ListsAfter(lists: map<Queue, seq<Job>>, fx: Effect): map<Queue, seq<Job>> {
    match fx.redis
    case LPush(job) => lists[job.queue := Seq(lists, job.queue) + [job]]
    case RPop(q) => if Seq(lists, q) == [] then lists else lists[q := Seq(lists, q)[1..]]
    case _ => lists
  }

  function PushedAfter(pushed: map<Queue, seq<Job>>, fx: Effect): map<Queue, seq<Job>> {
    if fx.redis.LPush? then pushed[fx.redis.job.queue := Seq(pushed, fx.redis.job.queue) + [fx.redis.job]] else pushed
  }

  function PoppedAfter(popped: map<Queue, seq<Job>>, lists: map<Queue, seq<Job>>, fx: Effect): map<Queue, seq<Job>> {
    if fx.redis.RPop? && Seq(lists, fx.redis.queue) != []
    then popped[fx.redis.queue := Seq(popped, fx.redis.queue) + [Seq(lists, fx.redis.queue)[0]]]
    else popped
  }

  function SchedAfter(sched: map<Job, int>, fx: Effect): map<Job, int> {
    match fx.redis
    case ZAdd(job, score) => sched[job := score]
    case ZRem(job) => sched - {job}
    case _ => sched
  }

  function CacheAfter(cache: map<Key, Id>, fx: Effect): map<Key, Id> {
    if fx.redis.SetKey? && fx.redis.key !in cache then cache[fx.redis.key := fx.redis.value] else cache
  }

  function SetAt<T>(m: map<Id, T>, i: Id, v: Option<T>): map<Id, T> {
    if v.Some? then m[i := v.value] else m
  }

  function Commit(s: State, a: ActorId, fx: Effect): State {
    State(s.now,
          RowsAfter(s.rows, fx), UniqueAfter(s.unique, fx), BatchesAfter(s.batches, fx),
          ListsAfter(s.lists, fx), SchedAfter(s.sched, fx), CacheAfter(s.cache, fx),
          s.actors[a := fx.next],
          SetAt(s.place, fx.id, fx.place), SetAt(s.hist, fx.id, fx.hist),
          TallyAfter(s.tally, fx), PushedAfter(s.pushed, fx), PoppedAfter(s.popped, s.lists, fx),
          if fx.answer.Some? then s.answers + {fx.answer.value} else s.answers)
  }

  function Forget(place: map<Id, Place>, a: ActorId): map<Id, Place> {
    map i | i in place :: if place[i] == Held(a) then Nowhere else place[i]
  }

  function Apply(s: State, e: Event): State
    requires Enabled(s, e)
  {
    match e
    case Tick(d) => s.(now := s.now + d)
    case Expire(key) => s.(cache := s.cache - {key})
    case Crash(a) => s.(actors := s.actors[a := Idle], place := Forget(s.place, a))
    case Act(a, c) => Commit(s, a, Move(s, a, c))
    case _ => Commit(s, e.actor, Start(s, e))
  }

  ghost predicate Runs(s: State, trace: seq<Event>)
    decreases |trace|
  {
    trace == [] || (Enabled(s, trace[0]) && Runs(Apply(s, trace[0]), trace[1..]))
  }

  ghost function After(s: State, trace: seq<Event>): State
    requires Runs(s, trace)
    decreases |trace|
  {
    if trace == [] then s else After(Apply(s, trace[0]), trace[1..])
  }

  ghost predicate Reaches(s: State, t: State) {
    exists trace :: Runs(s, trace) && After(s, trace) == t
  }

  ghost predicate Reachable(t: State) {
    exists now :: Reaches(Empty(now), t)
  }
}
