/** The worker's code of internal/worker/pool.go, statement by statement over a World. Each method
    makes a run of the machine; in a calm world, where no other goroutine acts and no call fails,
    it has the effect its specification function says. */
module Workers {
  import opened Model
  import opened Machine
  import opened Backoff
  import opened Worlds
  import Guarantees
  import Metrics

  /** The notification a worker or a scheduler has decoded, updated as it goes. */
  class Notification {
    const id: Id
    const queue: Queue
    var retryCount: nat
    var maxRetries: nat
    var status: Status
    var scheduledAt: Option<int>

    constructor (job: Job)
      ensures id == job.id && queue == job.queue && retryCount == job.retry && scheduledAt == job.at
    {
      id := job.id;
      queue := job.queue;
      retryCount := job.retry;
      maxRetries := 0;
      status := Queued;
      scheduledAt := job.at;
    }

    function AsJob(): Job
      reads this
    {
      Job(id, queue, scheduledAt, retryCount)
    }
  }

  /** What a send makes of a row, given the provider's answer. */
  function Settled(row: Row, accepted: bool): Row {
    if accepted then row.(status := Delivered)
    else if row.retry + 1 > row.max then row.(status := Failed)
    else row.(status := Queued, retry := row.retry + 1)
  }

  /** The job a failed attempt leaves in the sorted set. */
  function RetryJob(job: Job, row: Row, now: int): Job {
    job.(at := Some(now + Delay(row.retry + 1)), retry := row.retry + 1)
  }

  predicate Retries(row: Row, accepted: bool) {
    !accepted && row.retry + 1 <= row.max
  }

  /** Tables, queues, cache and clock are the same. */
  predicate SameStores(s: State, t: State) {
    && t.rows == s.rows && t.batches == s.batches
    && t.lists == s.lists && t.sched == s.sched && t.cache == s.cache && t.now == s.now
  }

  /** The counters after a recount for notification `id`, which looks at the rows alone. */
  function Refreshed(rows: map<Id, Row>, batches: map<BatchId, Batch>, id: Id): map<BatchId, Batch> {
    if id in rows && rows[id].batch.Some? && rows[id].batch.value in batches
    then
      var b := rows[id].batch.value;
      batches[b := Recount(Empty(0).(rows := rows), b, batches[b].total)]
    else batches
  }

  /** The batch of notification `id`, if it has one, has been recounted. */
  function Counted(s: State, id: Id): State {
    s.(batches := Refreshed(s.rows, s.batches, id))
  }

  lemma RowsRecount(s: State, b: BatchId, total: int)
    ensures Recount(Empty(0).(rows := s.rows), b, total) == Recount(s, b, total)
  {
    var t := Empty(0).(rows := s.rows);
    assert Members(t, b) == Members(s, b);
    assert forall statuses :: MembersIn(t, b, statuses) == MembersIn(s, b, statuses);
  }

  method SelectBatch(w: World, a: ActorId, id: Id, ghost wrote: Status) returns (batch: Option<BatchId>)
    requires w.Valid() && At(w.state, a) == FindBatch(id, wrote)
    modifies w
    ensures w.Continues(old(w.start), old(w.log))
    ensures w.Valid() && At(w.state, a) == if batch.Some? then Recounting(batch.value, id, wrote) else Idle
    ensures Calm(old(w.script)) ==>
      Calm(w.script) && SameStores(old(w.state), w.state) && batch == RowOf(old(w.state), id).batch
  {
    var fault, met := w.Step(a, true);
    batch := if fault == Fine then RowOf(met, id).batch else None;
  }

  method RecountBatch(w: World, a: ActorId, b: BatchId, ghost id: Id, ghost wrote: Status)
    requires w.Valid() && At(w.state, a) == Recounting(b, id, wrote)
    modifies w
    ensures w.Continues(old(w.start), old(w.log))
    ensures w.Valid() && At(w.state, a) == Idle
    ensures Calm(old(w.script)) && RowOf(old(w.state), id).batch == Some(b) ==>
      Calm(w.script) && SameStores(Counted(old(w.state), id), w.state)
  {
    if b in w.state.batches { RowsRecount(w.state, b, w.state.batches[b].total); }
    var _, _ := w.Step(a, true);
  }

  /** updateBatchCounters, also refreshBatchCounters. */
  method UpdateBatchCounters(w: World, a: ActorId, id: Id, ghost wrote: Status)
    requires w.Valid() && At(w.state, a) == FindBatch(id, wrote)
    modifies w
    ensures w.Continues(old(w.start), old(w.log))
    ensures w.Valid() && At(w.state, a) == Idle
    ensures Calm(old(w.script)) ==> Calm(w.script) && SameStores(Counted(old(w.state), id), w.state)
  {
    var batch := SelectBatch(w, a, id, wrote);
    if batch.None? {
      return;
    }
    RecountBatch(w, a, batch.value, id, wrote);
  }

  method CurrentDeliveryState(w: World, a: ActorId, ghost job: Job, id: Id)
    returns (ok: bool, status: Status, retryCount: nat, maxRetries: nat)
    requires w.Valid() && At(w.state, a) == Worker(job, Load) && job.id == id
    modifies w
    ensures w.Continues(old(w.start), old(w.log))
    ensures w.Valid()
    ensures At(w.state, a) == if ok && Claimable(status) then Worker(job, Mark(retryCount, maxRetries)) else Idle
    ensures Calm(old(w.script)) ==> Calm(w.script) && SameStores(old(w.state), w.state)
    ensures Calm(old(w.script)) ==> ok == (id in old(w.state.rows))
    ensures Calm(old(w.script)) && ok ==>
      var row := old(w.state.rows)[id];
      status == row.status && retryCount == row.retry && maxRetries == row.max
  {
    var fault, met := w.Step(a, true);
    ok := fault == Fine && id in met.rows;
    var row := RowOf(met, id);
    status, retryCount, maxRetries := row.status, row.retry, row.max;
  }

  /** The row has the given status. */
  function WithStatus(s: State, id: Id, status: Status): State
    requires id in s.rows
  {
    s.(rows := s.rows[id := s.rows[id].(status := status)])
  }

  predicate CanClaim(s: State, id: Id) {
    id in s.rows && Claimable(s.rows[id].status)
  }

  method MarkProcessing(w: World, a: ActorId, ghost job: Job, ghost r: nat, ghost m: nat, id: Id) returns (ok: bool)
    requires w.Valid() && At(w.state, a) == Worker(job, Mark(r, m)) && job.id == id
    modifies w
    ensures w.Continues(old(w.start), old(w.log))
    ensures w.Valid()
    ensures At(w.state, a) == if ok then Worker(job, Send(r, m)) else Idle
    ensures Calm(old(w.script)) ==>
      && Calm(w.script) && ok == CanClaim(old(w.state), id)
      && SameStores(if ok then WithStatus(old(w.state), id, Processing) else old(w.state), w.state)
  {
    var fault, met := w.Step(a, true);
    var rowsAffected := if CanClaim(met, id) then 1 else 0;
    ok := fault == Fine && rowsAffected > 0;
  }

  /** provider.Send: the request goes out; the answer is still to come. */
  method Transmit(w: World, a: ActorId, ghost job: Job, ghost r: nat, ghost m: nat)
    requires w.Valid() && At(w.state, a) == Worker(job, Send(r, m))
    modifies w
    ensures w.Continues(old(w.start), old(w.log))
    ensures w.Valid() && At(w.state, a) == Worker(job, Await(r, m))
    ensures Calm(old(w.script)) ==> Calm(w.script) && SameStores(old(w.state), w.state)
  {
    var _, _ := w.Step(a, true);
  }

  /** The answer is an acceptance. */
  method Accept(w: World, a: ActorId, ghost job: Job, ghost r: nat, ghost m: nat)
    requires w.Valid() && At(w.state, a) == Worker(job, Await(r, m))
    modifies w
    ensures w.Continues(old(w.start), old(w.log))
    ensures w.Valid() && At(w.state, a) == Worker(job, Deliver)
    ensures Calm(old(w.script)) ==> Calm(w.script) && SameStores(old(w.state), w.state)
  {
    var _, _ := w.Step(a, true);
  }

  /** The answer is an error; the clock is read for the next attempt. */
  method Reject(w: World, a: ActorId, ghost job: Job, ghost r: nat, ghost m: nat) returns (now: int)
    requires w.Valid() && At(w.state, a) == Worker(job, Await(r, m))
    modifies w
    ensures w.Continues(old(w.start), old(w.log))
    ensures w.Valid()
    ensures At(w.state, a) ==
      if r + 1 > m then Worker(job, Fail)
      else Worker(job.(at := Some(now + Delay(r + 1)), retry := r + 1), SaveRetry(r + 1))
    ensures Calm(old(w.script)) ==> Calm(w.script) && SameStores(old(w.state), w.state) && now == old(w.state.now)
  {
    var _, met := w.Step(a, false);
    now := met.now;
  }

  /** updateStatus with 'failed'. */
  method UpdateToFailed(w: World, a: ActorId, ghost job: Job, id: Id) returns (ok: bool)
    requires w.Valid() && At(w.state, a) == Worker(job, Fail) && job.id == id
    modifies w
    ensures w.Continues(old(w.start), old(w.log))
    ensures w.Valid() && At(w.state, a) == FindBatch(id, Failed)
    ensures Calm(old(w.script)) ==>
      && Calm(w.script) && ok
      && SameStores(if id in old(w.state.rows) then WithStatus(old(w.state), id, Failed) else old(w.state), w.state)
  {
    var fault, _ := w.Step(a, true);
    ok := fault == Fine;
  }

  /** The row is queued with the new count of retries. */
  function Requeued(s: State, id: Id, r: nat): State
    requires id in s.rows
  {
    s.(rows := s.rows[id := s.rows[id].(status := Queued, retry := r)])
  }

  /** The guarded UPDATE of handleFailure. */
  method UpdateRetry(w: World, a: ActorId, ghost job: Job, id: Id, r: nat) returns (ok: bool)
    requires w.Valid() && At(w.state, a) == Worker(job, SaveRetry(r)) && job.id == id
    modifies w
    ensures w.Continues(old(w.start), old(w.log))
    ensures w.Valid() && At(w.state, a) == Worker(job, Reschedule)
    ensures Calm(old(w.script)) ==>
      && Calm(w.script) && ok
      && SameStores(if Has(old(w.state), id, Processing) then Requeued(old(w.state), id, r) else old(w.state), w.state)
  {
    var fault, _ := w.Step(a, true);
    ok := fault == Fine;
  }

  /** The job waits in the sorted set for its second. */
  function InSortedSet(s: State, job: Job): State {
    s.(sched := s.sched[job := Secs(job.at.GetOr(0))])
  }

  /** EnqueueScheduled: ZADD with the second of scheduled_at as score. */
  method EnqueueScheduled(w: World, a: ActorId, n: Notification) returns (ok: bool)
    requires w.Valid() && At(w.state, a) == Worker(n.AsJob(), Reschedule)
    modifies w
    ensures w.Continues(old(w.start), old(w.log))
    ensures w.Valid() && At(w.state, a) == Idle
    ensures Calm(old(w.script)) ==>
      && Calm(w.script) && ok
      && SameStores(InSortedSet(old(w.state), old(n.AsJob())), w.state)
  {
    var fault, _ := w.Step(a, true);
    ok := fault == Fine;
  }

  /** The end of handleFailure after the last attempt. */
  method GiveUp(w: World, a: ActorId, ghost job: Job, id: Id)
    requires w.Valid() && At(w.state, a) == Worker(job, Fail) && job.id == id
    modifies w
    ensures w.Continues(old(w.start), old(w.log))
    ensures w.Valid() && At(w.state, a) == Idle
    ensures Calm(old(w.script)) && id in old(w.state.rows) ==>
      Calm(w.script) && SameStores(Counted(WithStatus(old(w.state), id, Failed), id), w.state)
  {
    var _ := UpdateToFailed(w, a, job, id);
    UpdateBatchCounters(w, a, id, Failed);
  }

  /** handleFailure: a failed send is either final or retried after the delay. */
  method HandleFailure(w: World, a: ActorId, n: Notification, m: Metrics.Collector, ghost job: Job)
    requires w.Valid() && At(w.state, a) == Worker(job, Await(n.retryCount, n.maxRetries))
    requires job.id == n.id && job.queue == n.queue
    modifies w, n, m`retried
    ensures w.Continues(old(w.start), old(w.log))
    ensures w.Valid() && At(w.state, a) == Idle
    ensures n.retryCount == old(n.retryCount) + 1 && n.maxRetries == old(n.maxRetries)
    ensures m.retried == old(m.retried) + if n.retryCount > n.maxRetries then 0 else 1
    ensures Calm(old(w.script)) && Has(old(w.state), n.id, Processing) ==>
      var s := old(w.state);
      && Calm(w.script)
      && (if old(n.retryCount) + 1 > n.maxRetries
          then SameStores(Counted(WithStatus(s, n.id, Failed), n.id), w.state)
          else n.scheduledAt == Some(s.now + Delay(n.retryCount))
               && SameStores(InSortedSet(Requeued(s, n.id, n.retryCount), n.AsJob()), w.state))
  {
    var now := Reject(w, a, job, n.retryCount, n.maxRetries);
    n.retryCount := n.retryCount + 1;
    if n.retryCount > n.maxRetries {
      GiveUp(w, a, job, n.id);
      return;
    }
    m.IncRetried();
    var nextAttempt := now + Delay(n.retryCount);
    ghost var again := job.(at := Some(nextAttempt), retry := n.retryCount);
    var _ := UpdateRetry(w, a, again, n.id, n.retryCount);
    n.status := Queued;
    n.scheduledAt := Some(nextAttempt);
    var _ := EnqueueScheduled(w, a, n);
  }

  /** markDelivered, with its recount. */
  method MarkDelivered(w: World, a: ActorId, ghost job: Job, id: Id) returns (ok: bool)
    requires w.Valid() && At(w.state, a) == Worker(job, Deliver) && job.id == id
    modifies w
    ensures w.Continues(old(w.start), old(w.log))
    ensures w.Valid() && At(w.state, a) == Idle
    ensures Calm(old(w.script)) ==>
      var s := old(w.state);
      && Calm(w.script) && ok == Has(s, id, Processing)
      && SameStores(if ok then Counted(WithStatus(s, id, Delivered), id) else s, w.state)
  {
    var fault, met := w.Step(a, true);
    ok := fault == Fine && Has(met, id, Processing);
    if ok {
      UpdateBatchCounters(w, a, id, Delivered);
    }
  }

  /** The row is marked and its counts are the ones read. */
  predicate Marked(s: State, i: Id, r: nat, m: nat) {
    Has(s, i, Processing) && s.rows[i].retry == r && s.rows[i].max == m
  }

  /** The sorted set after a send: a failed job that has retries left waits for its next one. */
  function SchedAnswered(sched: map<Job, int>, job: Job, row: Row, now: int, accepted: bool): map<Job, int> {
    if Retries(row, accepted)
    then sched[RetryJob(job, row, now) := Secs(now + Delay(row.retry + 1))]
    else sched
  }

  /** The counters after a send: the batch of a notification that has ended is recounted. */
  function BatchesAnswered(rows: map<Id, Row>, batches: map<BatchId, Batch>, id: Id): map<BatchId, Batch> {
    if id in rows && Terminal(rows[id].status) then Refreshed(rows, batches, id) else batches
  }

  /** What a send does when nobody interferes. */
  predicate Sent(s: State, t: State, job: Job, accepted: bool)
    requires job.id in s.rows
  {
    && t.rows == s.rows[job.id := Settled(s.rows[job.id], accepted)]
    && t.sched == SchedAnswered(s.sched, job, s.rows[job.id], s.now, accepted)
    && t.batches == BatchesAnswered(t.rows, s.batches, job.id)
    && t.lists == s.lists && t.cache == s.cache && t.now == s.now
  }

  /** The outcomes of handleFailure and markDelivered are those of a send. */
  lemma OutcomeIsSent(s: State, t: State, job: Job, accepted: bool)
    requires job.id in s.rows
    requires var i, row := job.id, s.rows[job.id];
      if accepted then SameStores(Counted(WithStatus(s, i, Delivered), i), t)
      else if !Retries(row, false) then SameStores(Counted(WithStatus(s, i, Failed), i), t)
      else SameStores(InSortedSet(Requeued(s, i, row.retry + 1), RetryJob(job, row, s.now)), t)
    ensures Sent(s, t, job, accepted)
  {
  }

  lemma SentAgain(s: State, mid: State, t: State, job: Job, accepted: bool)
    requires SameStores(s, mid) && job.id in mid.rows && Sent(mid, t, job, accepted)
    ensures Sent(s, t, job, accepted)
  {
  }

  /** What follows from the answer to a send. */
  method Conclude(w: World, a: ActorId, n: Notification, m: Metrics.Collector, ghost job: Job, accepted: bool)
    requires w.Valid() && At(w.state, a) == Worker(job, Await(n.retryCount, n.maxRetries))
    requires job.id == n.id && job.queue == n.queue
    modifies w, n, m`sent, m`failed, m`retried
    ensures w.Continues(old(w.start), old(w.log))
    ensures w.Valid() && At(w.state, a) == Idle
    ensures Calm(old(w.script)) && Marked(old(w.state), n.id, old(n.retryCount), old(n.maxRetries)) ==>
      Calm(w.script) && Sent(old(w.state), w.state, job, accepted)
    ensures m.sent == old(m.sent) + if accepted then 1 else 0
    ensures m.failed == old(m.failed) + if accepted then 0 else 1
    ensures m.retried == old(m.retried) + if accepted || old(n.retryCount) + 1 > old(n.maxRetries) then 0 else 1
  {
    ghost var sure := Calm(w.script) && Marked(w.state, n.id, n.retryCount, n.maxRetries);
    if !accepted {
      m.IncFailed();
      HandleFailure(w, a, n, m, job);
      if sure { OutcomeIsSent(old(w.state), w.state, job, false); }
      return;
    }
    m.IncSent();
    Accept(w, a, job, n.retryCount, n.maxRetries);
    ghost var mid := w.state;
    var _ := MarkDelivered(w, a, job, n.id);
    if sure {
      OutcomeIsSent(mid, w.state, job, true);
      SentAgain(old(w.state), mid, w.state, job, true);
    }
  }

  /** The send of a marked notification and what follows from its answer. */
  method Attempt(w: World, a: ActorId, n: Notification, m: Metrics.Collector,
                 ghost job: Job, accepted: bool, elapsed: int)
    requires w.Valid() && m.Valid() && At(w.state, a) == Worker(job, Send(n.retryCount, n.maxRetries))
    requires job.id == n.id && job.queue == n.queue
    modifies w, n, m
    ensures w.Continues(old(w.start), old(w.log))
    ensures w.Valid() && m.Valid() && At(w.state, a) == Idle
    ensures Calm(old(w.script)) && Marked(old(w.state), n.id, old(n.retryCount), old(n.maxRetries)) ==>
      Calm(w.script) && Sent(old(w.state), w.state, job, accepted)
    ensures m.recorded == old(m.recorded) + [elapsed]
    ensures m.sent == old(m.sent) + if accepted then 1 else 0
    ensures m.failed == old(m.failed) + if accepted then 0 else 1
    ensures m.retried == old(m.retried) + if accepted || old(n.retryCount) + 1 > old(n.maxRetries) then 0 else 1
  {
    ghost var sure := Calm(w.script) && Marked(w.state, n.id, n.retryCount, n.maxRetries);
    Transmit(w, a, job, n.retryCount, n.maxRetries);
    ghost var mid := w.state;
    m.RecordLatency(elapsed);
    Conclude(w, a, n, m, job, accepted);
    if sure { SentAgain(old(w.state), mid, w.state, job, accepted); }
  }

  /** The row may be marked, and its counts are the ones read. */
  predicate Fresh(s: State, i: Id, r: nat, m: nat) {
    i in s.rows && Claimable(s.rows[i].status) && s.rows[i].retry == r && s.rows[i].max == m
  }

  lemma SetTwice(rows: map<Id, Row>, i: Id, first: Row, second: Row)
    ensures rows[i := first][i := second] == rows[i := second]
  {
  }

  /** The mark is overwritten by the outcome. */
  lemma MarkedSettles(s: State, mid: State, t: State, job: Job, accepted: bool)
    requires CanClaim(s, job.id) && SameStores(WithStatus(s, job.id, Processing), mid)
    requires Sent(mid, t, job, accepted)
    ensures Sent(s, t, job, accepted)
  {
    var row := s.rows[job.id];
    SetTwice(s.rows, job.id, row.(status := Processing), Settled(row, accepted));
  }

  /** process from the compare-and-set on. */
  method MarkAndSend(w: World, a: ActorId, n: Notification, m: Metrics.Collector,
                     ghost job: Job, accepted: bool, elapsed: int)
    returns (sent: bool)
    requires w.Valid() && m.Valid() && At(w.state, a) == Worker(job, Mark(n.retryCount, n.maxRetries))
    requires job.id == n.id && job.queue == n.queue
    modifies w, n, m
    ensures w.Continues(old(w.start), old(w.log))
    ensures w.Valid() && m.Valid() && At(w.state, a) == Idle
    ensures Calm(old(w.script)) && Fresh(old(w.state), n.id, old(n.retryCount), old(n.maxRetries)) ==>
      Calm(w.script) && sent && Sent(old(w.state), w.state, job, accepted)
    ensures Calm(old(w.script)) && !CanClaim(old(w.state), n.id) ==>
      Calm(w.script) && !sent && SameStores(old(w.state), w.state)
    ensures m.recorded == old(m.recorded) + if sent then [elapsed] else []
    ensures m.sent == old(m.sent) + (if sent && accepted then 1 else 0)
    ensures m.failed == old(m.failed) + (if sent && !accepted then 1 else 0)
    ensures m.retried == old(m.retried) +
      if sent && !accepted && old(n.retryCount) + 1 <= old(n.maxRetries) then 1 else 0
  {
    var marked := MarkProcessing(w, a, job, n.retryCount, n.maxRetries, n.id);
    if !marked {
      return false;
    }
    ghost var mid := w.state;
    Attempt(w, a, n, m, job, accepted, elapsed);
    if Calm(old(w.script)) && Fresh(old(w.state), n.id, old(n.retryCount), old(n.maxRetries)) {
      MarkedSettles(old(w.state), mid, w.state, job, accepted);
    }
    sent := true;
  }

  /** A rejected send, in figures: with fewer than three retries the row is queued with one more, and a
      job of the notification waits in the sorted set for 10, 20 or 40 seconds from now; with three
      retries the row fails and nothing waits that did not. */
  ghost predicate Rejected(s: State, t: State, id: Id, queue: Queue) {
    && id in s.rows && id in t.rows && t.rows[id].max == s.rows[id].max
    && if s.rows[id].retry < 3
       then
         var at := s.now + if s.rows[id].retry == 0 then 10_000_000_000
                           else if s.rows[id].retry == 1 then 20_000_000_000 else 40_000_000_000;
         var job := Job(id, queue, Some(at), s.rows[id].retry + 1);
         && t.rows[id].status == Queued && t.rows[id].retry == s.rows[id].retry + 1
         && t.sched == s.sched[job := at / 1_000_000_000]
       else
         t.rows[id].status == Failed && t.sched == s.sched
  }

  lemma RejectedSend(s: State, t: State, job: Job)
    requires job.id in s.rows && s.rows[job.id].retry <= s.rows[job.id].max == 3
    ensures Sent(s, t, job, false) ==> Rejected(s, t, job.id, job.queue)
  {
    if s.rows[job.id].retry < 3 { DelayInUse(s.rows[job.id].retry + 1); }
  }

  /** process: one delivery attempt for a popped job. It says whether it came to a send, which is
      what it counts. */
  method Process(w: World, a: ActorId, n: Notification, m: Metrics.Collector, accepted: bool, elapsed: int)
    returns (sent: bool)
    requires w.Valid() && m.Valid() && At(w.state, a) == Worker(n.AsJob(), Load)
    modifies w, n, m
    ensures w.Continues(old(w.start), old(w.log))
    ensures w.Valid() && m.Valid() && At(w.state, a) == Idle
    ensures Calm(old(w.script)) ==>
      var s, i := old(w.state), n.id;
      && Calm(w.script) && sent == CanClaim(s, i)
      && (if sent then Sent(s, w.state, old(n.AsJob()), accepted) else SameStores(s, w.state))
    ensures Calm(old(w.script)) && sent && !accepted ==> Rejected(old(w.state), w.state, n.id, n.queue)
    ensures m.recorded == old(m.recorded) + if sent then [elapsed] else []
    ensures m.sent == old(m.sent) + if sent && accepted then 1 else 0
    ensures m.failed == old(m.failed) + if sent && !accepted then 1 else 0
    ensures old(m.retried) <= m.retried <= old(m.retried) + (m.failed - old(m.failed))
  {
    ghost var job := n.AsJob();
    w.IsReachable();
    var ok, status, retryCount, maxRetries := CurrentDeliveryState(w, a, job, n.id);
    if !ok || (status != Queued && status != Pending) {
      return false;
    }
    n.retryCount := retryCount;
    n.maxRetries := maxRetries;
    ghost var mid := w.state;
    sent := MarkAndSend(w, a, n, m, job, accepted, elapsed);
    if Calm(old(w.script)) && sent {
      SentAgain(old(w.state), mid, w.state, job, accepted);
      Guarantees.FourSends(old(w.state), n.id);
      RejectedSend(old(w.state), w.state, job);
    }
  }
}
