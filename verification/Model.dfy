/** Entities and shared state of the notification system: the PostgreSQL tables, the Redis
    structures, what each running goroutine holds, and the histories properties speak of. */
module Model {

  datatype Option<+T> = None | Some(value: T) {
    function GetOr(default: T): T {
      if Some? then value else default
    }
  }

  type Id = nat
  type ActorId = nat
  type BatchId = nat
  type Key = string

  /** EnqueueNotification gives every notification three retries. */
  const MAX_RETRIES: nat := 3
  const MAX_BATCH: nat := 1000

  datatype Status = Pending | Queued | Processing | Delivered | Failed | Cancelled | Scheduled
  datatype Channel = SMS | Email | Push
  datatype Priority = High | Normal | Low

  /** One Redis list: a channel and a priority. */
  datatype Queue = Queue(channel: Channel, priority: Priority)

  /** The fields of models.Notification that travel through Redis as JSON and matter afterwards. */
  datatype Job = Job(id: Id, queue: Queue, at: Option<int>, retry: nat)

  /** A row of the notifications table. */
  datatype Row = Row(status: Status, retry: nat, max: nat, batch: Option<BatchId>, key: Option<Key>)

  /** A row of the batches table. */
  datatype Batch = Batch(total: int, pending: int, delivered: int, failed: int)

  /** A creation request that passed validation. */
  datatype Request = Request(queue: Queue, at: Option<int>, key: Option<Key>)

  /** How a call to a store went: as intended, an error without effect, or an error although
      the command took effect. */
  datatype Fault = Fine | Lost | Late

  /** A created notification that its creator has still to publish. */
  datatype Draft = Draft(job: Job, timed: bool)

  /** What the holder of a job copy is about to do with it. */
  datatype Task =
    // creator
    | Publish(timed: bool)
    // worker
    | Throttle
    | Load
    | Mark(retry: nat, max: nat)
    | Send(retry: nat, max: nat)
    | Await(retry: nat, max: nat)
    | Deliver
    | Fail
    | SaveRetry(next: nat)
    | Reschedule
    // scheduler
    | Check
    | Unschedule
    | Requeue

  /** Progress of CreateBatch: requests not yet started, and its two counters. */
  datatype BatchRun = BatchRun(batch: BatchId, total: nat, left: seq<Request>, created: nat, failed: nat)

  /** Where a call of EnqueueNotification stands. */
  datatype Call =
    | Looking(req: Request)                                      // GET of the idempotency key
    | Fetching(req: Request, id: Id)                             // SELECT by the cached id
    | Inserting(req: Request)
    | Refetching(key: Key)                                       // SELECT by idempotency key
    | Storing(key: Key, id: Id, mine: Option<Draft>, probe: nat) // GET, SETNX, GET
    | Publishing(draft: Draft)

  /** What one goroutine is doing. */
  datatype Actor =
    | Idle
    | Creator(run: Option<BatchRun>, call: Call)
    | Between(batchRun: BatchRun)
    | Probing(channel: Channel, index: nat)                        // 3 is the blocking pop
    | Worker(job: Job, task: Task)
    | Sweeper(found: seq<Job>, due: seq<Job>, step: Task)
    | FindBatch(id: Id, wrote: Status)                  // SELECT batch_id, after writing a final status
    | Recounting(batch: BatchId, id: Id, wrote: Status)

  /** Where the live copy of a job is. */
  datatype Place = Nowhere | Listed(queue: Queue) | Timed | Held(actor: ActorId)

  /** History of one notification. `notBefore` is the instant its next send was set for,
      `lastFailure` the clock reading of its last failed send. */
  datatype Hist = Hist(sends: nat, accepts: nat, published: nat, revived: nat, notBefore: int, lastFailure: int)

  /** Which statement last wrote a batch's `pending` and `failed`. */
  datatype LastWrite = Opened | Overwritten(created: nat) | Recounted

  datatype Answer = Answer(key: Key, id: Id)

  datatype State = State(
    now: int,
    // PostgreSQL
    rows: map<Id, Row>,
    unique: map<Key, Id>,
    batches: map<BatchId, Batch>,
    // Redis
    lists: map<Queue, seq<Job>>,
    sched: map<Job, int>,
    cache: map<Key, Id>,
    // goroutines
    actors: map<ActorId, Actor>,
    // histories
    place: map<Id, Place>,
    hist: map<Id, Hist>,
    tally: map<BatchId, LastWrite>,
    pushed: map<Queue, seq<Job>>,
    popped: map<Queue, seq<Job>>,
    answers: set<Answer>)

  function Empty(now: int): State {
    State(now, map[], map[], map[], map[], map[], map[], map[], map[], map[], map[], map[], map[], {})
  }

  const NO_HIST: Hist := Hist(0, 0, 0, 0, 0, 0)

  /** One when the condition holds. */
  function One(b: bool): nat {
    if b then 1 else 0
  }

  function At(s: State, a: ActorId): Actor {
    if a in s.actors then s.actors[a] else Idle
  }

  function HistOf(s: State, i: Id): Hist {
    if i in s.hist then s.hist[i] else NO_HIST
  }

  function Seq(m: map<Queue, seq<Job>>, q: Queue): seq<Job> {
    if q in m then m[q] else []
  }

  /** DequeueNext's order. */
  function Nth(index: nat): Priority {
    if index == 0 then High else if index == 1 then Normal else Low
  }

  predicate Cancellable(st: Status) {
    st == Pending || st == Queued || st == Scheduled
  }

  predicate Claimable(st: Status) {
    st == Pending || st == Queued
  }

  predicate Terminal(st: Status) {
    st == Delivered || st == Failed || st == Cancelled
  }
}
