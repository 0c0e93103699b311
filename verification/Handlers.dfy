/** Creation and cancellation: EnqueueNotification with its idempotency cache, CreateBatch and
    Cancel, command by command over a World. */
module Handlers {
  import opened Model
  import opened Machine
  import opened Backoff
  import opened Worlds
  import opened Workers
  import opened Idempotency

  // ---- EnqueueNotification ----

  /** CheckIdempotency without an id to store. */
  method Lookup(w: World, a: ActorId, ghost run: Option<BatchRun>, req: Request) returns (existing: Option<Id>)
    requires w.Valid() && At(w.state, a) == Creator(run, Looking(req)) && req.key.Some?
    modifies w
    ensures w.Continues(old(w.start), old(w.log))
    ensures w.Valid()
    ensures At(w.state, a) == Creator(run, if existing.Some? then Fetching(req, existing.value) else Inserting(req))
    ensures Calm(old(w.script)) ==>
      && Calm(w.script) && SameStores(old(w.state), w.state) && w.state.unique == old(w.state.unique)
      && existing == (if req.key.value in old(w.state.cache) then Some(old(w.state.cache)[req.key.value]) else None)
  {
    var fault, met := w.Step(a, true);
    existing := if fault == Fine && req.key.value in met.cache then Some(met.cache[req.key.value]) else None;
  }

  /** fetchNotificationByID with the cached id. */
  method FetchById(w: World, a: ActorId, ghost run: Option<BatchRun>, req: Request, id: Id) returns (ok: bool)
    requires w.Valid() && At(w.state, a) == Creator(run, Fetching(req, id)) && req.key.Some?
    modifies w
    ensures w.Continues(old(w.start), old(w.log))
    ensures w.Valid()
    ensures At(w.state, a) == if ok then Caller(run, true) else Creator(run, Inserting(req))
    ensures ok ==> Names(w.state.rows, req.key.value, id)
    ensures Calm(old(w.script)) ==>
      Calm(w.script) && SameStores(old(w.state), w.state) && ok && Names(old(w.state.rows), req.key.value, id)
  {
    var fault, met := w.Step(a, true);
    ReachableKeys(met);
    assert CallOK(met.rows, At(met, a));
    ok := fault == Fine && id in met.rows;
  }

  function BatchOf(run: Option<BatchRun>): Option<BatchId> {
    if run.Some? then Some(run.value.batch) else None
  }

  /** The row EnqueueNotification inserts. */
  function NewRow(batch: Option<BatchId>, req: Request, timed: bool): Row {
    Row(if timed then Scheduled else Queued, 0, MAX_RETRIES, batch, req.key)
  }

  predicate InFuture(req: Request, now: int) {
    req.at.Some? && req.at.value > now
  }

  /** The clock is read to decide the status; then the INSERT, which fails when the key is taken. */
  method InsertRow(w: World, a: ActorId, run: Option<BatchRun>, req: Request) returns (ok: bool, d: Draft)
    requires w.Valid() && At(w.state, a) == Creator(run, Inserting(req))
    modifies w
    ensures w.Continues(old(w.start), old(w.log))
    ensures w.Valid()
    ensures d.job == Job(d.job.id, req.queue, req.at, 0)
    ensures At(w.state, a) ==
      if ok then Holding(run, req, d)
      else if req.key.Some? then Creator(run, Refetching(req.key.value)) else Caller(run, false)
    ensures ok ==> d.job.id in w.state.rows && w.state.rows[d.job.id].key == req.key
    ensures Calm(old(w.script)) ==>
      var s := old(w.state);
      && Calm(w.script) && ok == !(req.key.Some? && req.key.value in s.unique)
      && (!ok ==> SameStores(s, w.state) && w.state.unique == s.unique)
      && (ok ==>
            && d.job.id !in s.rows && d.timed == InFuture(req, s.now)
            && SameStores(s.(rows := s.rows[d.job.id := NewRow(BatchOf(run), req, d.timed)]), w.state))
  {
    var asOf := w.state.now;
    var fault, met, newId := w.Insert(a, asOf);
    ok := fault == Fine && !(req.key.Some? && req.key.value in met.unique);
    d := Draft(Job(newId, req.queue, req.at, 0), InFuture(req, asOf));
  }

  /** fetchNotificationByIdempotencyKey after a failed INSERT. */
  method FetchByKey(w: World, a: ActorId, ghost run: Option<BatchRun>, key: Key) returns (existing: Option<Id>)
    requires w.Valid() && At(w.state, a) == Creator(run, Refetching(key))
    modifies w
    ensures w.Continues(old(w.start), old(w.log))
    ensures w.Valid()
    ensures At(w.state, a) ==
      if existing.Some? then Creator(run, Storing(key, existing.value, None, 0)) else Caller(run, false)
    ensures Calm(old(w.script)) ==>
      && Calm(w.script) && SameStores(old(w.state), w.state)
      && existing == (if key in old(w.state.unique) then Some(old(w.state.unique)[key]) else None)
  {
    var fault, met := w.Step(a, true);
    existing := if fault == Fine && key in met.unique then Some(met.unique[key]) else None;
  }

  /** The cache entry of a key names the row a storing call carries. */
  lemma OneRow(s: State, key: Key, id: Id, cached: Id)
    requires Reachable(s) && Names(s.rows, key, id) && key in s.cache && s.cache[key] == cached
    ensures cached == id
  {
    CacheIsTransparent(s, key);
  }

  /** GET of the key by a call that has an id to store. */
  method GetKey(w: World, a: ActorId, ghost run: Option<BatchRun>, key: Key, ghost id: Id, ghost mine: Option<Draft>)
    returns (absent: bool, existing: Option<Id>)
    requires w.Valid() && At(w.state, a) == Creator(run, Storing(key, id, mine, 0))
    modifies w
    ensures w.Continues(old(w.start), old(w.log))
    ensures w.Valid() && Names(w.state.rows, key, id)
    ensures existing.Some? ==> existing.value == id
    ensures At(w.state, a) ==
      if absent then Creator(run, Storing(key, id, mine, 1)) else Done(run, mine)
    ensures Calm(old(w.script)) ==>
      && Calm(w.script) && SameStores(old(w.state), w.state)
      && absent == (key !in old(w.state.cache)) && existing.Some? == !absent
  {
    var fault, met := w.Step(a, true);
    ReachableKeys(met);
    assert CallOK(met.rows, At(met, a));
    absent := fault == Fine && key !in met.cache;
    existing := if fault == Fine && key in met.cache then Some(met.cache[key]) else None;
    if existing.Some? { OneRow(met, key, id, existing.value); }
  }

  /** Where a call goes after CheckIdempotency: to publish its own row, or back to its caller. */
  function Done(run: Option<BatchRun>, mine: Option<Draft>): Actor {
    match mine
    case Some(d) => Creator(run, Publishing(d))
    case None => Caller(run, true)
  }

  /** SETNX. */
  method SetKeyOnce(w: World, a: ActorId, ghost run: Option<BatchRun>, key: Key, ghost id: Id,
                    ghost mine: Option<Draft>)
    returns (ok: bool, lost: bool)
    requires w.Valid() && At(w.state, a) == Creator(run, Storing(key, id, mine, 1))
    modifies w
    ensures w.Continues(old(w.start), old(w.log))
    ensures w.Valid() && RowsStay(old(w.state), w.state)
    ensures At(w.state, a) == if lost then Creator(run, Storing(key, id, mine, 2)) else Done(run, mine)
    ensures Calm(old(w.script)) ==>
      && Calm(w.script) && ok && lost == (key in old(w.state.cache))
      && SameStores(WithKey(old(w.state), key, id), w.state)
  {
    var fault, met := w.Step(a, true);
    ok := fault == Fine;
    lost := ok && key in met.cache;
  }

  /** The key is set unless it was. */
  function WithKey(s: State, key: Key, id: Id): State {
    if key in s.cache then s else s.(cache := s.cache[key := id])
  }

  /** GET of the key another call has set. */
  method RereadKey(w: World, a: ActorId, ghost run: Option<BatchRun>, key: Key, ghost id: Id, ghost mine: Option<Draft>)
    returns (value: Option<Id>)
    requires w.Valid() && At(w.state, a) == Creator(run, Storing(key, id, mine, 2))
    modifies w
    ensures w.Continues(old(w.start), old(w.log))
    ensures w.Valid() && At(w.state, a) == Done(run, mine) && RowsStay(old(w.state), w.state)
    ensures value.Some? ==> value.value == id
  {
    var fault, met := w.Step(a, true);
    value := if fault == Fine && key in met.cache then Some(met.cache[key]) else None;
    ReachableKeys(met);
    assert CallOK(met.rows, At(met, a));
    if value.Some? { OneRow(met, key, id, value.value); }
  }

  /** What CheckIdempotency returns to a call that has an id to store. */
  datatype KeyReply = KeyStored | KeyExists(id: Id) | KeyError

  /** CheckIdempotency with an id to store. Whoever else has stored the key stored the same id. */
  method StoreKey(w: World, a: ActorId, ghost run: Option<BatchRun>, key: Key, ghost id: Id, ghost mine: Option<Draft>)
    returns (reply: KeyReply)
    requires w.Valid() && At(w.state, a) == Creator(run, Storing(key, id, mine, 0))
    modifies w
    ensures w.Continues(old(w.start), old(w.log))
    ensures w.Valid() && At(w.state, a) == Done(run, mine) && Names(w.state.rows, key, id)
    ensures reply.KeyExists? ==> reply.id == id
    ensures Calm(old(w.script)) ==>
      && Calm(w.script) && reply == (if key in old(w.state.cache) then KeyExists(id) else KeyStored)
      && SameStores(WithKey(old(w.state), key, id), w.state)
  {
    var absent, existing := GetKey(w, a, run, key, id, mine);
    if !absent {
      return if existing.Some? then KeyExists(existing.value) else KeyError;
    }
    var ok, lost := SetKeyOnce(w, a, run, key, id, mine);
    if lost {
      var value := RereadKey(w, a, run, key, id, mine);
      return if value.Some? then KeyExists(value.value) else KeyError;
    }
    reply := if ok then KeyStored else KeyError;
  }

  /** Rows and queued jobs. */
  datatype Jobs = Jobs(rows: map<Id, Row>, lists: map<Queue, seq<Job>>, sched: map<Job, int>)

  function JobsOf(s: State): Jobs {
    Jobs(s.rows, s.lists, s.sched)
  }

  /** The draft's job has joined the sorted set or its list. */
  function Published(jobs: Jobs, d: Draft): Jobs {
    if d.timed then jobs.(sched := jobs.sched[d.job := Secs(d.job.at.GetOr(0))])
    else jobs.(lists := jobs.lists[d.job.queue := Seq(jobs.lists, d.job.queue) + [d.job]])
  }

  /** Counters and clock are the same. */
  predicate SameRest(s: State, t: State) {
    t.batches == s.batches && t.now == s.now
  }

  /** Enqueue or EnqueueScheduled of the notification just created. */
  method PublishJob(w: World, a: ActorId, ghost run: Option<BatchRun>, d: Draft) returns (ok: bool)
    requires w.Valid() && At(w.state, a) == Creator(run, Publishing(d))
    modifies w
    ensures w.Continues(old(w.start), old(w.log))
    ensures w.Valid() && At(w.state, a) == Caller(run, true) && RowsStay(old(w.state), w.state)
    ensures Calm(old(w.script)) ==>
      && Calm(w.script) && ok && SameRest(old(w.state), w.state) && w.state.cache == old(w.state.cache)
      && JobsOf(w.state) == Published(JobsOf(old(w.state)), d)
  {
    var fault, _ := w.Step(a, true);
    ok := fault == Fine;
  }

  /** Some row holds the request's key. */
  ghost predicate KeyHeld(rows: map<Id, Row>, req: Request) {
    req.key.Some? && exists i :: Names(rows, req.key.value, i)
  }

  /** The UNIQUE index knows every key that is held, and the cache knows no other. */
  lemma HeldIff(s: State, req: Request)
    requires Reachable(s)
    ensures KeyHeld(s.rows, req) <==> req.key.Some? && req.key.value in s.unique
    ensures req.key.Some? && req.key.value in s.cache ==> KeyHeld(s.rows, req)
  {
    ReachableKeys(s);
    if req.key.Some? {
      var k := req.key.value;
      if k in s.unique { assert Names(s.rows, k, s.unique[k]); }
      if k in s.cache { assert Names(s.rows, k, s.cache[k]); }
    }
  }

  /** The request's notification has been created under the id and published. */
  function Made(jobs: Jobs, now: int, batch: Option<BatchId>, req: Request, id: Id): Jobs {
    var timed := InFuture(req, now);
    Published(jobs.(rows := jobs.rows[id := NewRow(batch, req, timed)]), Draft(Job(id, req.queue, req.at, 0), timed))
  }

  /** The call that holds draft `d` after its INSERT. */
  function Holding(run: Option<BatchRun>, req: Request, d: Draft): Actor {
    Creator(run, if req.key.Some? then Storing(req.key.value, d.job.id, Some(d), 0) else Publishing(d))
  }

  /** EnqueueNotification after a successful INSERT: cache the key, publish the job. */
  method PublishNew(w: World, a: ActorId, ghost run: Option<BatchRun>, req: Request, d: Draft)
    requires w.Valid() && At(w.state, a) == Holding(run, req, d)
    requires d.job.id in w.state.rows && w.state.rows[d.job.id].key == req.key
    modifies w
    ensures w.Continues(old(w.start), old(w.log))
    ensures w.Valid() && At(w.state, a) == Caller(run, true)
    ensures req.key.Some? ==> Names(w.state.rows, req.key.value, d.job.id)
    ensures Calm(old(w.script)) ==>
      && Calm(w.script) && SameRest(old(w.state), w.state)
      && JobsOf(w.state) == Published(JobsOf(old(w.state)), d)
  {
    if req.key.Some? {
      var _ := StoreKey(w, a, run, req.key.value, d.job.id, Some(d));
    }
    var _ := PublishJob(w, a, run, d);
  }

  /** EnqueueNotification from the INSERT on. */
  method Create(w: World, a: ActorId, run: Option<BatchRun>, req: Request) returns (result: Option<Id>)
    requires w.Valid() && At(w.state, a) == Creator(run, Inserting(req))
    modifies w
    ensures w.Continues(old(w.start), old(w.log))
    ensures w.Valid() && At(w.state, a) == Caller(run, result.Some?)
    ensures result.Some? && req.key.Some? ==> Names(w.state.rows, req.key.value, result.value)
    ensures Calm(old(w.script)) ==>
      var s := old(w.state);
      && Calm(w.script) && result.Some? && SameRest(s, w.state)
      && if req.key.Some? && req.key.value in s.unique
         then JobsOf(w.state) == JobsOf(s)
         else
           && result.value !in s.rows
           && JobsOf(w.state) == Made(JobsOf(s), s.now, BatchOf(run), req, result.value)
  {
    var ok, d := InsertRow(w, a, run, req);
    if !ok {
      if req.key.Some? {
        result := FetchByKey(w, a, run, req.key.value);
        if result.Some? {
          var _ := StoreKey(w, a, run, req.key.value, result.value, None);
        }
      } else {
        result := None;
      }
      return;
    }
    PublishNew(w, a, run, req, d);
    result := Some(d.job.id);
  }

  /** The cached answer, if there is one and its row can be read. */
  method FindCached(w: World, a: ActorId, run: Option<BatchRun>, req: Request) returns (existing: Option<Id>)
    requires w.Valid() && At(w.state, a) == Creator(run, Looking(req)) && req.key.Some?
    modifies w
    ensures w.Continues(old(w.start), old(w.log))
    ensures w.Valid() && At(w.state, a) == if existing.Some? then Caller(run, true) else Creator(run, Inserting(req))
    ensures existing.Some? ==> Names(w.state.rows, req.key.value, existing.value)
    ensures Calm(old(w.script)) ==>
      && Calm(w.script) && SameStores(old(w.state), w.state)
      && (existing.None? ==> w.state.unique == old(w.state.unique))
      && existing.Some? == (req.key.value in old(w.state.cache))
  {
    existing := Lookup(w, a, run, req);
    if existing.Some? {
      var found := FetchById(w, a, run, req, existing.value);
      if !found {
        existing := None;
      }
    }
  }

  /** EnqueueNotification: a keyed request answers the one row that holds its key. Without
      interference it creates a notification exactly when there is no such row. */
  method EnqueueNotification(w: World, a: ActorId, run: Option<BatchRun>, req: Request) returns (result: Option<Id>)
    requires w.Valid() && At(w.state, a) == Creator(run, StartCall(req))
    modifies w
    ensures w.Continues(old(w.start), old(w.log))
    ensures w.Valid() && At(w.state, a) == Caller(run, result.Some?)
    ensures result.Some? && req.key.Some? ==> Names(w.state.rows, req.key.value, result.value)
    ensures Calm(old(w.script)) ==>
      var s := old(w.state);
      && Calm(w.script) && result.Some? && SameRest(s, w.state)
      && if KeyHeld(s.rows, req)
         then JobsOf(w.state) == JobsOf(s)
         else
           && result.value !in s.rows
           && JobsOf(w.state) == Made(JobsOf(s), s.now, BatchOf(run), req, result.value)
    ensures Calm(old(w.script)) && !KeyHeld(old(w.state.rows), req) ==>
      && result.Some? && result.value in w.state.rows
      && var s, t, row := old(w.state), w.state, w.state.rows[result.value];
      var job := Job(result.value, req.queue, req.at, 0);
      && row.retry == 0 && row.max == 3 && row.key == req.key
      && row.batch == (if run.Some? then Some(run.value.batch) else None)
      && if req.at.Some? && req.at.value > s.now
         then
           row.status == Scheduled && t.lists == s.lists && t.sched == s.sched[job := req.at.value / 1_000_000_000]
         else
           && row.status == Queued && t.sched == s.sched
           && t.lists == s.lists[req.queue := Seq(s.lists, req.queue) + [job]]
  {
    w.IsReachable();
    HeldIff(w.state, req);
    if req.key.Some? {
      result := FindCached(w, a, run, req);
      if result.Some? {
        return;
      }
    }
    result := Create(w, a, run, req);
    if Calm(old(w.script)) { MadeMeans(JobsOf(old(w.state)), old(w.state.now), BatchOf(run), req, result.value); }
  }

  /** A request for a later instant waits in the sorted set as scheduled; any other is queued and
      last in its list at once. */
  lemma MadeMeans(jobs: Jobs, now: int, batch: Option<BatchId>, req: Request, id: Id)
    ensures var made, job := Made(jobs, now, batch, req, id), Job(id, req.queue, req.at, 0);
      if req.at.Some? && req.at.value > now
      then
        && made.rows == jobs.rows[id := Row(Scheduled, 0, 3, batch, req.key)]
        && made.lists == jobs.lists && made.sched == jobs.sched[job := req.at.value / 1_000_000_000]
      else
        && made.rows == jobs.rows[id := Row(Queued, 0, 3, batch, req.key)]
        && made.sched == jobs.sched && made.lists == jobs.lists[req.queue := Seq(jobs.lists, req.queue) + [job]]
  {
  }

  // ---- CreateBatch ----

  datatype Reply = BadRequest | ServerError | BatchCreated(batch: BatchId, pending: nat, failed: nat)

  lemma SomeNewBatch(used: set<BatchId>)
    ensures exists b: BatchId :: b !in used
  {
    SomeNewId(used);
  }

  /** INSERT of the batch row. */
  method InsertBatch(w: World, a: ActorId, reqs: seq<Request>) returns (ok: bool, batch: BatchId)
    requires w.Valid() && At(w.state, a) == Idle && 0 < |reqs| <= MAX_BATCH
    modifies w
    ensures w.Continues(old(w.start), old(w.log))
    ensures w.Valid()
    ensures At(w.state, a) == if ok then Between(BatchRun(batch, |reqs|, reqs, 0, 0)) else Idle
    ensures Calm(old(w.script)) ==>
      && Calm(w.script) && ok && batch !in old(w.state.batches)
      && JobsOf(w.state) == JobsOf(old(w.state)) && w.state.now == old(w.state.now)
      && w.state.batches == old(w.state.batches)[batch := Batch(|reqs|, |reqs|, 0, 0)]
  {
    var fault := w.Yield(a);
    SomeNewBatch(w.state.batches.Keys);
    batch :| batch !in w.state.batches;
    w.Do(OpenBatch(a, batch, reqs, fault));
    ok := fault == Fine;
  }

  /** prepareCreateRequest on the next request of the batch. */
  method Prepare(w: World, a: ActorId, ghost r: BatchRun, accepted: bool)
    requires w.Valid() && At(w.state, a) == Between(r) && r.left != []
    modifies w
    ensures w.Continues(old(w.start), old(w.log))
    ensures w.Valid()
    ensures At(w.state, a) ==
      if accepted then Creator(Some(r.(left := r.left[1..])), StartCall(r.left[0]))
      else Between(r.(left := r.left[1..], failed := r.failed + 1))
    ensures Calm(old(w.script)) ==> Calm(w.script) && SameStores(old(w.state), w.state)
  {
    var _, _ := w.Step(a, accepted);
  }

  /** The final UPDATE of pending and failed. */
  method OverwriteCounters(w: World, a: ActorId, ghost r: BatchRun)
    requires w.Valid() && At(w.state, a) == Between(r) && r.left == []
    modifies w
    ensures w.Continues(old(w.start), old(w.log))
    ensures w.Valid() && At(w.state, a) == Idle
    ensures Calm(old(w.script)) ==>
      Calm(w.script) && JobsOf(w.state) == JobsOf(old(w.state)) && w.state.now == old(w.state.now)
    ensures Calm(old(w.script)) && r.batch in old(w.state.batches) ==>
      w.state.batches == old(w.state.batches)[r.batch :=
        old(w.state.batches)[r.batch].(pending := r.created, failed := r.failed)]
  {
    var _, _ := w.Step(a, true);
  }

  /** `id` is what the request comes to: a new id if it is accepted and no row holds its key. */
  ghost predicate Fits(rows: map<Id, Row>, req: Request, accepted: bool, id: Option<Id>) {
    && (id.Some? <==> accepted && !KeyHeld(rows, req))
    && (id.Some? ==> id.value !in rows)
  }

  function MadeIf(jobs: Jobs, now: int, batch: BatchId, req: Request, id: Option<Id>): Jobs {
    if id.Some? then Made(jobs, now, Some(batch), req, id.value) else jobs
  }

  /** The requests have been handled one after the other, with the given new ids. */
  function MadeAll(jobs: Jobs, now: int, batch: BatchId, reqs: seq<Request>, ids: seq<Option<Id>>): Jobs
    requires |ids| == |reqs|
    decreases |reqs|
  {
    if reqs == [] then jobs
    else
      var n := |reqs| - 1;
      MadeIf(MadeAll(jobs, now, batch, reqs[..n], ids[..n]), now, batch, reqs[n], ids[n])
  }

  /** Every request comes to what it should, given the rows it finds. */
  ghost predicate FitAll(jobs: Jobs, now: int, batch: BatchId, reqs: seq<Request>, valid: seq<bool>,
                         ids: seq<Option<Id>>)
    requires |ids| == |reqs| == |valid|
    decreases |reqs|
  {
    reqs != [] ==>
      var n := |reqs| - 1;
      && FitAll(jobs, now, batch, reqs[..n], valid[..n], ids[..n])
      && Fits(MadeAll(jobs, now, batch, reqs[..n], ids[..n]).rows, reqs[n], valid[n], ids[n])
  }

  /** What a batch of requests makes of the stores. */
  ghost predicate Makes(jobs: Jobs, now: int, batch: BatchId, reqs: seq<Request>, valid: seq<bool>,
                        ids: seq<Option<Id>>, made: Jobs)
  {
    && |ids| == |reqs| == |valid|
    && FitAll(jobs, now, batch, reqs, valid, ids) && made == MadeAll(jobs, now, batch, reqs, ids)
  }

  /** One request more. */
  lemma MadeNext(jobs: Jobs, now: int, batch: BatchId, reqs: seq<Request>, valid: seq<bool>, k: nat,
                 ids: seq<Option<Id>>, id: Option<Id>, made: Jobs)
    requires k < |reqs| == |valid| && Makes(jobs, now, batch, reqs[..k], valid[..k], ids, made)
    requires Fits(made.rows, reqs[k], valid[k], id)
    ensures Makes(jobs, now, batch, reqs[..k + 1], valid[..k + 1], ids + [id], MadeIf(made, now, batch, reqs[k], id))
  {
    assert reqs[..k + 1][..k] == reqs[..k] && valid[..k + 1][..k] == valid[..k] && (ids + [id])[..k] == ids;
  }

  /** One round of CreateBatch's loop; `accepted` says whether the request passes validation. */
  method CreateOne(w: World, a: ActorId, r: BatchRun, req: Request, accepted: bool)
    returns (created: bool, ghost id: Option<Id>)
    requires w.Valid() && At(w.state, a) == Between(r) && r.left != [] && r.left[0] == req
    modifies w
    ensures w.Continues(old(w.start), old(w.log))
    ensures w.Valid() && (created ==> accepted)
    ensures At(w.state, a) == Between(
      if created then r.(left := r.left[1..], created := r.created + 1)
      else r.(left := r.left[1..], failed := r.failed + 1))
    ensures Calm(old(w.script)) ==>
      && Calm(w.script) && created == accepted && SameRest(old(w.state), w.state)
      && Fits(old(w.state.rows), req, accepted, id)
      && JobsOf(w.state) == MadeIf(JobsOf(old(w.state)), w.state.now, r.batch, req, id)
  {
    id := None;
    Prepare(w, a, r, accepted);
    if !accepted {
      return false, None;
    }
    ghost var mid := w.state;
    var result := EnqueueNotification(w, a, Some(r.(left := r.left[1..])), req);
    created := result.Some?;
    id := if KeyHeld(mid.rows, req) then None else result;
  }

  /** CreateBatch; `valid` says which requests pass validation and rendering, `ids` what the
      requests come to when nobody interferes. */
  method CreateBatch(w: World, a: ActorId, reqs: seq<Request>, valid: seq<bool>)
    returns (reply: Reply, ghost ids: seq<Option<Id>>)
    requires w.Valid() && At(w.state, a) == Idle && |valid| == |reqs|
    modifies w
    ensures w.Continues(old(w.start), old(w.log))
    ensures w.Valid() && At(w.state, a) == Idle
    ensures reply == BadRequest <==> |reqs| == 0 || |reqs| > 1000
    ensures reply == BadRequest ==> w.state == old(w.state)
    ensures reply.BatchCreated? ==> reply.pending + reply.failed == |reqs| && reply.pending <= Passing(valid)
    ensures Calm(old(w.script)) && 0 < |reqs| <= 1000 ==>
      && reply.BatchCreated? && reply.pending == Passing(valid) && reply.batch !in old(w.state.batches)
      && w.state.batches == old(w.state.batches)[reply.batch := Batch(|reqs|, reply.pending, 0, reply.failed)]
      && Makes(JobsOf(old(w.state)), w.state.now, reply.batch, reqs, valid, ids, JobsOf(w.state))
  {
    ids := [];
    if |reqs| == 0 || |reqs| > MAX_BATCH {
      return BadRequest, [];
    }
    var ok, batch := InsertBatch(w, a, reqs);
    if !ok {
      return ServerError, [];
    }
    reply, ids := CreateAll(w, a, batch, reqs, valid);
  }

  /** The loop of CreateBatch and the final UPDATE. */
  method CreateAll(w: World, a: ActorId, batch: BatchId, reqs: seq<Request>, valid: seq<bool>)
    returns (reply: Reply, ghost ids: seq<Option<Id>>)
    requires w.Valid() && At(w.state, a) == Between(BatchRun(batch, |reqs|, reqs, 0, 0)) && |valid| == |reqs|
    modifies w
    ensures w.Continues(old(w.start), old(w.log))
    ensures w.Valid() && At(w.state, a) == Idle
    ensures reply.BatchCreated? && reply.batch == batch
    ensures reply.pending + reply.failed == |reqs| && reply.pending <= Passing(valid)
    ensures Calm(old(w.script)) && batch in old(w.state.batches) ==>
      && reply.pending == Passing(valid)
      && w.state.batches == old(w.state.batches)[batch :=
           old(w.state.batches)[batch].(pending := reply.pending, failed := reply.failed)]
    ensures Calm(old(w.script)) ==>
      && w.state.now == old(w.state.now)
      && Makes(JobsOf(old(w.state)), w.state.now, batch, reqs, valid, ids, JobsOf(w.state))
  {
    var created, failed: nat := 0, 0;
    var k := 0;
    ids := [];
    Rests(reqs, 0);
    assert valid[..0] == [] && reqs[..0] == [];
    while k < |reqs|
      invariant 0 <= k <= |reqs| && created + failed == k && created <= Passing(valid[..k])
      invariant w.Valid() && At(w.state, a) == Between(BatchRun(batch, |reqs|, reqs[k..], created, failed))
      invariant w.Continues(old(w.start), old(w.log))
      invariant Calm(old(w.script)) ==>
        && Calm(w.script) && created == Passing(valid[..k]) && SameRest(old(w.state), w.state)
        && Makes(JobsOf(old(w.state)), w.state.now, batch, reqs[..k], valid[..k], ids, JobsOf(w.state))
    {
      Rests(reqs, k);
      PassingNext(valid, k);
      ghost var made := JobsOf(w.state);
      var one, id := CreateOne(w, a, BatchRun(batch, |reqs|, reqs[k..], created, failed), reqs[k], valid[k]);
      if Calm(old(w.script)) {
        MadeNext(JobsOf(old(w.state)), w.state.now, batch, reqs, valid, k, ids, id, made);
      }
      ids := ids + [id];
      if one {
        created := created + 1;
      } else {
        failed := failed + 1;
      }
      k := k + 1;
    }
    assert valid[..k] == valid && reqs[k..] == [] && reqs[..k] == reqs;
    OverwriteCounters(w, a, BatchRun(batch, |reqs|, [], created, failed));
    reply := BatchCreated(batch, created, failed);
  }

  lemma Rests(reqs: seq<Request>, k: nat)
    requires k <= |reqs|
    ensures k == 0 ==> reqs[k..] == reqs
    ensures k < |reqs| ==> reqs[k..] != [] && reqs[k..][0] == reqs[k] && reqs[k..][1..] == reqs[k + 1..]
  {
  }

  /** How many requests pass validation. */
  function Passing(valid: seq<bool>): nat {
    if valid == [] then 0 else (if valid[|valid| - 1] then 1 else 0) + Passing(valid[..|valid| - 1])
  }

  lemma PassingNext(valid: seq<bool>, k: nat)
    requires k < |valid|
    ensures Passing(valid[..k + 1]) == Passing(valid[..k]) + (if valid[k] then 1 else 0)
  {
    assert valid[..k + 1][..k] == valid[..k];
  }

  // ---- Cancel ----

  datatype Cancellation = Done | Refused | Error

  predicate Open(s: State, id: Id) {
    id in s.rows && Cancellable(s.rows[id].status)
  }

  /** The guarded UPDATE of Cancel. */
  method UpdateToCancelled(w: World, a: ActorId, id: Id) returns (ok: bool, rowsAffected: nat)
    requires w.Valid() && At(w.state, a) == Idle
    modifies w
    ensures w.Continues(old(w.start), old(w.log))
    ensures w.Valid()
    ensures At(w.state, a) == if ok && rowsAffected > 0 then FindBatch(id, Cancelled) else Idle
    ensures Calm(old(w.script)) ==>
      && Calm(w.script) && ok && rowsAffected == (if Open(old(w.state), id) then 1 else 0)
      && SameStores(if Open(old(w.state), id) then WithStatus(old(w.state), id, Cancelled) else old(w.state), w.state)
  {
    var fault := w.Yield(a);
    ok := fault == Fine;
    rowsAffected := if Open(w.state, id) then 1 else 0;
    w.Do(Event.Cancel(a, id, fault));
  }

  /** Cancel: the guarded UPDATE, then the recount. */
  method Cancel(w: World, a: ActorId, id: Id) returns (reply: Cancellation)
    requires w.Valid() && At(w.state, a) == Idle
    modifies w
    ensures w.Continues(old(w.start), old(w.log))
    ensures w.Valid() && At(w.state, a) == Idle
    ensures Calm(old(w.script)) ==>
      var s := old(w.state);
      if Open(s, id)
      then reply == Cancellation.Done && SameStores(Counted(WithStatus(s, id, Cancelled), id), w.state)
      else reply == Refused && SameStores(s, w.state)
  {
    var ok, rowsAffected := UpdateToCancelled(w, a, id);
    if !ok {
      return Error;
    }
    if rowsAffected == 0 {
      return Refused;
    }
    UpdateBatchCounters(w, a, id, Cancelled);
    reply := Cancellation.Done;
  }
}
