/** The idempotency cache in front of the UNIQUE column never changes an answer. */
module Idempotency {
  import opened Model
  import opened Machine
  import opened Copies
  import opened Delivery
  import opened Guarantees

  /** Row `i` holds key `k`. */
  predicate Names(rows: map<Id, Row>, k: Key, i: Id) {
    i in rows && rows[i].key == Some(k)
  }

  /** The ids a call of EnqueueNotification carries name rows holding its key. */
  predicate CallOK(rows: map<Id, Row>, x: Actor) {
    match x
    case Creator(_, Looking(req)) => req.key.Some?
    case Creator(_, Fetching(req, id)) => req.key.Some? && Names(rows, req.key.value, id)
    case Creator(_, Storing(key, id, mine, _)) => Names(rows, key, id) && (mine.Some? ==> mine.value.job.id == id)
    case _ => true
  }

  /** The UNIQUE index lists each key under the row that holds it. */
  ghost predicate IndexOK(rows: map<Id, Row>, unique: map<Key, Id>) {
    && (forall i :: i in rows && rows[i].key.Some? ==>
          rows[i].key.value in unique && unique[rows[i].key.value] == i)
    && (forall k :: k in unique ==> Names(rows, k, unique[k]))
  }

  ghost predicate KeysOK(s: State) {
    && IndexOK(s.rows, s.unique)
    && (forall k :: k in s.cache ==> Names(s.rows, k, s.cache[k]))
    && (forall x :: x in s.answers ==> Names(s.rows, x.key, x.id))
    && (forall a :: a in s.actors ==> CallOK(s.rows, s.actors[a]))
  }

  /** The effect inserts only a key not in the index, and caches or answers only the row's id. */
  ghost predicate KeyFine(s: State, fx: Effect) {
    && (fx.sql.SetRow? ==> fx.id in s.rows && fx.sql.row.key == s.rows[fx.id].key)
    && (fx.sql.InsertRow? ==>
          fx.id !in s.rows && (fx.sql.row.key.Some? ==> fx.sql.row.key.value !in s.unique))
    && (fx.redis.SetKey? ==> Names(s.rows, fx.redis.key, fx.redis.value))
    && (fx.answer.Some? ==> Names(s.rows, fx.answer.value.key, fx.answer.value.id))
    && CallOK(RowsAfter(s.rows, fx), fx.next)
  }

  lemma NamesStay(s: State, fx: Effect, k: Key, i: Id)
    requires KeyFine(s, fx) && Names(s.rows, k, i)
    ensures Names(RowsAfter(s.rows, fx), k, i)
  {
  }

  lemma IndexKept(s: State, fx: Effect)
    requires IndexOK(s.rows, s.unique) && KeyFine(s, fx)
    ensures IndexOK(RowsAfter(s.rows, fx), UniqueAfter(s.unique, fx))
  {
  }

  lemma KeysLift(s: State, a: ActorId, fx: Effect)
    requires KeysOK(s) && KeyFine(s, fx)
    ensures KeysOK(Commit(s, a, fx))
  {
    var t := Commit(s, a, fx);
    IndexKept(s, fx);
    forall k, i | Names(s.rows, k, i) ensures Names(t.rows, k, i) { NamesStay(s, fx, k, i); }
    forall b | b in t.actors ensures CallOK(t.rows, t.actors[b]) {
      if b != a { assert CallOK(s.rows, s.actors[b]); }
    }
  }

  lemma InsertingKeys(s: State, a: ActorId, run: Option<BatchRun>, req: Request, c: Choice)
    requires c.newId !in s.rows
    ensures KeyFine(s, MoveInserting(s, a, run, req, c))
  {
  }

  lemma CreatorKeys(s: State, a: ActorId, run: Option<BatchRun>, call: Call, c: Choice)
    requires KeysOK(s) && CallOK(s.rows, Creator(run, call)) && !call.Inserting?
    requires call.Publishing? ==> call.draft.job.id in s.rows
    ensures KeyFine(s, MoveCreator(s, a, run, call, c))
  {
  }

  /** The others leave keys alone. */
  lemma OtherKeys(s: State, a: ActorId, fx: Effect)
    requires Legal(s, a, fx) && !At(s, a).Creator?
    requires fx.sql.SetRow? ==> fx.sql.row.key == RowOf(s, fx.id).key
    ensures KeyFine(s, fx)
  {
  }

  lemma MoveKeys(s: State, a: ActorId, c: Choice)
    requires KeysOK(s) && DeliveryOK(s) && Enabled(s, Act(a, c))
    ensures KeyFine(s, Move(s, a, c))
  {
    var x := At(s, a);
    if x.Creator? {
      assert CallOK(s.rows, x);
      if x.call.Inserting? { InsertingKeys(s, a, x.run, x.call.req, c); }
      else {
        if x.call.Publishing? { GripView(s, a, x.call.draft.job.id); }
        CreatorKeys(s, a, x.run, x.call, c);
      }
    } else {
      MoveLegal(s, a, c);
      MoveFine(s, a, c);
      OtherKeys(s, a, Move(s, a, c));
    }
  }

  lemma StartKeys(s: State, e: Event)
    requires CellsOK(s) && Enabled(s, e)
    requires e.Submit? || e.OpenBatch? || e.Cancel? || e.Dequeue? || e.Sweep?
    ensures KeyFine(s, Start(s, e))
  {
    StartLegal(s, e);
    StartFine(s, e);
    OtherKeys(s, e.actor, Start(s, e));
  }

  lemma KeysStep(s: State, e: Event)
    requires DeliveryOK(s) && KeysOK(s) && Enabled(s, e)
    ensures KeysOK(Apply(s, e))
  {
    match e
    case Act(a, c) => MoveKeys(s, a, c); KeysLift(s, a, Move(s, a, c));
    case Tick(_) =>
    case Expire(_) =>
    case Crash(_) =>
    case _ => StartKeys(s, e); KeysLift(s, e.actor, Start(s, e));
  }

  lemma {:induction false} RunKeys(s: State, trace: seq<Event>)
    requires DeliveryOK(s) && KeysOK(s) && Runs(s, trace)
    ensures KeysOK(After(s, trace))
    decreases |trace|
  {
    if trace != [] {
      DeliveryStep(s, trace[0]);
      KeysStep(s, trace[0]);
      RunKeys(Apply(s, trace[0]), trace[1..]);
    }
  }

  lemma ReachableKeys(s: State)
    requires Reachable(s)
    ensures KeysOK(s)
  {
    var now :| Reaches(Empty(now), s);
    var trace :| Runs(Empty(now), trace) && After(Empty(now), trace) == s;
    RunKeys(Empty(now), trace);
  }

  /** For any number of concurrent creators with one key and any expiry or failure of the cache:
      one row holds the key, its job is published at most once, every successful call answers
      that row, and so does every cache entry. */
  lemma CacheIsTransparent(s: State, k: Key)
    requires Reachable(s)
    ensures forall i, j :: Names(s.rows, k, i) && Names(s.rows, k, j) ==> i == j
    ensures forall i :: Names(s.rows, k, i) ==> HistOf(s, i).published <= 1
    ensures forall x :: x in s.answers && x.key == k ==> Names(s.rows, k, x.id)
    ensures k in s.cache ==> Names(s.rows, k, s.cache[k])
  {
    ReachableOK(s);
    ReachableKeys(s);
  }

  // ---- one lifetime of a cache entry ----

  predicate NoExpiry(trace: seq<Event>, k: Key) {
    forall j :: 0 <= j < |trace| ==> trace[j] != Expire(k)
  }

  /** The calls along the run whose SETNX of the key succeeds. */
  ghost function Wins(s: State, trace: seq<Event>, k: Key): nat
    requires Runs(s, trace)
    decreases |trace|
  {
    if trace == [] then 0
    else
      var t := Apply(s, trace[0]);
      (if k !in s.cache && k in t.cache then 1 else 0) + Wins(t, trace[1..], k)
  }

  lemma CreatorWrites(s: State, a: ActorId, run: Option<BatchRun>, call: Call, c: Choice)
    ensures var redis := MoveCreator(s, a, run, call, c).redis;
      redis.SetKey? ==> call.Storing? && redis == SetKey(call.key, call.id) && call.key !in s.cache
  {
  }

  /** A key is set by a storing call, to the id it carries, and stays until it expires. */
  lemma KeyIsSetOnce(s: State, e: Event, k: Key)
    requires DeliveryOK(s) && Enabled(s, e) && e != Expire(k)
    ensures var t := Apply(s, e);
      && (k in s.cache ==> k in t.cache && t.cache[k] == s.cache[k])
      && (k !in s.cache && k in t.cache ==>
            && e.Act? && At(s, e.actor).Creator? && At(s, e.actor).call.Storing?
            && At(s, e.actor).call.key == k && At(s, e.actor).call.id == t.cache[k])
  {
    match e
    case Act(a, c) =>
      MoveLegal(s, a, c);
      if At(s, a).Creator? { CreatorWrites(s, a, At(s, a).run, At(s, a).call, c); }
    case Tick(_) =>
    case Expire(_) =>
    case Crash(_) =>
    case _ => StartLegal(s, e);
  }

  /** Within one lifetime of an entry at most one storing call wins, and the entry keeps the
      winner's id, so that every loser's GET returns it. */
  lemma {:induction false} OneWinner(s: State, trace: seq<Event>, k: Key)
    requires DeliveryOK(s) && Runs(s, trace) && NoExpiry(trace, k)
    ensures k in s.cache ==> k in After(s, trace).cache && After(s, trace).cache[k] == s.cache[k]
    ensures Wins(s, trace, k) == if k !in s.cache && k in After(s, trace).cache then 1 else 0
    decreases |trace|
  {
    if trace != [] {
      DeliveryStep(s, trace[0]);
      KeyIsSetOnce(s, trace[0], k);
      assert forall j :: 0 <= j < |trace[1..]| ==> trace[1..][j] == trace[j + 1];
      OneWinner(Apply(s, trace[0]), trace[1..], k);
    }
  }
}
