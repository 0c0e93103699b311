/** Two runs without crashes and failed calls that end with a wrong batch counter. In one the only
    member of a batch is cancelled, and recounted, before CreateBatch's overwrite; in the other a
    batch finds its only request already answered, and gets no member at all. */
module StaleCounters {
  import opened Model
  import opened Machine
  import opened Guarantees
  import opened Settlement
  import opened Completion

  lemma CleanThen(s: State, e: Event) returns (t: State)
    requires CleanlyReached(s) && Enabled(s, e) && Clean(s, e)
    ensures t == Apply(s, e) && CleanlyReached(t)
  {
    t := Apply(s, e);
    assert [e][0] == e && [e][1..] == [];
    assert After(s, [e]) == After(t, []);
    CleanContinues(s, [e]);
  }

  const REQ: Request := Request(Queue(SMS, High), None, None)
  const COPY: Job := Job(7, Queue(SMS, High), None, 0)
  const MEMBER: Row := Row(Queued, 0, MAX_RETRIES, Some(5), None)
  const RUN: BatchRun := BatchRun(5, 1, [], 0, 0)

  /** The batch is open and its one request has passed validation. */
  lemma BatchOpened() returns (s: State)
    ensures CleanlyReached(s) && s.now == 0 && s.rows == map[] && s.lists == map[] && s.sched == map[]
    ensures s.unique == map[] && 5 in s.batches && s.actors == map[1 := Creator(Some(RUN), Inserting(REQ))]
  {
    s := Empty(0);
    assert Runs(s, []) && CleanRun(s, []) && After(s, []) == s;
    assert CleanlyReached(s);
    s := CleanThen(s, OpenBatch(1, 5, [REQ], Fine));
    assert At(s, 1) == Between(BatchRun(5, 1, [REQ], 0, 0));
    assert [REQ][1..] == [];
    s := CleanThen(s, Act(1, OK));
  }

  /** Its notification is created. */
  lemma MemberCreated() returns (s: State)
    ensures CleanlyReached(s) && s.rows == map[7 := MEMBER] && s.lists == map[] && s.sched == map[] && 5 in s.batches
    ensures s.actors == map[1 := Creator(Some(RUN), Publishing(Draft(COPY, false)))]
  {
    s := BatchOpened();
    assert At(s, 1) == Creator(Some(RUN), Inserting(REQ));
    s := CleanThen(s, Act(1, Choice(Fine, true, 7, 0)));
  }

  /** It waits in its list; CreateBatch has only its overwrite left to do. */
  lemma MemberPublished() returns (s: State)
    ensures CleanlyReached(s) && s.rows == map[7 := MEMBER] && s.sched == map[] && 5 in s.batches
    ensures s.lists == map[COPY.queue := [COPY]]
    ensures s.actors == map[1 := Between(RUN.(created := 1))]
  {
    s := MemberCreated();
    assert At(s, 1) == Creator(Some(RUN), Publishing(Draft(COPY, false)));
    assert [] + [COPY] == [COPY];
    s := CleanThen(s, Act(1, OK));
  }

  /** It is cancelled. */
  lemma MemberCancelled() returns (s: State)
    ensures CleanlyReached(s) && s.rows == map[7 := MEMBER.(status := Cancelled)] && s.sched == map[] && 5 in s.batches
    ensures s.lists == map[COPY.queue := [COPY]]
    ensures s.actors == map[1 := Between(RUN.(created := 1)), 2 := FindBatch(7, Cancelled)]
  {
    s := MemberPublished();
    s := CleanThen(s, Cancel(2, 7, Fine));
  }

  /** The batch is recounted for the cancellation: the batch is looked up, */
  lemma MemberFound() returns (s: State)
    ensures CleanlyReached(s) && s.rows == map[7 := MEMBER.(status := Cancelled)] && s.sched == map[] && 5 in s.batches
    ensures s.lists == map[COPY.queue := [COPY]]
    ensures s.actors == map[1 := Between(RUN.(created := 1)), 2 := Recounting(5, 7, Cancelled)]
  {
    s := MemberCancelled();
    assert At(s, 2) == FindBatch(7, Cancelled);
    s := CleanThen(s, Act(2, OK));
  }

  /** and its counters are written. */
  lemma MemberRecounted() returns (s: State)
    ensures CleanlyReached(s) && s.rows == map[7 := MEMBER.(status := Cancelled)] && s.sched == map[] && 5 in s.batches
    ensures s.lists == map[COPY.queue := [COPY]]
    ensures s.actors == map[1 := Between(RUN.(created := 1)), 2 := Idle]
  {
    s := MemberFound();
    assert At(s, 2) == Recounting(5, 7, Cancelled);
    s := CleanThen(s, Act(2, OK));
  }

  /** CreateBatch overwrites the recount. */
  lemma Overwrote() returns (s: State)
    ensures CleanlyReached(s) && s.rows == map[7 := MEMBER.(status := Cancelled)] && s.sched == map[] && 5 in s.batches
    ensures s.lists == map[COPY.queue := [COPY]] && 5 in s.tally && s.tally[5] == Overwritten(1)
    ensures s.actors == map[1 := Idle, 2 := Idle]
  {
    s := MemberRecounted();
    assert At(s, 1) == Between(RUN.(created := 1));
    s := CleanThen(s, Act(1, OK));
  }

  /** A worker asks for a job. */
  lemma WorkerProbes() returns (s: State)
    ensures CleanlyReached(s) && s.rows == map[7 := MEMBER.(status := Cancelled)] && s.sched == map[] && 5 in s.batches
    ensures s.lists == map[COPY.queue := [COPY]] && 5 in s.tally && s.tally[5] == Overwritten(1)
    ensures s.actors == map[1 := Idle, 2 := Idle, 3 := Probing(SMS, 0)]
  {
    s := Overwrote();
    s := CleanThen(s, Dequeue(3, SMS));
  }

  /** What the probe of the first list does. */
  lemma FirstProbe(s: State)
    requires At(s, 3) == Probing(SMS, 0) && Seq(s.lists, COPY.queue) == [COPY]
    ensures Move(s, 3, OK) == Receive(3, COPY, COPY.queue, Fine)
  {
  }

  /** It pops the member's. */
  lemma CopyPopped() returns (s: State)
    ensures CleanlyReached(s) && s.rows == map[7 := MEMBER.(status := Cancelled)] && s.sched == map[] && 5 in s.batches
    ensures s.lists == map[COPY.queue := []] && 5 in s.tally && s.tally[5] == Overwritten(1)
    ensures s.actors == map[1 := Idle, 2 := Idle, 3 := Worker(COPY, Throttle)]
  {
    s := WorkerProbes();
    assert At(s, 3) == Probing(SMS, 0);
    FirstProbe(s);
    assert [COPY][1..] == [];
    s := CleanThen(s, Act(3, OK));
  }

  /** It finds the notification cancelled, and nothing is left to do. */
  lemma AllDone() returns (s: State)
    ensures CleanlyReached(s) && Quiescent(s) && 5 in s.batches && 5 in s.tally && s.tally[5] == Overwritten(1)
  {
    s := CopyPopped();
    assert At(s, 3) == Worker(COPY, Throttle);
    s := CleanThen(s, Act(3, OK));
    assert At(s, 3) == Worker(COPY, Load);
    s := CleanThen(s, Act(3, OK));
  }

  /** A batch can end with a counter that no recount would give, although nothing went wrong. */
  lemma CountersCanStayWrong()
    ensures exists s: State, b :: CleanlyReached(s) && Quiescent(s) && b in s.batches
                               && !Exact(s, b) && s.batches[b].pending == 1
  {
    var s := AllDone();
    FinalCounters(s, 5);
  }

  // ---- a batch that finds its only request answered ----

  const KEYED: Request := Request(Queue(SMS, High), None, Some("k"))
  const HOLDER: Row := Row(Queued, 0, MAX_RETRIES, None, Some("k"))
  const EMPTY_RUN: BatchRun := BatchRun(5, 1, [KEYED], 0, 0)

  /** A single request with a key is made; the key is not cached. */
  lemma KeyAsked() returns (s: State)
    ensures CleanlyReached(s) && s.now == 0 && s.rows == map[] && s.batches == map[]
    ensures s.unique == map[] && s.cache == map[] && s.actors == map[1 := Creator(None, Inserting(KEYED))]
  {
    s := Empty(0);
    assert Runs(s, []) && CleanRun(s, []) && After(s, []) == s;
    assert CleanlyReached(s);
    s := CleanThen(s, Submit(1, KEYED));
    assert At(s, 1) == Creator(None, Looking(KEYED));
    s := CleanThen(s, Act(1, OK));
  }

  /** Its row is inserted. */
  lemma KeyInserted() returns (s: State)
    ensures CleanlyReached(s) && s.rows == map[7 := HOLDER] && s.batches == map[] && s.cache == map[]
    ensures s.actors == map[1 := Creator(None, Storing("k", 7, Some(Draft(COPY, false)), 0))]
  {
    s := KeyAsked();
    assert At(s, 1) == Creator(None, Inserting(KEYED));
    s := CleanThen(s, Act(1, Choice(Fine, true, 7, 0)));
  }

  /** Its key is about to be cached. */
  lemma KeyAbsent() returns (s: State)
    ensures CleanlyReached(s) && s.rows == map[7 := HOLDER] && s.batches == map[] && s.cache == map[]
    ensures s.actors == map[1 := Creator(None, Storing("k", 7, Some(Draft(COPY, false)), 1))]
  {
    s := KeyInserted();
    assert At(s, 1) == Creator(None, Storing("k", 7, Some(Draft(COPY, false)), 0));
    s := CleanThen(s, Act(1, OK));
  }

  lemma KeyCached() returns (s: State)
    ensures CleanlyReached(s) && s.rows == map[7 := HOLDER] && s.batches == map[] && s.cache == map["k" := 7]
    ensures s.actors == map[1 := Creator(None, Publishing(Draft(COPY, false)))]
  {
    s := KeyAbsent();
    assert At(s, 1) == Creator(None, Storing("k", 7, Some(Draft(COPY, false)), 1));
    s := CleanThen(s, Act(1, OK));
  }

  lemma PublishingMove(s: State)
    requires At(s, 1) == Creator(None, Publishing(Draft(COPY, false)))
    ensures var fx := Move(s, 1, OK); fx.next == Idle && fx.sql == NoSql && fx.redis == LPush(COPY)
  {
  }

  /** The call returns. */
  lemma KeyAnswered() returns (s: State)
    ensures CleanlyReached(s) && s.rows == map[7 := HOLDER] && s.batches == map[] && s.cache == map["k" := 7]
    ensures s.actors == map[1 := Idle]
  {
    s := KeyCached();
    PublishingMove(s);
    s := CleanThen(s, Act(1, OK));
  }

  /** A batch with the same request is opened. */
  lemma HitOpened() returns (s: State)
    ensures CleanlyReached(s) && s.rows == map[7 := HOLDER] && 5 in s.batches && s.cache == map["k" := 7]
    ensures s.actors == map[1 := Between(EMPTY_RUN)]
  {
    s := KeyAnswered();
    s := CleanThen(s, OpenBatch(1, 5, [KEYED], Fine));
  }

  /** Its request finds the key in the cache. */
  lemma HitFound() returns (s: State)
    ensures CleanlyReached(s) && s.rows == map[7 := HOLDER] && 5 in s.batches
    ensures s.actors == map[1 := Creator(Some(RUN), Fetching(KEYED, 7))]
  {
    s := HitOpened();
    assert At(s, 1) == Between(EMPTY_RUN);
    assert [KEYED][1..] == [];
    s := CleanThen(s, Act(1, OK));
    assert At(s, 1) == Creator(Some(RUN), Looking(KEYED));
    s := CleanThen(s, Act(1, OK));
  }

  /** It is answered with the existing notification, and counted as created. */
  lemma HitCounted() returns (s: State)
    ensures CleanlyReached(s) && s.rows == map[7 := HOLDER] && 5 in s.batches
    ensures s.actors == map[1 := Between(RUN.(created := 1))]
  {
    s := HitFound();
    assert At(s, 1) == Creator(Some(RUN), Fetching(KEYED, 7));
    s := CleanThen(s, Act(1, OK));
  }

  /** CreateBatch writes pending = 1 for a batch without rows. */
  lemma HitOverwritten() returns (s: State)
    ensures CleanlyReached(s) && Memberless(s, 5, 1)
  {
    s := HitCounted();
    assert At(s, 1) == Between(RUN.(created := 1));
    s := CleanThen(s, Act(1, OK));
    assert forall a :: At(s, a) == Idle;
    assert s.rows == map[7 := HOLDER];
  }

  /** And so it stays: without any race or failure, all work done, one request of a batch without
      rows is still counted as pending. */
  lemma AnsweredRequestsStayPending()
    ensures exists s: State, b :: CleanlyReached(s) && Quiescent(s) && b in s.batches
                               && Machine.Members(s, b) == {} && s.batches[b].pending == 1 && !Exact(s, b)
  {
    var s := HitOverwritten();
    CleanOK(s);
    ReachedCleanly(s);
    var o := Oracle((b, n) => true, (i, n) => true);
    WorkCanFinish(s, o);
    var trace :| Goes(s, trace, o) && Quiescent(After(s, trace));
    MemberlessStaysPending(s, trace, 5, 1);
    CleanContinues(s, trace);
    RunMemberless(s, trace, 5, 1);
  }
}
