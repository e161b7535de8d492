/** Retrying a step while an entry of a later step waits in the queue lets that step overtake it. */
module PipelineRetry {
  import opened Pipeline
  import opened PipelineSafety
  import opened PipelineTheorems

  function Repeat(l: Label, n: nat): (ls: seq<Label>)
    ensures n > 0 ==> ls == [l] + Repeat(l, n - 1)
    ensures forall i :: 0 <= i < |ls| ==> ls[i] == l
  {
    if n == 0 then [] else [l] + Repeat(l, n - 1)
  }

  const FAILING := Choice(true, false, true, false, Permanent)

  // ---- the exact condition ----

  /** From here on no run starts a body out of order. */
  ghost predicate OrderlyFrom(st: State) {
    forall ls, l :: Run(st, ls) && Enabled(After(st, ls), l) ==> InOrder(After(st, ls), l)
  }

  /** An entry of a later step of the current generation waits in the queue. */
  ghost predicate LaterWaits(st: State, step: nat) {
    exists k :: k in st.db.queue && st.db.queue[k].Waiting? && k.gen == st.db.gen && k.step > step
  }

  lemma InvIsOrderly(st: State)
    requires Inv(st)
    ensures OrderlyFrom(st)
  {
    forall ls, l | Run(st, ls) && Enabled(After(st, ls), l) ensures InOrder(After(st, ls), l) {
      RunKeeps(st, ls);
      BodyInOrder(After(st, ls), l);
    }
  }

  /** Three steps take a worker that finds its row open to the start of its body. */
  lemma WorkerAtBody(st: State, w: Pid, c: Choice)
    requires w.WorkerOf? && w.key.step < STEPS && w in st.procs && st.procs[w].WorkRead?
    requires !st.db.deleted && st.db.gen == w.key.gen && !st.status.Queued? && !Done(st.db.jobs, w.key)
    ensures var ls, end := Repeat(Step(w, c), 3),
                            st.(procs := st.procs[w := WorkBody], db := SetRow(st.db, w.key, JobProcessing));
            Run(st, ls) && After(st, ls) == end
  {
    var l := Step(w, c);
    var s1 := st.(procs := st.procs[w := WorkJob(false)]);
    var s2 := st.(procs := st.procs[w := WorkUpsert(false)]);
    var s3 := st.(procs := st.procs[w := WorkBody], db := SetRow(st.db, w.key, JobProcessing));
    assert Apply(st, l) == s1;
    assert Apply(s1, l) == s2;
    assert Apply(s2, l) == s3;
    RunOne(s2, l, []);
    RunOne(s1, l, Repeat(l, 1));
    RunOne(st, l, Repeat(l, 2));
  }

  lemma RunOne(st: State, l: Label, ls: seq<Label>)
    requires Enabled(st, l) && Safe(st, l) && Run(Apply(st, l), ls)
    ensures Run(st, [l] + ls) && After(st, [l] + ls) == After(Apply(st, l), ls)
  {
  }

  lemma WaitingBreaksOrder(st: State, n: nat, step: nat, k: Key)
    requires Inv(st) && st.procs == map[] && Enabled(st, Retry(n, step))
    requires k in st.db.queue && st.db.queue[k].Waiting? && k.gen == st.db.gen && k.step > step
    ensures !OrderlyFrom(Apply(st, Retry(n, step)))
  {
    var c := FAILING;
    var w := WorkerOf(k, st.db.queue[k].made);
    assert EntryOk(st.db, st.procs, k);
    var s1 := Apply(st, Retry(n, step));
    var s2 := Apply(s1, Deliver(k));
    assert !Done(s2.db.jobs, Key(step, k.gen)) && !Done(s2.db.jobs, k);
    WorkerAtBody(s2, w, c);
    RunOne(s1, Deliver(k), Repeat(Step(w, c), 3));
    OutOfOrder(After(s2, Repeat(Step(w, c), 3)), w, c, step);
  }

  lemma OutOfOrder(st: State, w: Pid, c: Choice, step: nat)
    requires w.WorkerOf? && w in st.procs && st.procs[w].WorkBody? && step < w.key.step < STEPS
    requires !Done(st.db.jobs, Key(step, w.key.gen))
    ensures Enabled(st, Step(w, c)) && !InOrder(st, Step(w, c))
  {
  }

  lemma NothingWaitsIsSafe(st: State, step: nat)
    requires Inv(st) && st.procs == map[] && !LaterWaits(st, step)
    ensures RetrySafe(st, step)
  {
    forall k | k in st.db.queue && k.gen == st.db.gen && k.step > step ensures st.db.queue[k].Finished? {
      assert EntryOk(st.db, st.procs, k);
    }
  }

  /** With nobody at work on the session, a retry keeps the order of step bodies in every run from there on
      exactly when no queue entry of a later step of the generation waits. */
  lemma RetryKeepsOrderExactly(st: State, n: nat, step: nat)
    requires Inv(st) && st.procs == map[] && Enabled(st, Retry(n, step))
    ensures OrderlyFrom(Apply(st, Retry(n, step))) <==> !LaterWaits(st, step)
  {
    if LaterWaits(st, step) {
      var k :| k in st.db.queue && st.db.queue[k].Waiting? && k.gen == st.db.gen && k.step > step;
      WaitingBreaksOrder(st, n, step, k);
    } else {
      NothingWaitsIsSafe(st, step);
      RetryKeeps(st, n, step);
      InvIsOrderly(Apply(st, Retry(n, step)));
    }
  }

  // A retry that breaks the order is reachable: the first step fails for good and the second is queued.

  const FIRST := Key(0, 1)
  const SECOND := Key(1, 1)
  const WORKER := WorkerOf(Key(0, 1), 0)
  const FRESH_ROWS: Rows := map[Key(0, 1) := JobQueued, Key(1, 1) := JobQueued, Key(2, 1) := JobQueued,
                                Key(3, 1) := JobQueued, Key(4, 1) := JobQueued]

  /** `row` with one process only, p at pc. */
  function Alone(row: State, p: Pid, pc: Pc): State { row.(procs := map[p := pc]) }

  /** One step of a process that runs alone. */
  lemma AloneSteps(row: State, p: Pid, pc: Pc, row': State, pc': Pc)
    requires Reachable(Alone(row, p, pc)) && row.procs == map[] && row'.procs == map[]
    requires Fits(p, pc) && !pc.Return?
    requires row'.db == NextDb(row.db, p, pc) && row'.status == NextStatus(row, p, pc)
    requires row'.evals == NextEvals(row, p, pc, FAILING) && row'.tally == NextTally(row, p, pc)
    requires pc' == NextPc(row.db, row.status, p, pc, FAILING)
    ensures Reachable(Alone(row', p, pc'))
  {
    ReachableStep(Alone(row, p, pc), Step(p, FAILING));
    assert Apply(Alone(row, p, pc), Step(p, FAILING)) == Alone(row', p, pc');
  }

  const STARTED := INITIAL.(db := Db(1, false, map[], map[]), status := Queued)
  const WITH_ROWS := STARTED.(db := Db(1, false, FRESH_ROWS, map[]))
  const ENQUEUED := WITH_ROWS.(db := Db(1, false, FRESH_ROWS, map[FIRST := Waiting(0)]))
  const TAKEN := ENQUEUED.(db := Db(1, false, FRESH_ROWS, map[FIRST := Active(0)]))
  const MARKED := TAKEN.(db := Db(1, false, FRESH_ROWS[FIRST := JobProcessing], map[FIRST := Active(0)]))
  const RUNNING := MARKED.(status := Processing)
  const RAN := RUNNING.(tally := Tally(map[FIRST := 1], map[], map[], {}))
  const FAILED := RAN.(db := Db(1, false, FRESH_ROWS[FIRST := JobFailed], map[FIRST := Active(0)]))
  const NEXT_QUEUED := FAILED.(db := Db(1, false, FRESH_ROWS[FIRST := JobFailed],
                                    map[FIRST := Active(0), SECOND := Waiting(0)]))
  const SETTLED := FAILED.(db := Db(1, false, FRESH_ROWS[FIRST := JobFailed],
                                 map[FIRST := Finished, SECOND := Waiting(0)]))

  lemma StartReachable()
    ensures Reachable(Alone(STARTED, Other(0), StartCreate(1)))
  {
    var p := Other(0);
    assert Run(INITIAL, []) && After(INITIAL, []) == INITIAL;
    ReachableStep(INITIAL, StartArrives(0, false));
    assert Apply(INITIAL, StartArrives(0, false)) == Alone(INITIAL, p, StartRead(false));
    AloneSteps(INITIAL, p, StartRead(false), INITIAL, StartWrite(false));
    AloneSteps(INITIAL, p, StartWrite(false), STARTED, StartCreate(1));
  }

  lemma RowsReachable()
    ensures Reachable(Alone(WITH_ROWS, Other(0), DispatchLook(FIRST, false)))
  {
    StartReachable();
    assert CreateRows(map[], 1) == FRESH_ROWS;
    AloneSteps(STARTED, Other(0), StartCreate(1), WITH_ROWS, DispatchLook(FIRST, false));
  }

  lemma EnqueuedReachable()
    ensures Reachable(ENQUEUED)
  {
    var p := Other(0);
    RowsReachable();
    AloneSteps(WITH_ROWS, p, DispatchLook(FIRST, false), WITH_ROWS, DispatchAdd(FIRST));
    AloneSteps(WITH_ROWS, p, DispatchAdd(FIRST), ENQUEUED, Return(false));
    AloneEnds(ENQUEUED, p, ENQUEUED);
  }

  /** A process that runs alone ends. */
  lemma AloneEnds(row: State, p: Pid, row': State)
    requires Reachable(Alone(row, p, Return(false))) && row.procs == map[]
    requires row' == if p.WorkerOf? then row.(db := row.db.(queue := row.db.queue[p.key := Finished])) else row
    ensures Reachable(row')
  {
    ReachableStep(Alone(row, p, Return(false)), Step(p, FAILING));
    assert Apply(Alone(row, p, Return(false)), Step(p, FAILING)) == row';
  }

  lemma TakenReachable()
    ensures Reachable(Alone(TAKEN, WORKER, WorkRead))
  {
    EnqueuedReachable();
    ReachableStep(ENQUEUED, Deliver(FIRST));
    assert Apply(ENQUEUED, Deliver(FIRST)) == Alone(TAKEN, WORKER, WorkRead);
  }

  lemma ReadReachable()
    ensures Reachable(Alone(TAKEN, WORKER, WorkUpsert(true)))
  {
    TakenReachable();
    AloneSteps(TAKEN, WORKER, WorkRead, TAKEN, WorkJob(true));
    AloneSteps(TAKEN, WORKER, WorkJob(true), TAKEN, WorkUpsert(true));
  }

  lemma MarkedReachable()
    ensures Reachable(Alone(MARKED, WORKER, WorkMark))
  {
    ReadReachable();
    AloneSteps(TAKEN, WORKER, WorkUpsert(true), MARKED, WorkMark);
  }

  lemma BodyReachable()
    ensures Reachable(Alone(RUNNING, WORKER, WorkBody))
  {
    MarkedReachable();
    AloneSteps(MARKED, WORKER, WorkMark, RUNNING, WorkBody);
  }

  lemma OutcomeReachable()
    ensures Reachable(Alone(RAN, WORKER, WorkOutcome(Permanent)))
  {
    BodyReachable();
    AloneSteps(RUNNING, WORKER, WorkBody, RAN, WorkRun);
    AloneSteps(RAN, WORKER, WorkRun, RAN, WorkOutcome(Permanent));
  }

  lemma AdvanceReachable()
    ensures Reachable(Alone(FAILED, WORKER, Advance))
  {
    OutcomeReachable();
    assert RowAfter(Permanent, 0) == JobFailed;
    AloneSteps(RAN, WORKER, WorkOutcome(Permanent), FAILED, Advance);
  }

  lemma FailedReachable()
    ensures Reachable(Alone(FAILED, WORKER, DispatchLook(SECOND, false)))
  {
    AdvanceReachable();
    assert FirstOpen(FAILED.db.jobs, 1, 1) == 1;
    AloneSteps(FAILED, WORKER, Advance, FAILED, DispatchLook(SECOND, false));
  }

  lemma NextQueuedReachable()
    ensures Reachable(Alone(NEXT_QUEUED, WORKER, Return(false)))
  {
    FailedReachable();
    AloneSteps(FAILED, WORKER, DispatchLook(SECOND, false), FAILED, DispatchAdd(SECOND));
    AloneSteps(FAILED, WORKER, DispatchAdd(SECOND), NEXT_QUEUED, Return(false));
  }

  lemma SettledReachable()
    ensures Reachable(SETTLED)
  {
    NextQueuedReachable();
    AloneEnds(NEXT_QUEUED, WORKER, SETTLED);
  }

  /** A reachable state with nobody at work, in which a retry of the failed step is accepted and lets the
      second step's body start while the first is not terminal. */
  lemma UnsafeRetryIsReachable()
    ensures Reachable(SETTLED) && SETTLED.procs == map[]
    ensures Enabled(SETTLED, Retry(0, 0)) && !RetrySafe(SETTLED, 0)
    ensures !OrderlyFrom(Apply(SETTLED, Retry(0, 0)))
  {
    SettledReachable();
    ReachableInv(SETTLED);
    WaitingBreaksOrder(SETTLED, 0, 0, SECOND);
  }
}
