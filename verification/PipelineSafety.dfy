/** What every step of the analysis pipeline keeps, and what follows for whole runs. */
module PipelineSafety {
  import opened Pipeline

  /** All earlier steps of the same generation are terminal. */
  ghost predicate Earlier(jobs: Rows, k: Key) {
    forall t :: 0 <= t < k.step ==> Done(jobs, Key(t, k.gen))
  }

  ghost predicate AllDone(jobs: Rows, g: nat) {
    forall t :: 0 <= t < STEPS ==> Done(jobs, Key(t, g))
  }

  ghost predicate Superseded(db: Db, k: Key) { db.deleted || k.gen < db.gen }

  ghost predicate GenOk(db: Db, g: nat) { 1 <= g <= db.gen }

  ghost predicate KeyOk(db: Db, k: Key) { k.step < STEPS && GenOk(db, k.gen) }

  /** Between marking the row as processing and recording the outcome. */
  predicate Running(pc: Pc) {
    pc.WorkMark? || pc.WorkBody? || pc.WorkRun? || pc.WorkScored? || pc.WorkOutcome?
  }

  /** What holds of a process that stands at `pc`, whoever runs it. */
  ghost predicate PlaceOk(db: Db, pc: Pc) {
    && (pc.StartCreate? || pc.SweepJobs? || Completing(pc) ==> GenOk(db, pc.g))
    && (Dispatching(pc) ==> KeyOk(db, pc.target) && Earlier(db.jobs, pc.target))
    && (Completing(pc) ==> AllDone(db.jobs, pc.g))
    && (pc.CompleteClaim? ==> pc.final == FinalOf(db.jobs, pc.g))
  }

  /** What holds of the worker holding job id k. */
  ghost predicate WorkerOk(db: Db, k: Key, made: nat, pc: Pc) {
    && KeyOk(db, k) && Earlier(db.jobs, k) && made < MAX_ATTEMPTS
    && k in db.queue && db.queue[k] == Active(made)
    && (ForWorkers(pc) || Dispatching(pc) || Completing(pc) || pc.Return?)
    && (pc.WorkSkip? ==> Superseded(db, k))
    && (pc.WorkUpsert? ==> !Done(db.jobs, k))
    && (Running(pc) ==> RowIs(db.jobs, k, JobProcessing))
    && (pc.Advance? || Dispatching(pc) || Completing(pc) ==> Done(db.jobs, k))
    && (Dispatching(pc) ==> pc.target.gen == k.gen)
    && (Completing(pc) ==> pc.g == k.gen)
    && (pc == Return(true) ==> made + 1 < MAX_ATTEMPTS && RowIs(db.jobs, k, JobQueued))
    && (pc == Return(false) ==> Done(db.jobs, k) || Superseded(db, k))
  }

  ghost predicate ProcOk(db: Db, p: Pid, pc: Pc) {
    && PlaceOk(db, pc)
    && (p.WorkerOf? ==> WorkerOk(db, p.key, p.made, pc))
    && (p.Other? ==> !ForWorkers(pc) && pc != Return(true))
  }

  ghost predicate RowsOk(db: Db) {
    && (forall k :: k in db.jobs ==> KeyOk(db, k))
    && (forall k :: Done(db.jobs, k) ==> Earlier(db.jobs, k))
  }

  ghost predicate EntryOk(db: Db, procs: map<Pid, Pc>, k: Key)
    requires k in db.queue
  {
    && KeyOk(db, k)
    && (!db.queue[k].Finished? ==> Earlier(db.jobs, k) && db.queue[k].made < MAX_ATTEMPTS)
    && (db.queue[k].Active? ==> WorkerOf(k, db.queue[k].made) in procs)
  }

  ghost predicate QueueOk(db: Db, procs: map<Pid, Pc>) {
    forall k :: k in db.queue ==> EntryOk(db, procs, k)
  }

  ghost predicate ProcsOk(db: Db, procs: map<Pid, Pc>) {
    forall p :: p in procs ==> ProcOk(db, p, procs[p])
  }

  ghost predicate StatusOk(db: Db, status: AnalysisStatus) {
    && (db.gen == 0 ==> status.NotStarted? || status.Skipped?)
    && (db.gen > 0 ==>
          status.Active() || (status.Final() && AllDone(db.jobs, db.gen) && status == FinalOf(db.jobs, db.gen)))
  }

  ghost predicate DbOk(db: Db, procs: map<Pid, Pc>) { RowsOk(db) && QueueOk(db, procs) && ProcsOk(db, procs) }

  ghost predicate Inv(st: State) {
    && DbOk(st.db, st.procs)
    && StatusOk(st.db, st.status)
  }

  // ---- frames ----

  /** Generations, deletion and terminal rows only grow. */
  ghost predicate Grows(db: Db, db': Db) {
    && db.gen <= db'.gen
    && (db.deleted ==> db'.deleted)
    && (forall k :: Done(db.jobs, k) ==> k in db'.jobs && db'.jobs[k] == db.jobs[k])
  }

  lemma FinalStable(jobs: Rows, jobs': Rows, g: nat)
    requires AllDone(jobs, g)
    requires forall k :: Done(jobs, k) ==> k in jobs' && jobs'[k] == jobs[k]
    ensures AllDone(jobs', g) && FinalOf(jobs', g) == FinalOf(jobs, g)
  {
  }

  /** A worker's assertion survives a change that leaves its own row and entry alone. */
  ghost predicate Spares(db: Db, db': Db, k: Key) {
    && k in db'.queue && k in db.queue && db'.queue[k] == db.queue[k]
    && (k in db.jobs ==> k in db'.jobs && db'.jobs[k] == db.jobs[k])
    && (Done(db'.jobs, k) ==> Done(db.jobs, k))
  }

  lemma ProcFrame(db: Db, db': Db, p: Pid, pc: Pc)
    requires ProcOk(db, p, pc) && Grows(db, db')
    requires p.WorkerOf? ==> Spares(db, db', p.key)
    ensures ProcOk(db', p, pc)
  {
    if Completing(pc) { FinalStable(db.jobs, db'.jobs, pc.g); }
  }

  lemma StatusFrame(db: Db, db': Db, status: AnalysisStatus)
    requires StatusOk(db, status) && Grows(db, db') && db'.gen == db.gen
    ensures StatusOk(db', status)
  {
  }

  // ---- where a step arrives ----

  lemma OnwardPlaced(db: Db, g: nat, from: nat)
    requires GenOk(db, g) && from <= STEPS && forall t :: 0 <= t < from ==> Done(db.jobs, Key(t, g))
    ensures PlaceOk(db, Onward(db.jobs, g, from))
  {
  }

  lemma OtherPlaced(db: Db, status: AnalysisStatus, p: Pid, pc: Pc, c: Choice)
    requires ProcOk(db, p, pc) && p.Other?
    requires !Dispatching(pc) && !Completing(pc) && !pc.Return?
    ensures ProcOk(NextDb(db, p, pc), p, NextPc(db, status, p, pc, c))
  {
    if pc.SweepJobs? { OnwardPlaced(db, pc.g, 0); }
  }

  lemma SharedPlaced(db: Db, status: AnalysisStatus, p: Pid, pc: Pc, c: Choice)
    requires ProcOk(db, p, pc) && (Dispatching(pc) || Completing(pc))
    ensures ProcOk(NextDb(db, p, pc), p, NextPc(db, status, p, pc, c))
  {
  }

  lemma WorkerPlaced(db: Db, status: AnalysisStatus, p: Pid, pc: Pc, c: Choice)
    requires ProcOk(db, p, pc) && ForWorkers(pc)
    ensures ProcOk(NextDb(db, p, pc), p, NextPc(db, status, p, pc, c))
  {
    if pc.Advance? { OnwardPlaced(db, p.key.gen, p.key.step + 1); }
  }

  // ---- what a step does to the rows and the queue ----

  lemma StepGrows(db: Db, p: Pid, pc: Pc)
    requires ProcOk(db, p, pc)
    ensures Grows(db, NextDb(db, p, pc))
  {
  }

  lemma StepSpares(db: Db, p: Pid, pc: Pc, q: Pid, qc: Pc)
    requires ProcOk(db, p, pc) && ProcOk(db, q, qc) && q != p && q.WorkerOf?
    ensures Spares(db, NextDb(db, p, pc), q.key)
  {
  }

  lemma StepRows(db: Db, p: Pid, pc: Pc)
    requires ProcOk(db, p, pc) && RowsOk(db)
    ensures RowsOk(NextDb(db, p, pc))
  {
    var db' := NextDb(db, p, pc);
    StepGrows(db, p, pc);
    forall k | Done(db'.jobs, k) ensures Earlier(db'.jobs, k) {
      assert Done(db.jobs, k) || (p.WorkerOf? && k == p.key);
    }
  }

  lemma StepQueue(db: Db, procs: map<Pid, Pc>, p: Pid, pc: Pc, pc': Pc)
    requires ProcOk(db, p, pc) && QueueOk(db, procs)
    ensures QueueOk(NextDb(db, p, pc), procs[p := pc'])
  {
    var db' := NextDb(db, p, pc);
    StepGrows(db, p, pc);
    forall k | k in db'.queue ensures EntryOk(db', procs[p := pc'], k) {
      if k in db.queue { assert EntryOk(db, procs, k) && db'.queue[k] == db.queue[k]; }
    }
  }

  lemma StepDb(db: Db, procs: map<Pid, Pc>, status: AnalysisStatus, p: Pid, c: Choice)
    requires DbOk(db, procs) && p in procs && Fits(p, procs[p]) && !procs[p].Return?
    ensures DbOk(NextDb(db, p, procs[p]), procs[p := NextPc(db, status, p, procs[p], c)])
  {
    var pc := procs[p];
    var db' := NextDb(db, p, pc);
    var procs' := procs[p := NextPc(db, status, p, pc, c)];
    StepRows(db, p, pc);
    StepQueue(db, procs, p, pc, procs'[p]);
    StepGrows(db, p, pc);
    forall q | q in procs' ensures ProcOk(db', q, procs'[q]) {
      if q == p {
        Placed(db, status, p, pc, c);
      } else {
        if q.WorkerOf? { StepSpares(db, p, pc, q, procs[q]); }
        ProcFrame(db, db', q, procs[q]);
      }
    }
  }

  lemma Placed(db: Db, status: AnalysisStatus, p: Pid, pc: Pc, c: Choice)
    requires ProcOk(db, p, pc) && !pc.Return?
    ensures ProcOk(NextDb(db, p, pc), p, NextPc(db, status, p, pc, c))
  {
    if Dispatching(pc) || Completing(pc) { SharedPlaced(db, status, p, pc, c); }
    else if ForWorkers(pc) { WorkerPlaced(db, status, p, pc, c); }
    else { OtherPlaced(db, status, p, pc, c); }
  }

  // ---- what a step does to the session status and the counters ----

  lemma StepStatus(st: State, p: Pid, pc: Pc)
    requires ProcOk(st.db, p, pc) && StatusOk(st.db, st.status)
    ensures StatusOk(NextDb(st.db, p, pc), NextStatus(st, p, pc))
  {
    StepGrows(st.db, p, pc);
    if NextDb(st.db, p, pc).gen == st.db.gen && NextStatus(st, p, pc) == st.status {
      StatusFrame(st.db, NextDb(st.db, p, pc), st.status);
    }
  }

  lemma StepKeeps(st: State, p: Pid, c: Choice)
    requires Inv(st) && Enabled(st, Step(p, c)) && !st.procs[p].Return?
    ensures Inv(StepOf(st, p, st.procs[p], c))
  {
    var pc := st.procs[p];
    StepDb(st.db, st.procs, st.status, p, c);
    StepStatus(st, p, pc);
    StepGrows(st.db, p, pc);
  }

  // ---- ends, crashes and arrivals ----

  /** A worker ends and its entry is settled or lost. */
  lemma SettleDb(db: Db, procs: map<Pid, Pc>, p: Pid, queue: map<Key, Entry>)
    requires DbOk(db, procs) && p in procs && p.WorkerOf?
    requires queue == db.queue - {p.key} || queue == db.queue[p.key := Finished]
             || exists made: nat :: made < MAX_ATTEMPTS && queue == db.queue[p.key := Waiting(made)]
    ensures DbOk(db.(queue := queue), procs - {p})
  {
    var db', procs' := db.(queue := queue), procs - {p};
    forall q | q in procs' ensures ProcOk(db', q, procs'[q]) {
      assert ProcOk(db, q, procs[q]) && ProcOk(db, p, procs[p]);
      ProcFrame(db, db', q, procs[q]);
    }
    forall k | k in db'.queue ensures EntryOk(db', procs', k) {
      assert ProcOk(db, p, procs[p]);
      if k != p.key { assert EntryOk(db, procs, k); }
    }
  }

  lemma LeaveKeeps(st: State, p: Pid)
    requires Inv(st) && p in st.procs && st.procs[p].Return?
    ensures Inv(Leave(st, p, st.procs[p].throws))
  {
    assert ProcOk(st.db, p, st.procs[p]);
    if p.WorkerOf? {
      var e := if st.procs[p].throws then Waiting(p.made + 1) else Finished;
      SettleDb(st.db, st.procs, p, st.db.queue[p.key := e]);
    } else {
      OtherGone(st.db, st.procs, p);
    }
  }

  lemma OtherGone(db: Db, procs: map<Pid, Pc>, p: Pid)
    requires DbOk(db, procs) && p.Other?
    ensures DbOk(db, procs - {p})
  {
  }

  lemma DieKeeps(st: State, p: Pid, fate: Fate)
    requires Inv(st) && p in st.procs
    ensures Inv(Apply(st, Die(p, fate)))
  {
    assert ProcOk(st.db, p, st.procs[p]);
    if p.Other? { OtherGone(st.db, st.procs, p); }
    else { SettleDb(st.db, st.procs, p, Apply(st, Die(p, fate)).db.queue); }
  }

  lemma LoseKeeps(st: State, k: Key)
    requires Inv(st) && Enabled(st, Lose(k))
    ensures Inv(Apply(st, Lose(k)))
  {
    var db' := st.db.(queue := st.db.queue - {k});
    forall q | q in st.procs ensures ProcOk(db', q, st.procs[q]) {
      assert ProcOk(st.db, q, st.procs[q]);
      ProcFrame(st.db, db', q, st.procs[q]);
    }
    forall j | j in db'.queue ensures EntryOk(db', st.procs, j) { assert EntryOk(st.db, st.procs, j); }
  }

  lemma DeliverKeeps(st: State, k: Key)
    requires Inv(st) && Enabled(st, Deliver(k))
    ensures Inv(Apply(st, Deliver(k)))
  {
    var st' := Apply(st, Deliver(k));
    assert EntryOk(st.db, st.procs, k);
    forall q | q in st'.procs ensures ProcOk(st'.db, q, st'.procs[q]) {
      if q != WorkerOf(k, st.db.queue[k].made) {
        assert ProcOk(st.db, q, st.procs[q]);
        ProcFrame(st.db, st'.db, q, st.procs[q]);
      }
    }
    forall j | j in st'.db.queue ensures EntryOk(st'.db, st'.procs, j) { assert EntryOk(st.db, st.procs, j); }
  }

  lemma ArrivalKeeps(st: State, n: nat, pc: Pc)
    requires Inv(st) && Other(n) !in st.procs && (pc.StartRead? || pc.SweepRead?)
    ensures Inv(st.(procs := st.procs[Other(n) := pc]))
  {
  }

  lemma DeleteKeeps(st: State)
    requires Inv(st)
    ensures Inv(Apply(st, Delete))
  {
    var db' := st.db.(deleted := true);
    forall q | q in st.procs ensures ProcOk(db', q, st.procs[q]) {
      assert ProcOk(st.db, q, st.procs[q]);
      ProcFrame(st.db, db', q, st.procs[q]);
    }
    forall j | j in db'.queue ensures EntryOk(db', st.procs, j) { assert EntryOk(st.db, st.procs, j); }
    StatusFrame(st.db, db', st.status);
  }

  // ---- retryStep ----

  /** The exact condition on a retry (see `RetryExactlyWhenSafe`): no queue entry and no dispatch
      of a later step of the generation is under way, nobody is completing it, and a worker that
      holds the retried job has not read its row yet. */
  ghost predicate RetrySafe(st: State, step: nat) {
    && (forall k :: k in st.db.queue && k.gen == st.db.gen && k.step > step ==> st.db.queue[k].Finished?)
    && (forall p :: p in st.procs ==> RetryLeaves(st.db.gen, p, st.procs[p], step))
  }

  ghost predicate RetryLeaves(gen: nat, p: Pid, pc: Pc, step: nat) {
    && (Dispatching(pc) && pc.target.gen == gen ==> pc.target.step <= step)
    && (Completing(pc) ==> pc.g != gen)
    && (p.WorkerOf? && p.key == Key(step, gen) ==> pc.WorkRead? || pc.WorkJob?)
  }

  lemma RetryPlace(db: Db, step: nat, pc: Pc)
    requires PlaceOk(db, pc) && step < STEPS && RowIs(db.jobs, Key(step, db.gen), JobFailed)
    ensures PlaceOk(db.(jobs := ResetRows(db.jobs, db.gen, step)), pc)
            <==> && (Dispatching(pc) && pc.target.gen == db.gen ==> pc.target.step <= step)
                 && (Completing(pc) ==> pc.g != db.gen)
  {
  }

  lemma RetryWorker(db: Db, step: nat, k: Key, made: nat, pc: Pc)
    requires WorkerOk(db, k, made, pc) && step < STEPS && RowIs(db.jobs, Key(step, db.gen), JobFailed) && !db.deleted
    requires k.gen == db.gen ==> k.step <= step
    ensures WorkerOk(db.(jobs := ResetRows(db.jobs, db.gen, step)), k, made, pc)
            <==> (k == Key(step, db.gen) ==> pc.WorkRead? || pc.WorkJob?)
  {
  }

  lemma RetryProc(db: Db, step: nat, p: Pid, pc: Pc)
    requires ProcOk(db, p, pc) && step < STEPS && RowIs(db.jobs, Key(step, db.gen), JobFailed) && !db.deleted
    requires p.WorkerOf? && p.key.gen == db.gen ==> p.key.step <= step
    ensures ProcOk(db.(jobs := ResetRows(db.jobs, db.gen, step)), p, pc) <==> RetryLeaves(db.gen, p, pc, step)
  {
    RetryPlace(db, step, pc);
    if p.WorkerOf? { RetryWorker(db, step, p.key, p.made, pc); }
  }

  lemma RetryEntry(st: State, step: nat, k: Key, procs': map<Pid, Pc>)
    requires k in st.db.queue && EntryOk(st.db, st.procs, k) && step < STEPS
    requires RowIs(st.db.jobs, Key(step, st.db.gen), JobFailed) && st.procs.Keys <= procs'.Keys
    ensures EntryOk(st.db.(jobs := ResetRows(st.db.jobs, st.db.gen, step)), procs', k)
            <==> (k.gen == st.db.gen && k.step > step ==> st.db.queue[k].Finished?)
  {
  }

  lemma RetryRows(db: Db, step: nat)
    requires RowsOk(db)
    ensures RowsOk(db.(jobs := ResetRows(db.jobs, db.gen, step)))
  {
    var jobs' := ResetRows(db.jobs, db.gen, step);
    forall k | Done(jobs', k) ensures Earlier(jobs', k) {
      assert Done(db.jobs, k) && Earlier(db.jobs, k);
      assert forall t :: 0 <= t < k.step ==> Done(db.jobs, Key(t, k.gen));
    }
  }

  lemma RetryKeeps(st: State, n: nat, step: nat)
    requires Inv(st) && Enabled(st, Retry(n, step)) && RetrySafe(st, step)
    ensures Inv(Apply(st, Retry(n, step)))
  {
    var g := st.db.gen;
    var st' := Apply(st, Retry(n, step));
    RetryRows(st.db, step);
    forall k | k in st'.db.queue ensures EntryOk(st'.db, st'.procs, k) {
      assert EntryOk(st.db, st.procs, k);
      RetryEntry(st, step, k, st'.procs);
    }
    forall q | q in st'.procs ensures ProcOk(st'.db, q, st'.procs[q]) {
      if q == Other(n) {
        assert Done(st.db.jobs, Key(step, g)) && Earlier(st.db.jobs, Key(step, g));
      } else {
        assert ProcOk(st.db, q, st.procs[q]) && RetryLeaves(g, q, st.procs[q], step);
        RetryProc(st.db, step, q, st.procs[q]);
      }
    }
  }

  lemma UnsafeRetryBreaks(st: State, n: nat, step: nat)
    requires Inv(st) && Enabled(st, Retry(n, step)) && Inv(Apply(st, Retry(n, step)))
    ensures RetrySafe(st, step)
  {
    var st' := Apply(st, Retry(n, step));
    forall k | k in st.db.queue && k.gen == st.db.gen && k.step > step ensures st.db.queue[k].Finished? {
      assert EntryOk(st.db, st.procs, k) && EntryOk(st'.db, st'.procs, k);
      RetryEntry(st, step, k, st'.procs);
    }
    forall p | p in st.procs ensures RetryLeaves(st.db.gen, p, st.procs[p], step) {
      assert ProcOk(st.db, p, st.procs[p]) && p in st'.procs && ProcOk(st'.db, p, st'.procs[p]);
      RetryProc(st.db, step, p, st.procs[p]);
    }
  }

  /** A retry keeps the invariant exactly when it is safe. */
  lemma RetryExactlyWhenSafe(st: State, n: nat, step: nat)
    requires Inv(st) && Enabled(st, Retry(n, step))
    ensures Inv(Apply(st, Retry(n, step))) <==> RetrySafe(st, step)
  {
    if RetrySafe(st, step) { RetryKeeps(st, n, step); }
    if Inv(Apply(st, Retry(n, step))) { UnsafeRetryBreaks(st, n, step); }
  }

  // ---- runs ----

  ghost predicate Safe(st: State, l: Label) { l.Retry? ==> RetrySafe(st, l.step) }

  lemma ApplyKeeps(st: State, l: Label)
    requires Inv(st) && Enabled(st, l) && Safe(st, l)
    ensures Inv(Apply(st, l))
  {
    match l
    case Step(p, c) => if st.procs[p].Return? { LeaveKeeps(st, p); } else { StepKeeps(st, p, c); }
    case Deliver(k) => DeliverKeeps(st, k);
    case StartArrives(n, reprocess) => ArrivalKeeps(st, n, StartRead(reprocess));
    case SweepArrives(n) => ArrivalKeeps(st, n, SweepRead);
    case Retry(n, step) => RetryKeeps(st, n, step);
    case Delete => DeleteKeeps(st);
    case Die(p, fate) => DieKeeps(st, p, fate);
    case Lose(k) => LoseKeeps(st, k);
  }

  /** The state after the labels, taken as far as they are enabled. */
  ghost function After(st: State, ls: seq<Label>): State
    decreases |ls|
  {
    if ls == [] || !Enabled(st, ls[0]) then st else After(Apply(st, ls[0]), ls[1..])
  }

  /** A run: the labels can be taken one after the other from st, and every retry is safe where it happens. */
  ghost predicate Run(st: State, ls: seq<Label>)
    decreases |ls|
  {
    ls == [] || (Enabled(st, ls[0]) && Safe(st, ls[0]) && Run(Apply(st, ls[0]), ls[1..]))
  }

  lemma {:induction false} RunKeeps(st: State, ls: seq<Label>)
    requires Inv(st) && Run(st, ls)
    ensures Inv(After(st, ls))
    decreases |ls|
  {
    if ls != [] {
      ApplyKeeps(st, ls[0]);
      RunKeeps(Apply(st, ls[0]), ls[1..]);
    }
  }

  /** The state can be reached from a session nobody has analysed yet, by a run of any length. */
  ghost predicate Reachable(st: State) {
    exists ls :: Run(INITIAL, ls) && After(INITIAL, ls) == st
  }

  lemma ReachableInv(st: State)
    requires Reachable(st)
    ensures Inv(st)
  {
    var ls :| Run(INITIAL, ls) && After(INITIAL, ls) == st;
    assert Inv(INITIAL);
    RunKeeps(INITIAL, ls);
  }

  lemma {:induction false} RunExtends(st: State, ls: seq<Label>, l: Label)
    requires Run(st, ls) && Enabled(After(st, ls), l) && Safe(After(st, ls), l)
    ensures Run(st, ls + [l]) && After(st, ls + [l]) == Apply(After(st, ls), l)
    decreases |ls|
  {
    if ls == [] {
      assert [l][1..] == [];
    } else {
      RunExtends(Apply(st, ls[0]), ls[1..], l);
      assert (ls + [l])[1..] == ls[1..] + [l];
    }
  }

  lemma ReachableStep(st: State, l: Label)
    requires Reachable(st) && Enabled(st, l) && Safe(st, l)
    ensures Reachable(Apply(st, l))
  {
    var ls :| Run(INITIAL, ls) && After(INITIAL, ls) == st;
    RunExtends(INITIAL, ls, l);
  }
}
