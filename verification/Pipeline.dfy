/** The post-session analysis pipeline as a state machine.

    One session is followed. Every database call, queue call and step body is one atomic
    step of one process; the machine lets any number of processes interleave. A label names
    the step taken and carries every choice the code does not make itself (the outcome of a
    step body, staleness, crashes), so `Apply` is a function. */
module Pipeline {

  // PIPELINE_STEPS: finalize_transcript, score, extract, report, notify.
  const STEPS: nat := 5
  const SCORE: nat := 1
  const EXTRACT: nat := 2
  const MAX_ATTEMPTS: nat := 4

  /** The deterministic job id: one per (step, generation) of the session. */
  datatype Key = Key(step: nat, gen: nat)

  datatype JobStatus = JobQueued | JobProcessing | JobCompleted | JobFailed | JobSkipped {
    predicate Terminal() { JobCompleted? || JobFailed? || JobSkipped? }
  }

  datatype AnalysisStatus = NotStarted | Queued | Processing | Completed | Partial | Failed | Skipped {
    predicate Active() { Queued? || Processing? }
    predicate Final() { Completed? || Partial? || Failed? }
  }

  /** A queue entry; `made` is the number of attempts already made. */
  datatype Entry = Waiting(made: nat) | Active(made: nat) | Finished

  datatype Outcome = Succeed | SkipStep | Retryable | Permanent

  /** A worker is named by the job id it holds, so one job id has at most one worker. */
  datatype Pid = WorkerOf(key: Key, made: nat) | Other(n: nat)

  /** Where a process stands; the locals it has read are the arguments. */
  datatype Pc =
    | StartRead(reprocess: bool)
    | StartSkip
    | StartWrite(reprocess: bool)
    | StartCreate(g: nat)
    | SweepRead
    | SweepJobs(g: nat)
    | DispatchLook(target: Key, replace: bool)
    | DispatchState(target: Key, replace: bool)
    | DispatchRow(target: Key)
    | DispatchRemove(target: Key)
    | DispatchAdd(target: Key)
    | CompleteRead(g: nat)
    | CompleteClaim(g: nat, final: AnalysisStatus)
    | WorkRead
    | WorkSkip
    | WorkJob(sawQueued: bool)
    | WorkUpsert(sawQueued: bool)
    | WorkMark
    | WorkBody
    | WorkRun
    | WorkScored
    | WorkOutcome(outcome: Outcome)
    | Advance
    | Return(throws: bool)

  /** What happens to the queue entry of a worker that dies. */
  datatype Fate = Redelivered | MarkedFinished | Vanished

  datatype Choice = Choice(ended: bool, skip: bool, stale: bool, scores: bool, outcome: Outcome)

  datatype Label =
    | Step(pid: Pid, choice: Choice)
    | Deliver(key: Key)
    | StartArrives(n: nat, reprocess: bool)
    | SweepArrives(n: nat)
    | Retry(n: nat, step: nat)
    | Delete
    | Die(pid: Pid, fate: Fate)
    | Lose(key: Key)

  type Rows = map<Key, JobStatus>

  /** The rows that steer the pipeline: the generation and deletion mark of the session, the
      job rows, and the queue. */
  datatype Db = Db(gen: nat, deleted: bool, jobs: Rows, queue: map<Key, Entry>)

  /** Counters kept only to state properties: step bodies started, completions claimed, retries
      accepted, and the generations in which a worker died, an entry was lost or a step retried. */
  datatype Tally = Tally(bodies: map<Key, nat>, claims: map<nat, nat>, retries: map<nat, nat>, disturbed: set<nat>)

  /** `evals` maps the generation of an evaluation row to its isCurrent flag. */
  datatype State = State(db: Db, status: AnalysisStatus, evals: map<nat, bool>, procs: map<Pid, Pc>, tally: Tally)

  const INITIAL := State(Db(0, false, map[], map[]), NotStarted, map[], map[], Tally(map[], map[], map[], {}))

  function Count<K>(m: map<K, nat>, k: K): nat { if k in m then m[k] else 0 }

  function Bump<K>(m: map<K, nat>, k: K): map<K, nat> { m[k := Count(m, k) + 1] }

  // ---- the job rows ----

  predicate Done(jobs: Rows, k: Key) { k in jobs && jobs[k].Terminal() }

  /** The first step from `from` on whose row is missing or not terminal; STEPS if there is none. */
  function FirstOpen(jobs: Rows, g: nat, from: nat): (r: nat)
    requires from <= STEPS
    ensures from <= r <= STEPS
    ensures forall t :: from <= t < r ==> Done(jobs, Key(t, g))
    ensures r < STEPS ==> !Done(jobs, Key(r, g))
    decreases STEPS - from
  {
    if from < STEPS && Done(jobs, Key(from, g)) then FirstOpen(jobs, g, from + 1) else from
  }

  predicate RowIs(jobs: Rows, k: Key, s: JobStatus) { k in jobs && jobs[k] == s }

  /** The final status completePipeline computes from the rows of a generation. */
  function FinalOf(jobs: Rows, g: nat): AnalysisStatus {
    var failed := exists s | 0 <= s < STEPS :: RowIs(jobs, Key(s, g), JobFailed);
    var coreProduced := RowIs(jobs, Key(SCORE, g), JobCompleted) || RowIs(jobs, Key(EXTRACT, g), JobCompleted);
    var coreFailed := RowIs(jobs, Key(SCORE, g), JobFailed) || RowIs(jobs, Key(EXTRACT, g), JobFailed);
    if !failed then Completed else if coreFailed && !coreProduced then Failed else Partial
  }

  /** createMany with skipDuplicates. */
  function CreateRows(jobs: Rows, g: nat): Rows {
    (map s | 0 <= s < STEPS :: Key(s, g) := JobQueued) + jobs
  }

  /** The reset of retryStep: existing rows of the generation from `step` on. */
  function ResetRows(jobs: Rows, g: nat, step: nat): Rows {
    map k | k in jobs :: if k.gen == g && step <= k.step < STEPS then JobQueued else jobs[k]
  }

  // ---- the evaluation rows ----

  /** The scoring transaction of generation g while the session is at generation `latest`. */
  function ScoreTransaction(evals: map<nat, bool>, latest: nat, g: nat): map<nat, bool> {
    var isLatest := latest == g;
    var upserted := evals[g := isLatest];
    if isLatest then map e | e in upserted :: e == g && upserted[e] else upserted
  }

  // ---- the steps ----

  predicate ForWorkers(pc: Pc) {
    pc.WorkRead? || pc.WorkSkip? || pc.WorkJob? || pc.WorkUpsert? || pc.WorkMark? || pc.WorkBody?
    || pc.WorkRun? || pc.WorkScored? || pc.WorkOutcome? || pc.Advance?
  }

  predicate Dispatching(pc: Pc) {
    pc.DispatchLook? || pc.DispatchState? || pc.DispatchRow? || pc.DispatchRemove? || pc.DispatchAdd?
  }

  predicate Completing(pc: Pc) { pc.CompleteRead? || pc.CompleteClaim? }

  predicate Fits(p: Pid, pc: Pc) { ForWorkers(pc) ==> p.WorkerOf? && p.key.step < STEPS }

  function SetRow(db: Db, k: Key, s: JobStatus): Db { db.(jobs := db.jobs[k := s]) }

  /** A retryable error before the last attempt sends the step back to the queue. */
  predicate TriesAgain(outcome: Outcome, made: nat) { outcome.Retryable? && made + 1 < MAX_ATTEMPTS }

  function RowAfter(outcome: Outcome, made: nat): JobStatus {
    match outcome
    case Succeed => JobCompleted
    case SkipStep => JobSkipped
    case Retryable => if TriesAgain(outcome, made) then JobQueued else JobFailed
    case Permanent => JobFailed
  }

  /** Where process p goes next from `pc`. */
  function NextPc(db: Db, status: AnalysisStatus, p: Pid, pc: Pc, c: Choice): Pc
    requires Fits(p, pc)
  {
    match pc
    // startPipeline
    case StartRead(reprocess) =>
      if db.deleted || !c.ended || (!reprocess && db.gen > 0) || (c.skip && reprocess) then Return(false)
      else if c.skip then StartSkip
      else StartWrite(reprocess)
    case StartSkip => Return(false)
    case StartWrite(reprocess) => if reprocess || db.gen == 0 then StartCreate(db.gen + 1) else Return(false)
    case StartCreate(g) => DispatchLook(Key(0, g), false)
    // sweep
    case SweepRead =>
      if !c.stale || db.deleted then Return(false)
      else if status.Active() && db.gen > 0 then SweepJobs(db.gen)
      else if status.NotStarted? && db.gen == 0 then StartRead(false)
      else Return(false)
    case SweepJobs(g) => Onward(db.jobs, g, 0)
    // enqueueStep
    case DispatchLook(k, replace) => if k in db.queue then DispatchState(k, replace) else DispatchAdd(k)
    case DispatchState(k, replace) =>
      if k in db.queue && db.queue[k].Finished?
      then if replace then DispatchRemove(k) else DispatchRow(k)
      else Return(false)
    case DispatchRow(k) => if Done(db.jobs, k) then Return(false) else DispatchRemove(k)
    case DispatchRemove(k) => DispatchAdd(k)
    case DispatchAdd(_) => Return(false)
    // completePipeline
    case CompleteRead(g) => CompleteClaim(g, FinalOf(db.jobs, g))
    case CompleteClaim(_, _) => Return(false)
    // runStep and advance
    case WorkRead => if db.deleted || db.gen != p.key.gen then WorkSkip else WorkJob(status.Queued?)
    case WorkSkip => Return(false)
    case WorkJob(sawQueued) => if Done(db.jobs, p.key) then Advance else WorkUpsert(sawQueued)
    case WorkUpsert(sawQueued) => if sawQueued then WorkMark else WorkBody
    case WorkMark => WorkBody
    case WorkBody => WorkRun
    case WorkRun => if p.key.step == SCORE && c.scores then WorkScored else WorkOutcome(c.outcome)
    case WorkScored => WorkOutcome(c.outcome)
    case WorkOutcome(outcome) => if TriesAgain(outcome, p.made) then Return(true) else Advance
    case Advance => Onward(db.jobs, p.key.gen, p.key.step + 1)
    case Return(throws) => Return(throws)
  }

  /** Dispatch the first open step from `from` on, or complete the generation. */
  function Onward(jobs: Rows, g: nat, from: nat): Pc
    requires from <= STEPS
  {
    var next := FirstOpen(jobs, g, from);
    if next < STEPS then DispatchLook(Key(next, g), false) else CompleteRead(g)
  }

  /** What the step of process p at `pc` writes to the rows and the queue. */
  function NextDb(db: Db, p: Pid, pc: Pc): Db
    requires Fits(p, pc)
  {
    match pc
    case StartWrite(reprocess) => if reprocess || db.gen == 0 then db.(gen := db.gen + 1) else db
    case StartCreate(g) => db.(jobs := CreateRows(db.jobs, g))
    case DispatchRemove(k) =>
      // An active entry is locked: removing it fails and the error is ignored.
      if k in db.queue && !db.queue[k].Active? then db.(queue := db.queue - {k}) else db
    case DispatchAdd(k) => if k in db.queue then db else db.(queue := db.queue[k := Waiting(0)])
    case WorkSkip => if p.key in db.jobs && !db.jobs[p.key].Terminal() then SetRow(db, p.key, JobSkipped) else db
    case WorkUpsert(_) => SetRow(db, p.key, JobProcessing)
    case WorkOutcome(outcome) => SetRow(db, p.key, RowAfter(outcome, p.made))
    case _ => db
  }

  /** The conditional update by which completePipeline claims a completion. */
  predicate Claims(st: State, pc: Pc) { pc.CompleteClaim? && st.db.gen == pc.g && st.status.Active() }

  function NextStatus(st: State, p: Pid, pc: Pc): AnalysisStatus
    requires Fits(p, pc)
  {
    match pc
    case StartSkip => if st.db.gen == 0 then Skipped else st.status
    case StartWrite(reprocess) => if reprocess || st.db.gen == 0 then Queued else st.status
    case CompleteClaim(_, final) => if Claims(st, pc) then final else st.status
    case WorkMark => if st.db.gen == p.key.gen && st.status.Queued? then Processing else st.status
    case _ => st.status
  }

  function NextTally(st: State, p: Pid, pc: Pc): Tally
    requires Fits(p, pc)
  {
    if pc.WorkBody? then st.tally.(bodies := Bump(st.tally.bodies, p.key))
    else if Claims(st, pc) then st.tally.(claims := Bump(st.tally.claims, pc.g))
    else st.tally
  }

  function NextEvals(st: State, p: Pid, pc: Pc, c: Choice): map<nat, bool>
    requires Fits(p, pc)
  {
    if pc.WorkRun? && p.key.step == SCORE && c.scores
    then ScoreTransaction(st.evals, st.db.gen, p.key.gen)
    else st.evals
  }

  /** The process ends; a worker's queue entry is acknowledged, or put back after a retryable error. */
  function Leave(st: State, p: Pid, throws: bool): State {
    match p
    case WorkerOf(k, made) => Settle(st, p, st.db.queue[k := if throws then Waiting(made + 1) else Finished])
    case Other(_) => st.(procs := st.procs - {p})
  }

  function Settle(st: State, p: Pid, queue: map<Key, Entry>): State {
    st.(procs := st.procs - {p}, db := st.db.(queue := queue))
  }

  function StepOf(st: State, p: Pid, pc: Pc, c: Choice): State
    requires Fits(p, pc)
  {
    if pc.Return? then Leave(st, p, pc.throws)
    else State(NextDb(st.db, p, pc), NextStatus(st, p, pc), NextEvals(st, p, pc, c),
               st.procs[p := NextPc(st.db, st.status, p, pc, c)], NextTally(st, p, pc))
  }

  predicate Enabled(st: State, l: Label) {
    match l
    case Step(p, _) => p in st.procs && Fits(p, st.procs[p])
    case Deliver(k) => k in st.db.queue && st.db.queue[k].Waiting?
    case StartArrives(n, _) => Other(n) !in st.procs
    case SweepArrives(n) => Other(n) !in st.procs
    case Retry(n, step) =>
      && Other(n) !in st.procs && !st.db.deleted && st.db.gen > 0 && step < STEPS
      && RowIs(st.db.jobs, Key(step, st.db.gen), JobFailed)
    case Delete => true
    case Die(p, _) => p in st.procs
    case Lose(k) => k in st.db.queue && !st.db.queue[k].Active?
  }

  function Disturb(st: State, g: nat): State {
    st.(tally := st.tally.(disturbed := st.tally.disturbed + {g}))
  }

  function Apply(st: State, l: Label): State
    requires Enabled(st, l)
  {
    match l
    case Step(p, c) => StepOf(st, p, st.procs[p], c)
    case Deliver(k) =>
      var made := st.db.queue[k].made;
      st.(db := st.db.(queue := st.db.queue[k := Active(made)]), procs := st.procs[WorkerOf(k, made) := WorkRead])
    case StartArrives(n, reprocess) => st.(procs := st.procs[Other(n) := StartRead(reprocess)])
    case SweepArrives(n) => st.(procs := st.procs[Other(n) := SweepRead])
    case Retry(n, step) =>
      var g := st.db.gen;
      var reset := st.(db := st.db.(jobs := ResetRows(st.db.jobs, g, step)), status := Processing,
                       procs := st.procs[Other(n) := DispatchLook(Key(step, g), true)],
                       tally := st.tally.(retries := Bump(st.tally.retries, g)));
      Disturb(reset, g)
    case Delete => st.(db := st.db.(deleted := true))
    case Die(p, fate) =>
      if p.Other? then st.(procs := st.procs - {p})
      else
        var settled := match fate
          case Redelivered => st.db.queue[p.key := Waiting(p.made)]
          case MarkedFinished => st.db.queue[p.key := Finished]
          case Vanished => st.db.queue - {p.key};
        Disturb(Settle(st, p, settled), p.key.gen)
    case Lose(k) => Disturb(st.(db := st.db.(queue := st.db.queue - {k})), k.gen)
  }
}
