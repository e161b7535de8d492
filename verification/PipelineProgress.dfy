/** Progress of the analysis pipeline. Without a crash the work is never dropped, one sweep repairs whatever crashes
    left behind, and both hold exactly as long as no worker has left an open row behind. */
module PipelineProgress {
  import opened Pipeline
  import opened PipelineSafety
  import opened PipelineAlways
  import opened PipelineBase
  import opened PipelineWork

  // ---- what is open, and who brings it on ----

  /** Step t of the current generation is open; after the last step, the final status is. */
  predicate OpenAt(st: State, t: nat) {
    && !st.db.deleted && st.db.gen > 0
    && if t < STEPS then !Done(st.db.jobs, Key(t, st.db.gen)) else t == STEPS && st.status.Active()
  }

  datatype Carrier = ByProcess(pid: Pid) | ByEntry(key: Key)

  /** Process p at pc will bring the current generation to step t. */
  predicate Carries(db: Db, p: Pid, pc: Pc, t: nat) {
    || (p.WorkerOf? && p.key.gen == db.gen && ForWorkers(pc) && p.key.step + (if pc.Advance? then 1 else 0) <= t)
    || (p.WorkerOf? && p.key.gen == db.gen && pc == Return(true) && p.key.step <= t)
    || (Dispatching(pc) && pc.target.gen == db.gen && pc.target.step <= t && DispatchCarries(db, pc))
    || (pc.StartCreate? && pc.g == db.gen && !Done(db.jobs, Key(0, db.gen)))
    || (pc.SweepJobs? && pc.g == db.gen)
    || (Completing(pc) && pc.g == db.gen && t >= STEPS)
  }

  predicate DispatchCarries(db: Db, pc: Pc)
    requires Dispatching(pc)
  {
    if pc.DispatchAdd? then pc.target !in db.queue
    else !Done(db.jobs, pc.target) && (pc.DispatchState? ==> pc.target in db.queue)
  }

  predicate Holds(st: State, c: Carrier, t: nat) {
    match c
    case ByProcess(p) => p in st.procs && Carries(st.db, p, st.procs[p], t)
    case ByEntry(k) => k in st.db.queue && st.db.queue[k].Waiting? && k.gen == st.db.gen && k.step <= t
  }

  ghost predicate CarriedTo(st: State, t: nat) { exists c :: Holds(st, c, t) }

  /** Whatever is open is brought on by somebody at or before it. */
  ghost predicate Covered(st: State) { forall t :: OpenAt(st, t) ==> CarriedTo(st, t) }

  /** Worker p will not look at its row again, and the row is open. */
  predicate Spent(st: State, p: Pid) {
    && !st.db.deleted && p in st.procs && p.WorkerOf? && p.key.gen == st.db.gen
    && Past(st.procs[p]) && !Done(st.db.jobs, p.key)
  }

  ghost predicate NoneSpent(st: State) { forall p :: !Spent(st, p) }

  /** A restart is about to open a new generation, whose rows nobody has touched. */
  ghost predicate Reopening(st: State) { exists p :: p in st.procs && st.procs[p] == StartWrite(true) }

  /** From here every schedule ends well. */
  ghost predicate Sound(st: State) { Base(st) && (Reopening(st) || (NoneSpent(st) && Covered(st))) }

  // ---- one step of a process ----

  /** The holder of an open job of the current generation brings it on. */
  lemma HolderCarries(st: State, k: Key, t: nat)
    requires Base(st) && NoneSpent(st) && k in st.db.queue && st.db.queue[k].Active? && k.gen == st.db.gen
    requires !st.db.deleted && !Done(st.db.jobs, k) && k.step <= t
    ensures Holds(st, ByProcess(WorkerOf(k, st.db.queue[k].made)), t)
  {
    var p := WorkerOf(k, st.db.queue[k].made);
    assert EntryFits(st.db, st.procs, k);
    assert ProcFits(st.db, p, st.procs[p]) && !Spent(st, p);
  }

  lemma WorkStepCarries(db: Db, status: AnalysisStatus, p: Pid, pc: Pc, ch: Choice, t: nat)
    requires ProcFits(db, p, pc) && ForWorkers(pc) && Carries(db, p, pc, t) && !db.deleted
    requires t < STEPS ==> !Done(NextDb(db, p, pc).jobs, Key(t, db.gen))
    ensures Carries(NextDb(db, p, pc), p, NextPc(db, status, p, pc, ch), t)
  {
  }

  lemma DispatchStepCarries(st: State, p: Pid, ch: Choice, t: nat) returns (c: Carrier)
    requires Base(st) && NoneSpent(st) && Enabled(st, Step(p, ch)) && !st.db.deleted
    requires Dispatching(st.procs[p]) && Carries(st.db, p, st.procs[p], t)
    ensures Holds(Apply(st, Step(p, ch)), c, t)
  {
    var pc := st.procs[p];
    var k := pc.target;
    c := ByProcess(p);
    match pc
    case DispatchState(_, _) =>
      if st.db.queue[k].Waiting? { c := ByEntry(k); }
      if st.db.queue[k].Active? { HolderCarries(st, k, t); c := ByProcess(WorkerOf(k, st.db.queue[k].made)); }
    case DispatchRemove(_) =>
      if k in st.db.queue && st.db.queue[k].Active? {
        HolderCarries(st, k, t);
        c := ByProcess(WorkerOf(k, st.db.queue[k].made));
      }
    case DispatchAdd(_) => c := ByEntry(k);
    case _ =>
  }

  lemma OtherStepOn(st: State, p: Pid, ch: Choice, t: nat)
    requires Base(st) && Enabled(st, Step(p, ch)) && OpenAt(Apply(st, Step(p, ch)), t)
    requires var pc := st.procs[p];
             Carries(st.db, p, pc, t) && (pc.StartCreate? || pc.SweepJobs? || Completing(pc))
    ensures Holds(Apply(st, Step(p, ch)), ByProcess(p), t)
  {
  }

  /** A carrier that takes a step hands over to a carrier. */
  lemma OwnStepCarries(st: State, p: Pid, ch: Choice, t: nat) returns (c: Carrier)
    requires Base(st) && NoneSpent(st) && Enabled(st, Step(p, ch)) && Carries(st.db, p, st.procs[p], t)
    requires OpenAt(Apply(st, Step(p, ch)), t) && !st.procs[p].Return?
    ensures Holds(Apply(st, Step(p, ch)), c, t)
  {
    var pc := st.procs[p];
    assert ProcFits(st.db, p, pc);
    if Dispatching(pc) {
      c := DispatchStepCarries(st, p, ch, t);
    } else if ForWorkers(pc) {
      c := ByProcess(p);
      WorkStepCarries(st.db, st.status, p, pc, ch, t);
    } else {
      c := ByProcess(p);
      OtherStepOn(st, p, ch, t);
    }
  }

  lemma WorkerTakesOver(db: Db, q: Pid, qc: Pc, p: Pid, pc: Pc, status: AnalysisStatus, ch: Choice, t: nat)
    requires ForWorkers(pc)
    requires ProcFits(db, p, pc) && ProcFits(db, q, qc)
    requires Carries(db, q, qc, t) && !Carries(NextDb(db, p, pc), q, qc, t)
    requires !pc.Return? && !db.deleted && NextDb(db, p, pc).gen == db.gen
    requires t < STEPS ==> !Done(NextDb(db, p, pc).jobs, Key(t, db.gen))
    ensures Carries(NextDb(db, p, pc), p, NextPc(db, status, p, pc, ch), t)
  {
  }

  lemma OtherTakesOver(db: Db, q: Pid, qc: Pc, p: Pid, pc: Pc, status: AnalysisStatus, ch: Choice, t: nat)
    requires !ForWorkers(pc) && !pc.DispatchAdd?
    requires ProcFits(db, p, pc) && ProcFits(db, q, qc)
    requires Carries(db, q, qc, t) && !Carries(NextDb(db, p, pc), q, qc, t)
    requires !pc.Return? && !db.deleted && NextDb(db, p, pc).gen == db.gen
    requires t < STEPS ==> !Done(NextDb(db, p, pc).jobs, Key(t, db.gen))
    ensures Carries(NextDb(db, p, pc), p, NextPc(db, status, p, pc, ch), t)
  {
  }

  lemma AddTakesOver(db: Db, q: Pid, qc: Pc, p: Pid, pc: Pc, t: nat)
    requires pc.DispatchAdd?
    requires ProcFits(db, p, pc) && ProcFits(db, q, qc)
    requires Carries(db, q, qc, t) && !Carries(NextDb(db, p, pc), q, qc, t)
    requires !pc.Return? && !db.deleted && NextDb(db, p, pc).gen == db.gen
    requires t < STEPS ==> !Done(NextDb(db, p, pc).jobs, Key(t, db.gen))
    ensures var queue := NextDb(db, p, pc).queue;
            pc.target.gen == db.gen && pc.target.step <= t && pc.target in queue && queue[pc.target].Waiting?
  {
  }

  /** A carrier stops being one only because p finished the job it was bringing, or because p
      removed or added the very entry it was about to touch. */
  lemma TakesOver(db: Db, q: Pid, qc: Pc, p: Pid, pc: Pc, status: AnalysisStatus, ch: Choice, t: nat)
    returns (c: Carrier)
    requires ProcFits(db, p, pc) && ProcFits(db, q, qc)
    requires Carries(db, q, qc, t) && !Carries(NextDb(db, p, pc), q, qc, t)
    requires !pc.Return? && !db.deleted && NextDb(db, p, pc).gen == db.gen
    requires t < STEPS ==> !Done(NextDb(db, p, pc).jobs, Key(t, db.gen))
    ensures match c
            case ByProcess(r) => r == p && Carries(NextDb(db, p, pc), p, NextPc(db, status, p, pc, ch), t)
            case ByEntry(k) =>
              k.gen == db.gen && k.step <= t && k in NextDb(db, p, pc).queue && NextDb(db, p, pc).queue[k].Waiting?
  {
    if pc.DispatchAdd? {
      c := ByEntry(pc.target);
      AddTakesOver(db, q, qc, p, pc, t);
    } else {
      c := ByProcess(p);
      if ForWorkers(pc) { WorkerTakesOver(db, q, qc, p, pc, status, ch, t); }
      else { OtherTakesOver(db, q, qc, p, pc, status, ch, t); }
    }
  }

  /** A carrier either survives somebody else's step, or hands over to the one who took it. */
  lemma OtherStepCarries(st: State, c: Carrier, p: Pid, ch: Choice, t: nat) returns (c': Carrier)
    requires Base(st) && Enabled(st, Step(p, ch)) && Holds(st, c, t) && c != ByProcess(p)
    requires !st.procs[p].Return? && NextDb(st.db, p, st.procs[p]).gen == st.db.gen
    requires OpenAt(Apply(st, Step(p, ch)), t)
    ensures Holds(Apply(st, Step(p, ch)), c', t)
  {
    var pc := st.procs[p];
    var db' := NextDb(st.db, p, pc);
    assert ProcFits(st.db, p, pc);
    c' := c;
    match c
    case ByEntry(k) =>
      if pc.DispatchRemove? && pc.target == k {
        c' := ByProcess(p);
      }
    case ByProcess(q) =>
      assert ProcFits(st.db, q, st.procs[q]);
      if !Carries(db', q, st.procs[q], t) {
        c' := TakesOver(st.db, q, st.procs[q], p, pc, st.status, ch, t);
      }
  }

  /** A process ends: the others still carry, and a worker that gives its job back leaves it in the queue. */
  lemma EndCarries(st: State, c: Carrier, p: Pid, ch: Choice, t: nat) returns (c': Carrier)
    requires Base(st) && Enabled(st, Step(p, ch)) && Holds(st, c, t) && st.procs[p].Return?
    ensures Holds(Apply(st, Step(p, ch)), c', t)
  {
    assert ProcFits(st.db, p, st.procs[p]);
    c' := c;
    if c == ByProcess(p) { c' := ByEntry(p.key); }
    match c
    case ByEntry(k) => assert p.WorkerOf? ==> p.key != k;
    case ByProcess(_) =>
  }

  // ---- what a label keeps ----

  ghost predicate Crash(l: Label) { l.Die? || l.Lose? }

  /** The label opens a new generation. */
  predicate Opens(st: State, l: Label)
    requires Enabled(st, l)
  {
    l.Step? && !st.procs[l.pid].Return? && NextDb(st.db, l.pid, st.procs[l.pid]).gen != st.db.gen
  }

  lemma StaysOpen(st: State, l: Label, t: nat)
    requires Base(st) && Enabled(st, l) && !l.Retry? && !Opens(st, l) && OpenAt(Apply(st, l), t)
    ensures OpenAt(st, t)
  {
    if l.Step? && !st.procs[l.pid].Return? {
      assert ProcFits(st.db, l.pid, st.procs[l.pid]);
      StepGrowsOnly(st.db, l.pid, st.procs[l.pid]);
    }
  }

  lemma HandOver(st: State, l: Label, t: nat) returns (c': Carrier)
    requires Base(st) && NoneSpent(st) && Covered(st) && Enabled(st, l) && !Crash(l) && !l.Retry? && !Opens(st, l)
    requires OpenAt(Apply(st, l), t)
    ensures Holds(Apply(st, l), c', t)
  {
    StaysOpen(st, l, t);
    var c :| Holds(st, c, t);
    match l
    case Step(p, ch) =>
      if st.procs[p].Return? { c' := EndCarries(st, c, p, ch, t); }
      else if c == ByProcess(p) { c' := OwnStepCarries(st, p, ch, t); }
      else { c' := OtherStepCarries(st, c, p, ch, t); }
    case Deliver(k) =>
      c' := if c == ByEntry(k) then ByProcess(WorkerOf(k, st.db.queue[k].made)) else c;
    case _ =>
      c' := c;
  }

  lemma StepNoneSpent(st: State, p: Pid, ch: Choice, q: Pid)
    requires Base(st) && !Spent(st, p) && !Spent(st, q) && Enabled(st, Step(p, ch)) && !Opens(st, Step(p, ch))
    ensures !Spent(Apply(st, Step(p, ch)), q)
  {
    assert ProcFits(st.db, p, st.procs[p]);
    if !st.procs[p].Return? { StepGrowsOnly(st.db, p, st.procs[p]); }
  }

  lemma KeepsNoneSpent(st: State, l: Label)
    requires Base(st) && NoneSpent(st) && Enabled(st, l) && !l.Retry? && !Opens(st, l)
    ensures NoneSpent(Apply(st, l))
  {
    forall q ensures !Spent(Apply(st, l), q) {
      assert !Spent(st, q);
      if l.Step? {
        assert !Spent(st, l.pid);
        StepNoneSpent(st, l.pid, l.choice, q);
      }
    }
  }

  /** A new generation has no rows and no workers, and the one who opened it brings it on. */
  lemma OpensSound(st: State, l: Label)
    requires Base(st) && Enabled(st, l) && Opens(st, l)
    ensures Sound(Apply(st, l))
  {
    var st', p := Apply(st, l), l.pid;
    LabelBase(st, l);
    assert st.procs[p].StartWrite? && st'.procs[p] == StartCreate(st'.db.gen) && st'.db.gen == st.db.gen + 1;
    assert Key(0, st'.db.gen) !in st'.db.jobs;
    forall t | OpenAt(st', t) ensures CarriedTo(st', t) { assert Holds(st', ByProcess(p), t); }
    forall q ensures !Spent(st', q) {
      if q in st.procs { assert ProcFits(st.db, q, st.procs[q]); }
    }
  }

  // ---- retries ----

  /** The exact condition on a retry (see `RetrySettlesExactly`): no worker of the retried step or a later one is
      past its row. */
  predicate Timely(st: State, step: nat) {
    forall p :: p in st.procs && p.WorkerOf? && p.key.gen == st.db.gen && p.key.step >= step ==> !Past(st.procs[p])
  }

  lemma RetryCovers(st: State, n: nat, a: Asked)
    requires Base(st) && Covered(st) && Other(n) !in st.procs && a.gen == st.db.gen
    requires Key(a.step, a.gen) in st.db.jobs && a.step < STEPS
    ensures Covered(WrittenLate(st, n, a))
  {
    var st' := WrittenLate(st, n, a);
    forall t: nat | OpenAt(st', t) ensures CarriedTo(st', t) {
      if t < a.step {
        assert OpenAt(st, t);
        var c :| Holds(st, c, t);
        assert Holds(st', c, t);
      } else {
        assert Holds(st', ByProcess(Other(n)), t);
      }
    }
  }

  lemma RetrySpends(st: State, n: nat, a: Asked)
    requires Base(st) && NoneSpent(st) && Other(n) !in st.procs && a.gen == st.db.gen && !st.db.deleted
    ensures NoneSpent(WrittenLate(st, n, a)) <==> Timely(st, a.step)
  {
    var st' := WrittenLate(st, n, a);
    forall p | p in st.procs && p.WorkerOf? && p.key.gen == st.db.gen && Past(st.procs[p])
      ensures Spent(st', p) <==> p.key.step >= a.step
    {
      assert ProcFits(st.db, p, st.procs[p]) && !Spent(st, p);
    }
    if !Timely(st, a.step) {
      var p :| p in st.procs && p.WorkerOf? && p.key.gen == st.db.gen && p.key.step >= a.step && Past(st.procs[p]);
      assert Spent(st', p);
    } else {
      forall p ensures !Spent(st', p) { assert !Spent(st, p); }
    }
  }

  lemma ReopeningStays(st: State, n: nat, a: Asked)
    requires Reopening(st) && Other(n) !in st.procs
    ensures Reopening(WrittenLate(st, n, a))
  {
    var p :| p in st.procs && st.procs[p] == StartWrite(true);
    assert WrittenLate(st, n, a).procs[p] == StartWrite(true);
  }

  /** A retry of a session that was sound. */
  lemma RetrySound(st: State, n: nat, a: Asked)
    requires Sound(st) && !st.db.deleted && Other(n) !in st.procs && a.gen == st.db.gen && a.step < STEPS
    requires Key(a.step, a.gen) in st.db.jobs && a.gen > 0
    ensures Base(WrittenLate(st, n, a))
    ensures Timely(st, a.step) || Reopening(st) ==> Sound(WrittenLate(st, n, a))
    ensures !Timely(st, a.step) && !Reopening(st) ==> !NoneSpent(WrittenLate(st, n, a))
  {
    WriteBase(st, n, a);
    if Reopening(st) {
      ReopeningStays(st, n, a);
    } else {
      RetryCovers(st, n, a);
      RetrySpends(st, n, a);
    }
  }

  /** What a run may do without dropping work. */
  ghost predicate Careful(st: State, l: Label) {
    !Crash(l) && (l.Retry? ==> Timely(st, l.step) || Reopening(st))
  }

  lemma SoundStep(st: State, l: Label)
    requires Sound(st) && Enabled(st, l) && Careful(st, l)
    ensures Sound(Apply(st, l))
  {
    LabelBase(st, l);
    var st' := Apply(st, l);
    if Opens(st, l) {
      OpensSound(st, l);
    } else if l.Retry? {
      PartsAreRetry(st, l.n, l.step);
      RetrySound(st, l.n, Asked(l.step, st.db.gen, true));
    } else if Reopening(st) {
      var p :| p in st.procs && st.procs[p] == StartWrite(true);
      assert st'.procs[p] == StartWrite(true);
    } else {
      KeepsNoneSpent(st, l);
      forall t | OpenAt(st', t) ensures CarriedTo(st', t) { var c := HandOver(st, l, t); }
    }
  }

  // ---- coming to rest ----

  /** Every schedule of steps and deliveries that comes to rest ends with a final status over five terminal jobs. */
  ghost predicate Settles(st: State) {
    forall ls :: InternalRun(st, ls) && Stuck(After(st, ls)) ==> Settled(After(st, ls))
  }

  ghost predicate Settled(st: State) { st.status.Final() && AllDone(st.db.jobs, st.db.gen) }

  lemma InternalSoundStep(st: State, l: Label)
    requires Sound(st) && Enabled(st, l) && Internal(l)
    ensures var st' := Apply(st, l);
            Sound(st') && st'.db.deleted == st.db.deleted && st'.db.gen >= st.db.gen
  {
    SoundStep(st, l);
    LabelGrows(st, l);
  }

  lemma {:induction false} InternalKeepsSound(st: State, ls: seq<Label>)
    requires Sound(st) && InternalRun(st, ls)
    ensures var st' := After(st, ls);
            Sound(st') && st'.db.deleted == st.db.deleted && st'.db.gen >= st.db.gen
    decreases |ls|
  {
    if ls != [] {
      InternalSoundStep(st, ls[0]);
      InternalKeepsSound(Apply(st, ls[0]), ls[1..]);
    }
  }

  lemma NobodyCarries(st: State, t: nat)
    requires Quiet(st)
    ensures !CarriedTo(st, t)
  {
  }

  lemma RestIsFinal(st: State)
    requires Sound(st) && (Stuck(st) || Quiet(st)) && st.db.gen > 0 && !st.db.deleted
    ensures Settled(st)
  {
    if Stuck(st) { StuckIsQuiet(st); }
    forall t: nat ensures !OpenAt(st, t) { NobodyCarries(st, t); }
    assert !OpenAt(st, STEPS);
    forall t | 0 <= t < STEPS ensures Done(st.db.jobs, Key(t, st.db.gen)) { assert !OpenAt(st, t); }
  }

  lemma SoundSettles(st: State)
    requires Sound(st) && st.db.gen > 0 && !st.db.deleted
    ensures Settles(st)
  {
    forall ls | InternalRun(st, ls) && Stuck(After(st, ls)) ensures Settled(After(st, ls)) {
      InternalKeepsSound(st, ls);
      RestIsFinal(After(st, ls));
    }
  }

  // ---- main result ----

  /** A run without crashes whose retries are timely. */
  ghost predicate CarefulRun(st: State, ls: seq<Label>)
    decreases |ls|
  {
    ls == [] || (Enabled(st, ls[0]) && Careful(st, ls[0]) && CarefulRun(Apply(st, ls[0]), ls[1..]))
  }

  lemma {:induction false} CarefulRunSound(st: State, ls: seq<Label>)
    requires Sound(st) && CarefulRun(st, ls)
    ensures Sound(After(st, ls))
    decreases |ls|
  {
    if ls != [] {
      SoundStep(st, ls[0]);
      CarefulRunSound(Apply(st, ls[0]), ls[1..]);
    }
  }

  lemma InitialSound()
    ensures Sound(INITIAL)
  {
    forall t ensures !OpenAt(INITIAL, t) {}
  }

  /** Without crashes no sweep is needed: whenever a run of starts, restarts, timely retries, sweeps,
      deliveries and steps comes to rest, a session that is not deleted has its final status over five terminal
      jobs. A step that fails for good therefore never blocks the later ones, and neither does a retry that lets
      them overtake. */
  lemma CrashFreeRunsFinish(ls: seq<Label>)
    requires CarefulRun(INITIAL, ls) && Stuck(After(INITIAL, ls))
    ensures var st := After(INITIAL, ls); st.db.deleted || st.db.gen == 0 || Settled(st)
  {
    InitialSound();
    CarefulRunSound(INITIAL, ls);
    var st := After(INITIAL, ls);
    if st.db.gen > 0 && !st.db.deleted { RestIsFinal(st); }
  }

  /** A safe retry is timely, and so is any retry while nobody is at work. */
  lemma SafeIsTimely(st: State, step: nat)
    requires (Inv(st) && RetrySafe(st, step)) || st.procs == map[]
    ensures Timely(st, step)
  {
    forall p | p in st.procs && p.WorkerOf? && p.key.gen == st.db.gen && p.key.step >= step
      ensures !Past(st.procs[p])
    {
      assert ProcOk(st.db, p, st.procs[p]);
    }
  }
}
