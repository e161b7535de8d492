/** What every run keeps of the rows, the queue and the processes, whatever retries it takes: nothing is said about
    the order of the steps. */
module PipelineBase {
  import opened Pipeline
  import opened PipelineSafety
  import opened PipelineAlways

  /** A worker at pc is done with its row and will not look at it again. */
  predicate Past(pc: Pc) { pc.Advance? || Dispatching(pc) || Completing(pc) || pc == Return(false) }

  ghost predicate PlaceFits(db: Db, pc: Pc) {
    && (pc.StartCreate? || pc.SweepJobs? || Completing(pc) ==> GenOk(db, pc.g))
    && (Dispatching(pc) ==> KeyOk(db, pc.target))
    && (pc.CompleteClaim? ==> pc.final.Final())
  }

  ghost predicate HolderFits(db: Db, k: Key, made: nat, pc: Pc) {
    && KeyOk(db, k) && made < MAX_ATTEMPTS && k in db.queue && db.queue[k] == Active(made)
    && (ForWorkers(pc) || Past(pc) || pc.Return?)
    && (pc.WorkSkip? ==> Superseded(db, k))
    && (pc.WorkUpsert? || Running(pc) ==> !Done(db.jobs, k))
    && (Dispatching(pc) ==> pc.target.gen == k.gen && pc.target.step > k.step)
    && (Completing(pc) ==> pc.g == k.gen)
    && (pc == Return(true) ==> made + 1 < MAX_ATTEMPTS)
  }

  ghost predicate ProcFits(db: Db, p: Pid, pc: Pc) {
    && PlaceFits(db, pc)
    && (p.WorkerOf? ==> HolderFits(db, p.key, p.made, pc))
    && (p.Other? ==> !ForWorkers(pc) && pc != Return(true))
  }

  ghost predicate EntryFits(db: Db, procs: map<Pid, Pc>, k: Key)
    requires k in db.queue
  {
    && KeyOk(db, k)
    && (!db.queue[k].Finished? ==> db.queue[k].made < MAX_ATTEMPTS)
    && (db.queue[k].Active? ==> WorkerOf(k, db.queue[k].made) in procs)
  }

  ghost predicate DbFits(db: Db, procs: map<Pid, Pc>) {
    && (forall k :: k in db.jobs ==> KeyOk(db, k))
    && (forall k :: k in db.queue ==> EntryFits(db, procs, k))
    && (forall p :: p in procs ==> ProcFits(db, p, procs[p]))
  }

  ghost predicate StatusFits(gen: nat, status: AnalysisStatus) {
    if gen == 0 then status.NotStarted? || status.Skipped? else status.Active() || status.Final()
  }

  ghost predicate Base(st: State) { DbFits(st.db, st.procs) && StatusFits(st.db.gen, st.status) }

  // ---- a step of a process ----

  /** What a process relies on: its entry is left alone, and its row is not made terminal by others. */
  lemma FitsFrame(db: Db, db': Db, p: Pid, pc: Pc)
    requires ProcFits(db, p, pc) && db.gen <= db'.gen && (db.deleted ==> db'.deleted)
    requires p.WorkerOf? ==> && p.key in db'.queue && db'.queue[p.key] == db.queue[p.key]
                             && (Done(db'.jobs, p.key) ==> Done(db.jobs, p.key))
    ensures ProcFits(db', p, pc)
  {
  }

  /** Generations only grow, terminal rows stay, and what is active stays in the queue. */
  lemma StepGrowsOnly(db: Db, p: Pid, pc: Pc)
    requires ProcFits(db, p, pc)
    ensures var db' := NextDb(db, p, pc);
            && Grows(db, db') && db'.deleted == db.deleted
            && (forall k :: k in db.queue && db.queue[k].Active? ==> k in db'.queue && db'.queue[k] == db.queue[k])
            && (forall k :: Done(db'.jobs, k) ==> Done(db.jobs, k) || (p.WorkerOf? && k == p.key))
  {
  }

  lemma OtherArrives(db: Db, status: AnalysisStatus, p: Pid, pc: Pc, c: Choice)
    requires ProcFits(db, p, pc) && p.Other? && !pc.Return?
    ensures ProcFits(NextDb(db, p, pc), p, NextPc(db, status, p, pc, c))
  {
  }

  lemma WorkerArrives(db: Db, status: AnalysisStatus, p: Pid, pc: Pc, c: Choice)
    requires ProcFits(db, p, pc) && p.WorkerOf? && ForWorkers(pc)
    ensures ProcFits(NextDb(db, p, pc), p, NextPc(db, status, p, pc, c))
  {
  }

  lemma WorkerMovesOn(db: Db, status: AnalysisStatus, p: Pid, pc: Pc, c: Choice)
    requires ProcFits(db, p, pc) && p.WorkerOf? && !ForWorkers(pc) && !pc.Return?
    ensures ProcFits(NextDb(db, p, pc), p, NextPc(db, status, p, pc, c))
  {
  }

  lemma Arrives(db: Db, status: AnalysisStatus, p: Pid, pc: Pc, c: Choice)
    requires ProcFits(db, p, pc) && !pc.Return?
    ensures ProcFits(NextDb(db, p, pc), p, NextPc(db, status, p, pc, c))
  {
    if p.Other? { OtherArrives(db, status, p, pc, c); }
    else if ForWorkers(pc) { WorkerArrives(db, status, p, pc, c); }
    else { WorkerMovesOn(db, status, p, pc, c); }
  }

  lemma StepEntries(db: Db, procs: map<Pid, Pc>, p: Pid, pc: Pc, pc': Pc)
    requires ProcFits(db, p, pc) && forall k :: k in db.queue ==> EntryFits(db, procs, k)
    ensures var db' := NextDb(db, p, pc); forall k :: k in db'.queue ==> EntryFits(db', procs[p := pc'], k)
  {
    var db' := NextDb(db, p, pc);
    StepGrowsOnly(db, p, pc);
    forall k | k in db'.queue ensures EntryFits(db', procs[p := pc'], k) {
      if k in db.queue { assert EntryFits(db, procs, k) && db'.queue[k] == db.queue[k]; }
    }
  }

  lemma StepRowKeys(db: Db, p: Pid, pc: Pc)
    requires ProcFits(db, p, pc) && forall k :: k in db.jobs ==> KeyOk(db, k)
    ensures var db' := NextDb(db, p, pc); forall k :: k in db'.jobs ==> KeyOk(db', k)
  {
  }

  lemma StepDbFits(db: Db, procs: map<Pid, Pc>, status: AnalysisStatus, p: Pid, c: Choice)
    requires DbFits(db, procs) && p in procs && Fits(p, procs[p]) && !procs[p].Return?
    ensures DbFits(NextDb(db, p, procs[p]), procs[p := NextPc(db, status, p, procs[p], c)])
  {
    var pc := procs[p];
    var db' := NextDb(db, p, pc);
    var procs' := procs[p := NextPc(db, status, p, pc, c)];
    StepRowKeys(db, p, pc);
    StepEntries(db, procs, p, pc, procs'[p]);
    StepGrowsOnly(db, p, pc);
    forall q | q in procs' ensures ProcFits(db', q, procs'[q]) {
      if q == p {
        Arrives(db, status, p, pc, c);
      } else {
        assert ProcFits(db, q, procs[q]) && ProcFits(db, p, pc);
        FitsFrame(db, db', q, procs[q]);
      }
    }
  }

  lemma StepStatusFits(st: State, p: Pid, pc: Pc)
    requires ProcFits(st.db, p, pc) && StatusFits(st.db.gen, st.status)
    ensures StatusFits(NextDb(st.db, p, pc).gen, NextStatus(st, p, pc))
  {
  }

  lemma StepBase(st: State, p: Pid, c: Choice)
    requires Base(st) && Enabled(st, Step(p, c)) && !st.procs[p].Return?
    ensures Base(Apply(st, Step(p, c)))
  {
    StepDbFits(st.db, st.procs, st.status, p, c);
    StepStatusFits(st, p, st.procs[p]);
  }

  // ---- the other labels ----

  lemma SettleFits(db: Db, procs: map<Pid, Pc>, p: Pid, queue: map<Key, Entry>)
    requires DbFits(db, procs) && p in procs && p.WorkerOf?
    requires queue == db.queue - {p.key} || queue == db.queue[p.key := Finished]
             || exists made: nat :: made < MAX_ATTEMPTS && queue == db.queue[p.key := Waiting(made)]
    ensures DbFits(db.(queue := queue), procs - {p})
  {
    var db', procs' := db.(queue := queue), procs - {p};
    assert ProcFits(db, p, procs[p]);
    forall q | q in procs' ensures ProcFits(db', q, procs'[q]) {
      assert ProcFits(db, q, procs[q]);
      FitsFrame(db, db', q, procs[q]);
    }
    forall k | k in db'.queue ensures EntryFits(db', procs', k) {
      if k != p.key { assert EntryFits(db, procs, k); }
    }
  }

  lemma OtherLeaves(db: Db, procs: map<Pid, Pc>, p: Pid)
    requires DbFits(db, procs) && p.Other?
    ensures DbFits(db, procs - {p})
  {
    forall k | k in db.queue ensures EntryFits(db, procs - {p}, k) { assert EntryFits(db, procs, k); }
  }

  lemma LeaveBase(st: State, p: Pid)
    requires Base(st) && p in st.procs && st.procs[p].Return?
    ensures Base(Leave(st, p, st.procs[p].throws))
  {
    assert ProcFits(st.db, p, st.procs[p]);
    if p.WorkerOf? {
      var e := if st.procs[p].throws then Waiting(p.made + 1) else Finished;
      SettleFits(st.db, st.procs, p, st.db.queue[p.key := e]);
    } else {
      OtherLeaves(st.db, st.procs, p);
    }
  }

  lemma DieBase(st: State, p: Pid, fate: Fate)
    requires Base(st) && p in st.procs
    ensures Base(Apply(st, Die(p, fate)))
  {
    assert ProcFits(st.db, p, st.procs[p]);
    if p.Other? { OtherLeaves(st.db, st.procs, p); }
    else { SettleFits(st.db, st.procs, p, Apply(st, Die(p, fate)).db.queue); }
  }

  /** A change that leaves the keys of active entries alone and makes no row terminal. */
  lemma ChangeFits(db: Db, db': Db, procs: map<Pid, Pc>)
    requires DbFits(db, procs) && db'.gen == db.gen && (db.deleted ==> db'.deleted) && db'.jobs.Keys == db.jobs.Keys
    requires forall k :: Done(db'.jobs, k) ==> Done(db.jobs, k)
    requires forall k :: k in db'.queue ==> k in db.queue && db'.queue[k] == db.queue[k]
    requires forall k :: k in db.queue && db.queue[k].Active? ==> k in db'.queue
    ensures DbFits(db', procs)
  {
    forall q | q in procs ensures ProcFits(db', q, procs[q]) {
      assert ProcFits(db, q, procs[q]);
      FitsFrame(db, db', q, procs[q]);
    }
    forall k | k in db'.queue ensures EntryFits(db', procs, k) { assert EntryFits(db, procs, k); }
  }

  lemma ArrivalFits(db: Db, procs: map<Pid, Pc>, n: nat, pc: Pc)
    requires DbFits(db, procs) && Other(n) !in procs && ProcFits(db, Other(n), pc)
    ensures DbFits(db, procs[Other(n) := pc])
  {
    forall k | k in db.queue ensures EntryFits(db, procs[Other(n) := pc], k) { assert EntryFits(db, procs, k); }
  }

  lemma DeliverBase(st: State, k: Key)
    requires Base(st) && Enabled(st, Deliver(k))
    ensures Base(Apply(st, Deliver(k)))
  {
    var st' := Apply(st, Deliver(k));
    assert EntryFits(st.db, st.procs, k);
    forall q | q in st'.procs ensures ProcFits(st'.db, q, st'.procs[q]) {
      if q != WorkerOf(k, st.db.queue[k].made) {
        assert ProcFits(st.db, q, st.procs[q]);
        FitsFrame(st.db, st'.db, q, st.procs[q]);
      }
    }
    forall j | j in st'.db.queue ensures EntryFits(st'.db, st'.procs, j) { assert EntryFits(st.db, st.procs, j); }
  }

  /** The transaction of a retry, in time or late, safe or not. */
  lemma WriteBase(st: State, n: nat, a: Asked)
    requires Base(st) && Other(n) !in st.procs && 1 <= a.gen <= st.db.gen && a.step < STEPS
    ensures Base(WrittenLate(st, n, a))
  {
    var db' := st.db.(jobs := ResetRows(st.db.jobs, a.gen, a.step));
    ChangeFits(st.db, db', st.procs);
    ArrivalFits(db', st.procs, n, DispatchLook(Key(a.step, a.gen), true));
  }

  lemma LabelBase(st: State, l: Label)
    requires Base(st) && Enabled(st, l)
    ensures Base(Apply(st, l))
  {
    match l
    case Step(p, c) =>
      if st.procs[p].Return? { LeaveBase(st, p); } else { StepBase(st, p, c); }
    case Deliver(k) => DeliverBase(st, k);
    case StartArrives(n, reprocess) => ArrivalFits(st.db, st.procs, n, StartRead(reprocess));
    case SweepArrives(n) => ArrivalFits(st.db, st.procs, n, SweepRead);
    case Retry(n, step) => PartsAreRetry(st, n, step); WriteBase(st, n, Asked(step, st.db.gen, true));
    case Delete => ChangeFits(st.db, Apply(st, l).db, st.procs);
    case Die(p, fate) => DieBase(st, p, fate);
    case Lose(k) => ChangeFits(st.db, Apply(st, l).db, st.procs);
  }

  // ---- races ----

  ghost predicate AskedFits(r: Race) {
    forall n :: n in r.asked ==> 1 <= r.asked[n].gen <= r.st.db.gen && r.asked[n].step < STEPS
  }

  lemma LabelGrows(st: State, l: Label)
    requires Base(st) && Enabled(st, l)
    ensures Apply(st, l).db.gen >= st.db.gen && (st.db.deleted ==> Apply(st, l).db.deleted)
  {
    if l.Step? && !st.procs[l.pid].Return? { StepGrowsOnly(st.db, l.pid, st.procs[l.pid]); }
  }

  lemma PartBase(r: Race, h: Part)
    requires Base(r.st) && AskedFits(r) && Allowed(r, h)
    ensures Base(Next(r, h).st) && AskedFits(Next(r, h))
  {
    match h
    case Whole(l) => LabelBase(r.st, l); LabelGrows(r.st, l);
    case Look(_, _) =>
    case Find(_) =>
    case Write(n) => WriteBase(r.st, n, r.asked[n]);
  }

  lemma {:induction false} RaceBase(r: Race, hs: seq<Part>)
    requires Base(r.st) && AskedFits(r) && Possible(r, hs)
    ensures Base(End(r, hs).st) && AskedFits(End(r, hs))
    decreases |hs|
  {
    if hs != [] {
      PartBase(r, hs[0]);
      RaceBase(Next(r, hs[0]), hs[1..]);
    }
  }

  /** Every state that any race attains. */
  lemma AttainableBase(st: State)
    requires Attainable(st)
    ensures Base(st)
  {
    var hs :| Possible(START, hs) && End(START, hs).st == st;
    RaceBase(START, hs);
  }
}
