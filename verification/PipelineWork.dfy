/** Every step and every delivery uses up work, so every schedule of workers and deliveries ends. */
module PipelineWork {
  import opened Pipeline
  import opened PipelineSafety
  import opened PipelineBase

  // ---- sums over maps ----

  ghost function Sum<K(!new)>(m: map<K, nat>): nat {
    if m == map[] then 0 else var k :| k in m; m[k] + Sum(m - {k})
  }

  lemma {:induction false} SumPick<K(!new)>(m: map<K, nat>, k: K)
    requires k in m
    ensures Sum(m) == m[k] + Sum(m - {k})
    decreases |m|
  {
    var j :| j in m && Sum(m) == m[j] + Sum(m - {j});
    if j != k {
      SumPick(m - {j}, k);
      SumPick(m - {k}, j);
      assert m - {j} - {k} == m - {k} - {j};
    }
  }

  /** Changing one entry of a map changes the sum by that entry alone. */
  lemma SumChange<K(!new)>(m: map<K, nat>, m': map<K, nat>, k: K)
    requires m - {k} == m' - {k}
    ensures Sum(m') + Count(m, k) == Sum(m) + Count(m', k)
  {
    if k in m { SumPick(m, k); } else { assert m - {k} == m; }
    if k in m' { SumPick(m', k); } else { assert m' - {k} == m'; }
  }

  // ---- the work that is left ----

  /** The weight of a waiting entry: later steps and later attempts weigh less. */
  function EntryWeight(step: nat, made: nat): nat {
    if step < STEPS && made < MAX_ATTEMPTS then 100 * (STEPS - step) + 15 * (MAX_ATTEMPTS - made) else 0
  }

  function PcWeight(p: Pid, pc: Pc): nat {
    match pc
    case StartRead(_) => 1000
    case StartSkip => 2
    case StartWrite(_) => 999
    case StartCreate(_) => 998
    case SweepRead => 1001
    case SweepJobs(_) => 900
    case DispatchLook(k, _) => EntryWeight(k.step, 0) + 6
    case DispatchState(k, _) => EntryWeight(k.step, 0) + 5
    case DispatchRow(k) => EntryWeight(k.step, 0) + 4
    case DispatchRemove(k) => EntryWeight(k.step, 0) + 3
    case DispatchAdd(k) => EntryWeight(k.step, 0) + 2
    case CompleteRead(_) => 3
    case CompleteClaim(_, _) => 2
    case Return(throws) => if throws && p.WorkerOf? then EntryWeight(p.key.step, p.made + 1) + 1 else 1
    case _ => WorkWeight(p, pc)
  }

  function WorkWeight(p: Pid, pc: Pc): nat {
    if p.Other? || p.key.step >= STEPS || p.made >= MAX_ATTEMPTS then 0
    else
      var e := EntryWeight(p.key.step, p.made);
      if pc.WorkRead? then e - 1
      else if pc.WorkSkip? then 2
      else if pc.WorkJob? then e - 2
      else if pc.WorkUpsert? then e - 3
      else if pc.WorkMark? then e - 4
      else if pc.WorkBody? then e - 5
      else if pc.WorkRun? then e - 6
      else if pc.WorkScored? then e - 7
      else if pc.WorkOutcome? then e - 8
      else 100 * (STEPS - p.key.step)
  }

  ghost function ProcWeights(procs: map<Pid, Pc>): map<Pid, nat> { map p | p in procs :: PcWeight(p, procs[p]) }

  ghost function QueueWeights(queue: map<Key, Entry>): map<Key, nat> {
    map k | k in queue :: if queue[k].Waiting? then EntryWeight(k.step, queue[k].made) else 0
  }

  /** The work left to the running processes and the waiting entries. */
  ghost function Work(st: State): nat { Sum(ProcWeights(st.procs)) + Sum(QueueWeights(st.db.queue)) }

  /** The labels of a run that nobody starts, crashes, retries or deletes. */
  ghost predicate Internal(l: Label) { l.Step? || l.Deliver? }

  lemma WorkerWeightDrops(db: Db, status: AnalysisStatus, p: Pid, pc: Pc, ch: Choice)
    requires ProcFits(db, p, pc) && ForWorkers(pc)
    ensures PcWeight(p, NextPc(db, status, p, pc, ch)) < PcWeight(p, pc)
  {
    if pc.Advance? { OnwardWeight(db.jobs, p, p.key.gen, p.key.step + 1); }
  }

  lemma OnwardWeight(jobs: Rows, p: Pid, g: nat, from: nat)
    requires from <= STEPS
    ensures PcWeight(p, Onward(jobs, g, from)) < 100 * (STEPS + 1 - from)
  {
  }

  lemma OtherWeightDrops(db: Db, status: AnalysisStatus, p: Pid, pc: Pc, ch: Choice)
    requires ProcFits(db, p, pc) && !ForWorkers(pc) && !pc.Return? && !pc.DispatchAdd?
    ensures PcWeight(p, NextPc(db, status, p, pc, ch)) < PcWeight(p, pc)
  {
    if pc.SweepJobs? { OnwardWeight(db.jobs, p, pc.g, 0); }
  }

  lemma QueueSet(queue: map<Key, Entry>, k: Key, e: Entry)
    ensures Sum(QueueWeights(queue[k := e])) + Count(QueueWeights(queue), k)
            == Sum(QueueWeights(queue)) + if e.Waiting? then EntryWeight(k.step, e.made) else 0
  {
    var m, m' := QueueWeights(queue), QueueWeights(queue[k := e]);
    assert m - {k} == m' - {k};
    SumChange(m, m', k);
  }

  lemma QueueDrop(queue: map<Key, Entry>, k: Key)
    ensures Sum(QueueWeights(queue - {k})) <= Sum(QueueWeights(queue))
  {
    var m, m' := QueueWeights(queue), QueueWeights(queue - {k});
    assert m - {k} == m' - {k};
    SumChange(m, m', k);
  }

  lemma ProcSet(procs: map<Pid, Pc>, p: Pid, pc: Pc)
    ensures Sum(ProcWeights(procs[p := pc])) + Count(ProcWeights(procs), p) == Sum(ProcWeights(procs)) + PcWeight(p, pc)
  {
    var m, m' := ProcWeights(procs), ProcWeights(procs[p := pc]);
    assert m - {p} == m' - {p};
    SumChange(m, m', p);
  }

  lemma ProcDrop(procs: map<Pid, Pc>, p: Pid)
    requires p in procs
    ensures Sum(ProcWeights(procs - {p})) + PcWeight(p, procs[p]) == Sum(ProcWeights(procs))
  {
    var m, m' := ProcWeights(procs), ProcWeights(procs - {p});
    assert m - {p} == m' - {p};
    SumChange(m, m', p);
  }

  /** A step puts weight into the queue only by adding an entry, and then pays for it. */
  lemma StepQueueWeight(db: Db, p: Pid, pc: Pc)
    requires Fits(p, pc) && !pc.Return?
    ensures Sum(QueueWeights(NextDb(db, p, pc).queue))
            <= Sum(QueueWeights(db.queue)) + if pc.DispatchAdd? then EntryWeight(pc.target.step, 0) else 0
  {
    if pc.DispatchRemove? { QueueDrop(db.queue, pc.target); }
    if pc.DispatchAdd? { QueueSet(db.queue, pc.target, Waiting(0)); }
  }

  lemma StepDrops(st: State, p: Pid, ch: Choice)
    requires Base(st) && Enabled(st, Step(p, ch)) && !st.procs[p].Return?
    ensures Work(Apply(st, Step(p, ch))) < Work(st)
  {
    var pc := st.procs[p];
    assert ProcFits(st.db, p, pc);
    var pc' := NextPc(st.db, st.status, p, pc, ch);
    StepQueueWeight(st.db, p, pc);
    ProcSet(st.procs, p, pc');
    StepWeightDrops(st.db, st.status, p, pc, ch);
    assert Count(ProcWeights(st.procs), p) == PcWeight(p, pc);
  }

  lemma StepWeightDrops(db: Db, status: AnalysisStatus, p: Pid, pc: Pc, ch: Choice)
    requires ProcFits(db, p, pc) && !pc.Return?
    ensures PcWeight(p, NextPc(db, status, p, pc, ch)) + (if pc.DispatchAdd? then EntryWeight(pc.target.step, 0) else 0)
            < PcWeight(p, pc)
  {
    if ForWorkers(pc) { WorkerWeightDrops(db, status, p, pc, ch); }
    else if !pc.DispatchAdd? { OtherWeightDrops(db, status, p, pc, ch); }
  }

  lemma SettleDrops(queue: map<Key, Entry>, p: Pid, pc: Pc)
    requires p.WorkerOf? && pc.Return? && p.key in queue && queue[p.key].Active?
    ensures var e := if pc.throws then Waiting(p.made + 1) else Finished;
            Sum(QueueWeights(queue[p.key := e])) < Sum(QueueWeights(queue)) + PcWeight(p, pc)
  {
    QueueSet(queue, p.key, if pc.throws then Waiting(p.made + 1) else Finished);
  }

  lemma LeaveDrops(st: State, p: Pid, pc: Pc)
    requires p in st.procs && st.procs[p] == pc && pc.Return?
    requires p.WorkerOf? ==> p.key in st.db.queue && st.db.queue[p.key].Active?
    ensures Work(Leave(st, p, pc.throws)) < Work(st)
  {
    ProcDrop(st.procs, p);
    if p.WorkerOf? { SettleDrops(st.db.queue, p, pc); }
    assert PcWeight(p, pc) > 0;
  }

  lemma EndDrops(st: State, p: Pid, ch: Choice)
    requires Base(st) && Enabled(st, Step(p, ch)) && st.procs[p].Return?
    ensures Work(Apply(st, Step(p, ch))) < Work(st)
  {
    assert ProcFits(st.db, p, st.procs[p]);
    LeaveDrops(st, p, st.procs[p]);
  }

  lemma DeliverDrops(st: State, k: Key)
    requires Base(st) && Enabled(st, Deliver(k))
    ensures Work(Apply(st, Deliver(k))) < Work(st)
  {
    var made := st.db.queue[k].made;
    assert EntryFits(st.db, st.procs, k);
    assert WorkerOf(k, made) !in st.procs;
    ProcSet(st.procs, WorkerOf(k, made), WorkRead);
    QueueSet(st.db.queue, k, Active(made));
    assert Count(QueueWeights(st.db.queue), k) == EntryWeight(k.step, made);
    ReadWeight(k, made);
  }

  lemma ReadWeight(k: Key, made: nat)
    requires k.step < STEPS && made < MAX_ATTEMPTS
    ensures PcWeight(WorkerOf(k, made), WorkRead) < EntryWeight(k.step, made)
  {
  }

  /** Every step and every delivery uses up work. */
  lemma WorkDrops(st: State, l: Label)
    requires Base(st) && Enabled(st, l) && Internal(l)
    ensures Work(Apply(st, l)) < Work(st)
  {
    match l
    case Step(p, ch) => if st.procs[p].Return? { EndDrops(st, p, ch); } else { StepDrops(st, p, ch); }
    case Deliver(k) => DeliverDrops(st, k);
  }

  // ---- schedules ----

  /** A run of steps and deliveries only. */
  ghost predicate InternalRun(st: State, ls: seq<Label>)
    decreases |ls|
  {
    ls == [] || (Internal(ls[0]) && Enabled(st, ls[0]) && InternalRun(Apply(st, ls[0]), ls[1..]))
  }

  /** Nothing inside can move: no process has a step left and no entry waits. */
  ghost predicate Stuck(st: State) { forall l :: Internal(l) ==> !Enabled(st, l) }

  /** No schedule is longer than the work that was left. */
  lemma {:induction false} RunIsBounded(st: State, ls: seq<Label>)
    requires Base(st) && InternalRun(st, ls)
    ensures Base(After(st, ls)) && |ls| + Work(After(st, ls)) <= Work(st)
    decreases |ls|
  {
    if ls != [] {
      LabelBase(st, ls[0]);
      WorkDrops(st, ls[0]);
      RunIsBounded(Apply(st, ls[0]), ls[1..]);
    }
  }

  lemma {:induction false} InternalAppend(st: State, ls: seq<Label>, more: seq<Label>)
    requires InternalRun(st, ls) && InternalRun(After(st, ls), more)
    ensures InternalRun(st, ls + more) && After(st, ls + more) == After(After(st, ls), more)
    decreases |ls|
  {
    if ls == [] {
      assert ls + more == more;
    } else {
      assert (ls + more)[1..] == ls[1..] + more;
      InternalAppend(Apply(st, ls[0]), ls[1..], more);
    }
  }

  lemma InternalOne(st: State, l: Label, ls: seq<Label>)
    requires Internal(l) && Enabled(st, l) && InternalRun(Apply(st, l), ls)
    ensures InternalRun(st, [l] + ls) && After(st, [l] + ls) == After(Apply(st, l), ls)
  {
    assert ([l] + ls)[1..] == ls;
  }

  /** Some schedule comes to rest. */
  lemma {:induction false} RunsOut(st: State) returns (ls: seq<Label>)
    requires Base(st)
    ensures InternalRun(st, ls) && Stuck(After(st, ls))
    decreases Work(st)
  {
    if Stuck(st) {
      ls := [];
    } else {
      var l :| Internal(l) && Enabled(st, l);
      LabelBase(st, l);
      WorkDrops(st, l);
      var rest := RunsOut(Apply(st, l));
      ls := [l] + rest;
      InternalOne(st, l, rest);
    }
  }

  lemma ProcessCanStep(st: State, p: Pid, c: Choice)
    requires Base(st) && p in st.procs
    ensures Enabled(st, Step(p, c))
  {
    assert ProcFits(st.db, p, st.procs[p]);
  }

  /** Nobody is at work and nothing waits. */
  ghost predicate Quiet(st: State) {
    st.procs == map[] && forall k :: k in st.db.queue ==> !st.db.queue[k].Waiting?
  }

  lemma StuckIsQuiet(st: State)
    requires Base(st) && Stuck(st)
    ensures Quiet(st)
  {
    if p :| p in st.procs {
      ProcessCanStep(st, p, ANY);
      assert Internal(Step(p, ANY));
    }
    forall k | k in st.db.queue ensures !st.db.queue[k].Waiting? { assert Internal(Deliver(k)); }
  }

  const ANY := Choice(false, false, false, false, Permanent)
}
