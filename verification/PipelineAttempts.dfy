/** How often step bodies run in a generation that sees no crash and no retry. */
module PipelineAttempts {
  import opened Pipeline
  import opened PipelineSafety

  /** Past the session check, with the body still to start. */
  predicate BeforeBody(pc: Pc) { pc.WorkJob? || pc.WorkUpsert? || pc.WorkMark? || pc.WorkBody? }

  /** Between the start of the body and the outcome. */
  predicate InBody(pc: Pc) { pc.WorkRun? || pc.WorkScored? || pc.WorkOutcome? }

  ghost predicate Current(db: Db, k: Key) { k.gen == db.gen && !db.deleted }

  /** The attempts counted by the queue bound the bodies started for job id k. */
  ghost predicate EntryCounts(db: Db, k: Key, b: nat) {
    && b <= MAX_ATTEMPTS
    && (Current(db, k) && k !in db.queue ==> b == 0)
    && (Current(db, k) && k in db.queue && db.queue[k].Waiting? ==> b <= db.queue[k].made)
    && (Current(db, k) && k in db.queue && db.queue[k].Finished? ==> Done(db.jobs, k))
  }

  /** ... and so do those of the worker that holds it. */
  ghost predicate WorkerCounts(db: Db, k: Key, made: nat, pc: Pc, b: nat) {
    && (Current(db, k) && pc.WorkRead? ==> b <= made)
    && (BeforeBody(pc) ==> b <= made)
    && (InBody(pc) || pc == Return(true) ==> b <= made + 1)
  }

  /** A dispatcher does not replace an entry of a current, undisturbed generation. */
  ghost predicate DispatchCounts(db: Db, pc: Pc) {
    && !(pc.DispatchLook? && pc.replace) && !(pc.DispatchState? && pc.replace)
    && (Dispatching(pc) && Current(db, pc.target) && pc.DispatchRow? ==> Done(db.jobs, pc.target))
    && (Dispatching(pc) && Current(db, pc.target) ==> !pc.DispatchRemove?)
  }

  ghost predicate ProcCounts(db: Db, p: Pid, pc: Pc, tally: Tally) {
    && (p.WorkerOf? && p.key.gen !in tally.disturbed ==>
          WorkerCounts(db, p.key, p.made, pc, Count(tally.bodies, p.key)))
    && (Dispatching(pc) && pc.target.gen !in tally.disturbed ==> DispatchCounts(db, pc))
  }

  ghost predicate KeyCounts(db: Db, k: Key, tally: Tally) {
    && (Count(tally.bodies, k) > 0 ==> KeyOk(db, k))
    && (k.gen !in tally.disturbed ==> EntryCounts(db, k, Count(tally.bodies, k)))
  }

  ghost predicate Counted(st: State) {
    && (forall k :: KeyCounts(st.db, k, st.tally))
    && (forall p :: p in st.procs ==> ProcCounts(st.db, p, st.procs[p], st.tally))
  }

  // ---- a step of a process ----

  lemma StepKeyCounts(st: State, p: Pid, pc: Pc, k: Key)
    requires ProcOk(st.db, p, pc) && !pc.Return? && RowsOk(st.db)
    requires KeyCounts(st.db, k, st.tally) && ProcCounts(st.db, p, pc, st.tally)
    requires forall j :: j in st.db.queue ==> KeyOk(st.db, j)
    ensures KeyCounts(NextDb(st.db, p, pc), k, NextTally(st, p, pc))
  {
  }

  lemma StepOtherCounts(st: State, p: Pid, pc: Pc, q: Pid, qc: Pc)
    requires ProcOk(st.db, p, pc) && ProcOk(st.db, q, qc) && q != p && !pc.Return?
    requires ProcCounts(st.db, q, qc, st.tally)
    ensures ProcCounts(NextDb(st.db, p, pc), q, qc, NextTally(st, p, pc))
  {
    StepGrows(st.db, p, pc);
  }

  lemma StepOwnCounts(st: State, p: Pid, pc: Pc, c: Choice)
    requires ProcOk(st.db, p, pc) && !pc.Return? && ProcCounts(st.db, p, pc, st.tally)
    requires Dispatching(pc) ==> KeyCounts(st.db, pc.target, st.tally)
    ensures ProcCounts(NextDb(st.db, p, pc), p, NextPc(st.db, st.status, p, pc, c), NextTally(st, p, pc))
  {
    OwnWorkerCounts(st, p, pc, c);
    OwnDispatchCounts(st, p, pc, c);
  }

  lemma OwnWorkerCounts(st: State, p: Pid, pc: Pc, c: Choice)
    requires ProcOk(st.db, p, pc) && !pc.Return? && ProcCounts(st.db, p, pc, st.tally)
    ensures p.WorkerOf? && p.key.gen !in st.tally.disturbed ==>
              WorkerCounts(NextDb(st.db, p, pc), p.key, p.made, NextPc(st.db, st.status, p, pc, c),
                           Count(NextTally(st, p, pc).bodies, p.key))
  {
    if ForWorkers(pc) && p.key.gen !in st.tally.disturbed { AtWorkCounts(st, p, pc, c); }
  }

  lemma AtWorkCounts(st: State, p: Pid, pc: Pc, c: Choice)
    requires ProcOk(st.db, p, pc) && ForWorkers(pc) && p.WorkerOf?
    requires WorkerCounts(st.db, p.key, p.made, pc, Count(st.tally.bodies, p.key))
    ensures WorkerCounts(NextDb(st.db, p, pc), p.key, p.made, NextPc(st.db, st.status, p, pc, c),
                         Count(NextTally(st, p, pc).bodies, p.key))
  {
  }

  lemma OwnDispatchCounts(st: State, p: Pid, pc: Pc, c: Choice)
    requires ProcOk(st.db, p, pc) && !pc.Return? && ProcCounts(st.db, p, pc, st.tally)
    requires Dispatching(pc) ==> KeyCounts(st.db, pc.target, st.tally)
    ensures var pc' := NextPc(st.db, st.status, p, pc, c);
            Dispatching(pc') && pc'.target.gen !in st.tally.disturbed ==> DispatchCounts(NextDb(st.db, p, pc), pc')
  {
  }

  lemma StepCounted(st: State, p: Pid, c: Choice)
    requires Inv(st) && Counted(st) && Enabled(st, Step(p, c)) && !st.procs[p].Return?
    ensures Counted(Apply(st, Step(p, c)))
  {
    var pc := st.procs[p];
    var st' := Apply(st, Step(p, c));
    assert ProcOk(st.db, p, pc) && ProcCounts(st.db, p, pc, st.tally);
    forall j | j in st.db.queue ensures KeyOk(st.db, j) { assert EntryOk(st.db, st.procs, j); }
    forall k ensures KeyCounts(st'.db, k, st'.tally) {
      assert KeyCounts(st.db, k, st.tally);
      StepKeyCounts(st, p, pc, k);
    }
    forall q | q in st'.procs ensures ProcCounts(st'.db, q, st'.procs[q], st'.tally) {
      if q == p {
        if Dispatching(pc) { assert KeyCounts(st.db, pc.target, st.tally); }
        StepOwnCounts(st, p, pc, c);
      } else {
        assert ProcOk(st.db, q, st.procs[q]);
        StepOtherCounts(st, p, pc, q, st.procs[q]);
      }
    }
  }

  // ---- the other labels ----

  /** The state changes only the entry of k (and drops or adds a worker of k), or disturbs k's
      generation; all else the counts depend on stays. */
  ghost predicate OnlyTouches(st: State, st': State, k: Key) {
    && st'.db.gen == st.db.gen && (st.db.deleted ==> st'.db.deleted)
    && st'.tally.bodies == st.tally.bodies && st.tally.disturbed <= st'.tally.disturbed
    && (forall j: Key :: j.gen !in st'.tally.disturbed ==>
          && (Done(st.db.jobs, j) ==> Done(st'.db.jobs, j))
          && (j != k ==> (j in st'.db.queue <==> j in st.db.queue)
                         && (j in st.db.queue ==> st'.db.queue[j] == st.db.queue[j])))
  }

  lemma TouchCounted(st: State, st': State, k: Key)
    requires Counted(st) && OnlyTouches(st, st', k)
    requires k.gen !in st'.tally.disturbed ==> EntryCounts(st'.db, k, Count(st'.tally.bodies, k))
    requires forall p :: p in st'.procs && p !in st.procs ==> ProcCounts(st'.db, p, st'.procs[p], st'.tally)
    requires forall p :: p in st'.procs && p in st.procs ==> st'.procs[p] == st.procs[p]
    ensures Counted(st')
  {
    forall j ensures KeyCounts(st'.db, j, st'.tally) { assert KeyCounts(st.db, j, st.tally); }
    forall p | p in st'.procs ensures ProcCounts(st'.db, p, st'.procs[p], st'.tally) {
      if p in st.procs { assert ProcCounts(st.db, p, st.procs[p], st.tally); }
    }
  }

  lemma EndCounted(st: State, p: Pid, c: Choice)
    requires Inv(st) && Counted(st) && Enabled(st, Step(p, c)) && st.procs[p].Return?
    ensures Counted(Apply(st, Step(p, c)))
  {
    var st' := Apply(st, Step(p, c));
    assert ProcOk(st.db, p, st.procs[p]) && ProcCounts(st.db, p, st.procs[p], st.tally);
    var k := if p.WorkerOf? then p.key else Key(STEPS, 0);
    assert KeyCounts(st.db, k, st.tally);
    TouchCounted(st, st', k);
  }

  lemma DeliverCounted(st: State, k: Key)
    requires Inv(st) && Counted(st) && Enabled(st, Deliver(k))
    ensures Counted(Apply(st, Deliver(k)))
  {
    assert KeyCounts(st.db, k, st.tally) && EntryOk(st.db, st.procs, k);
    assert WorkerOf(k, st.db.queue[k].made) !in st.procs;
    TouchCounted(st, Apply(st, Deliver(k)), k);
  }

  lemma OutsideCounted(st: State, l: Label)
    requires Inv(st) && Counted(st) && Enabled(st, l) && !l.Step? && !l.Deliver?
    ensures Counted(Apply(st, l))
  {
    var none := Key(STEPS, 0);
    var k := if l.Lose? then l.key else if l.Die? && l.pid.WorkerOf? then l.pid.key else none;
    assert KeyCounts(st.db, k, st.tally);
    if l.Die? { assert ProcOk(st.db, l.pid, st.procs[l.pid]); }
    TouchCounted(st, Apply(st, l), k);
  }

  lemma ApplyCounted(st: State, l: Label)
    requires Inv(st) && Counted(st) && Enabled(st, l)
    ensures Counted(Apply(st, l))
  {
    match l
    case Step(p, c) => if st.procs[p].Return? { EndCounted(st, p, c); } else { StepCounted(st, p, c); }
    case Deliver(k) => DeliverCounted(st, k);
    case _ => OutsideCounted(st, l);
  }

  lemma {:induction false} RunCounted(st: State, ls: seq<Label>)
    requires Inv(st) && Counted(st) && Run(st, ls)
    ensures Counted(After(st, ls))
    decreases |ls|
  {
    if ls != [] {
      ApplyKeeps(st, ls[0]);
      ApplyCounted(st, ls[0]);
      RunCounted(Apply(st, ls[0]), ls[1..]);
    }
  }

  ghost function BodiesOf(tally: Tally, g: nat, n: nat): nat {
    if n == 0 then 0 else BodiesOf(tally, g, n - 1) + Count(tally.bodies, Key(n - 1, g))
  }

  lemma {:induction false} BodiesSum(tally: Tally, g: nat, n: nat)
    requires forall s: nat :: Count(tally.bodies, Key(s, g)) <= MAX_ATTEMPTS
    ensures BodiesOf(tally, g, n) <= n * MAX_ATTEMPTS
  {
    if n > 0 { BodiesSum(tally, g, n - 1); }
  }

  /** In a generation without a crash or a retry, every step body starts at most MAX_ATTEMPTS times,
      bodies outside the five steps never, and all together at most 5 * MAX_ATTEMPTS times,
      whatever the interleaving with sweeps, duplicate dispatches and restarts. */
  lemma BodiesAreBounded(st: State, g: nat)
    requires Reachable(st) && g !in st.tally.disturbed
    ensures forall s: nat :: Count(st.tally.bodies, Key(s, g)) <= (if s < STEPS then MAX_ATTEMPTS else 0)
    ensures BodiesOf(st.tally, g, STEPS) <= STEPS * MAX_ATTEMPTS
  {
    var ls :| Run(INITIAL, ls) && After(INITIAL, ls) == st;
    assert Inv(INITIAL) && Counted(INITIAL);
    RunCounted(INITIAL, ls);
    forall s: nat ensures Count(st.tally.bodies, Key(s, g)) <= (if s < STEPS then MAX_ATTEMPTS else 0) {
      assert KeyCounts(st.db, Key(s, g), st.tally);
    }
    BodiesSum(st.tally, g, STEPS);
  }
}
