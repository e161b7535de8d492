/** What a retry that lets a later step overtake the retried one leads to: the later steps run to the end, and the
    final status is written over an open step. */
module PipelineOvertaking {
  import opened Pipeline
  import opened PipelineSafety
  import opened PipelineTheorems
  import opened PipelineRetry
  import opened PipelineBase
  import opened PipelineWork

  // ---- from state to state ----

  ghost predicate Leads(st: State, st': State) { exists ls :: Run(st, ls) && After(st, ls) == st' }

  lemma LeadsNowhere(st: State)
    ensures Leads(st, st)
  {
    assert Run(st, []) && After(st, []) == st;
  }

  lemma LeadsOne(st: State, l: Label, st': State)
    requires Enabled(st, l) && Safe(st, l) && Apply(st, l) == st'
    ensures Leads(st, st')
  {
    assert Run(st', []) && After(st', []) == st';
    RunOne(st, l, []);
    assert [l] + [] == [l];
  }

  lemma {:induction false} RunAppend(st: State, ls: seq<Label>, more: seq<Label>)
    requires Run(st, ls) && Run(After(st, ls), more)
    ensures Run(st, ls + more) && After(st, ls + more) == After(After(st, ls), more)
    decreases |ls|
  {
    if ls == [] {
      assert ls + more == more;
    } else {
      assert (ls + more)[1..] == ls[1..] + more;
      RunAppend(Apply(st, ls[0]), ls[1..], more);
    }
  }

  lemma LeadsThen(st: State, mid: State, st': State)
    requires Leads(st, mid) && Leads(mid, st')
    ensures Leads(st, st')
  {
    var ls :| Run(st, ls) && After(st, ls) == mid;
    var more :| Run(mid, more) && After(mid, more) == st';
    RunAppend(st, ls, more);
  }

  // ---- the same by steps and deliveries alone ----

  ghost predicate Inside(st: State, st': State) { exists ls :: InternalRun(st, ls) && After(st, ls) == st' }

  lemma {:induction false} InternalIsRun(st: State, ls: seq<Label>)
    requires InternalRun(st, ls)
    ensures Run(st, ls)
    decreases |ls|
  {
    if ls != [] { InternalIsRun(Apply(st, ls[0]), ls[1..]); }
  }

  lemma InsideLeads(st: State, st': State)
    requires Inside(st, st')
    ensures Leads(st, st')
  {
    var ls :| InternalRun(st, ls) && After(st, ls) == st';
    InternalIsRun(st, ls);
  }

  lemma {:induction false} RunIsInternal(st: State, ls: seq<Label>)
    requires Run(st, ls) && forall i :: 0 <= i < |ls| ==> Internal(ls[i])
    ensures InternalRun(st, ls)
    decreases |ls|
  {
    if ls != [] { RunIsInternal(Apply(st, ls[0]), ls[1..]); }
  }

  lemma InsideOne(st: State, l: Label, st': State)
    requires Internal(l) && Enabled(st, l) && Apply(st, l) == st'
    ensures Inside(st, st')
  {
    assert InternalRun(st', []) && After(st', []) == st';
    InternalOne(st, l, []);
  }

  lemma InsideThen(st: State, mid: State, st': State)
    requires Inside(st, mid) && Inside(mid, st')
    ensures Inside(st, st')
  {
    var ls :| InternalRun(st, ls) && After(st, ls) == mid;
    var more :| InternalRun(mid, more) && After(mid, more) == st';
    InternalAppend(st, ls, more);
  }

  // ---- one step of the pipeline, from delivery to return ----

  /** A choice under which step bodies end so and write no evaluation. */
  function Ending(o: Outcome): Choice { Choice(true, false, true, false, o) }

  const FINE := Ending(Succeed)

  /** The row after a body that ends so and is not tried again. */
  function Ended(o: Outcome): JobStatus { if o.Succeed? then JobCompleted else JobFailed }

  /** The process p moves to pc, and the rows and the queue to db. */
  function Moved(st: State, p: Pid, pc: Pc, db: Db): State { st.(procs := st.procs[p := pc], db := db) }

  lemma StepInside(st: State, p: Pid, pc: Pc, pc': Pc, db': Db, c: Choice)
    requires Fits(p, pc) && !pc.Return? && !Claims(st, pc) && !pc.WorkBody?
    requires pc' == NextPc(st.db, st.status, p, pc, c) && db' == NextDb(st.db, p, pc)
    requires st.status == NextStatus(st, p, pc) && st.evals == NextEvals(st, p, pc, c)
    ensures Inside(Moved(st, p, pc, st.db), Moved(st, p, pc', db'))
  {
    var from, to := Moved(st, p, pc, st.db), Moved(st, p, pc', db');
    assert st.procs[p := pc][p := pc'] == st.procs[p := pc'];
    assert StepOf(from, p, pc, c) == to;
    InsideOne(from, Step(p, c), to);
  }

  lemma StepLeads(st: State, p: Pid, pc: Pc, pc': Pc, db': Db)
    requires Fits(p, pc) && !pc.Return? && !Claims(st, pc) && !pc.WorkBody?
    requires pc' == NextPc(st.db, st.status, p, pc, FINE) && db' == NextDb(st.db, p, pc)
    requires st.status == NextStatus(st, p, pc) && st.evals == NextEvals(st, p, pc, FINE)
    ensures Inside(Moved(st, p, pc, st.db), Moved(st, p, pc', db'))
    ensures Leads(Moved(st, p, pc, st.db), Moved(st, p, pc', db'))
  {
    StepInside(st, p, pc, pc', db', FINE);
    InsideLeads(Moved(st, p, pc, st.db), Moved(st, p, pc', db'));
  }

  /** The tally after the body of k has started. */
  function Begun(st: State, k: Key): State { st.(tally := st.tally.(bodies := Bump(st.tally.bodies, k))) }

  lemma BodyLeads(st: State, w: Pid)
    requires w.WorkerOf? && w.key.step < STEPS
    ensures Inside(Moved(st, w, WorkBody, st.db), Moved(Begun(st, w.key), w, WorkRun, st.db))
    ensures Leads(Moved(st, w, WorkBody, st.db), Moved(Begun(st, w.key), w, WorkRun, st.db))
  {
    var from, to := Moved(st, w, WorkBody, st.db), Moved(Begun(st, w.key), w, WorkRun, st.db);
    assert st.procs[w := WorkBody][w := WorkRun] == st.procs[w := WorkRun];
    assert StepOf(from, w, WorkBody, FINE) == to;
    InsideOne(from, Step(w, FINE), to);
    InsideLeads(from, to);
  }

  /** From the start of the body to the search for the next step. */
  lemma BodyToAdvance(st: State, w: Pid, o: Outcome)
    requires w.WorkerOf? && w.key.step < STEPS && (o.Succeed? || o.Permanent?)
    ensures Inside(Moved(st, w, WorkBody, st.db),
                   Moved(Begun(st, w.key), w, Advance, SetRow(st.db, w.key, Ended(o))))
  {
    var from, begun := Moved(st, w, WorkBody, st.db), Begun(st, w.key);
    var s1, s2 := Moved(begun, w, WorkRun, st.db), Moved(begun, w, WorkOutcome(o), st.db);
    var s3 := Moved(begun, w, Advance, SetRow(st.db, w.key, Ended(o)));
    BodyLeads(st, w);
    StepInside(begun, w, WorkRun, WorkOutcome(o), st.db, Ending(o));
    InsideThen(from, s1, s2);
    StepInside(begun, w, WorkOutcome(o), Advance, SetRow(st.db, w.key, Ended(o)), Ending(o));
    InsideThen(from, s2, s3);
  }

  /** What enqueueStep makes of a queue in which the target's entry is not active and its row is open. */
  function Enqueued(queue: map<Key, Entry>, target: Key): map<Key, Entry> {
    if target in queue && queue[target].Waiting? then queue else queue[target := Waiting(0)]
  }

  lemma AddsEntry(st: State, w: Pid, target: Key)
    requires target !in st.db.queue
    ensures Inside(Moved(st, w, DispatchAdd(target), st.db),
                   Moved(st, w, Return(false), st.db.(queue := Enqueued(st.db.queue, target))))
  {
    StepLeads(st, w, DispatchAdd(target), Return(false), st.db.(queue := Enqueued(st.db.queue, target)));
  }

  /** A finished entry is removed, and a new one added. */
  lemma ReplacesEntry(st: State, w: Pid, target: Key)
    requires target in st.db.queue && st.db.queue[target].Finished?
    ensures Inside(Moved(st, w, DispatchRemove(target), st.db),
                   Moved(st, w, Return(false), st.db.(queue := Enqueued(st.db.queue, target))))
  {
    var removed := st.db.(queue := st.db.queue - {target});
    var without := st.(db := removed);
    StepLeads(st, w, DispatchRemove(target), DispatchAdd(target), removed);
    AddsEntry(without, w, target);
    assert (st.db.queue - {target})[target := Waiting(0)] == st.db.queue[target := Waiting(0)];
    InsideThen(Moved(st, w, DispatchRemove(target), st.db), Moved(st, w, DispatchAdd(target), removed),
              Moved(st, w, Return(false), st.db.(queue := Enqueued(st.db.queue, target))));
  }

  lemma ReplacesFinished(st: State, w: Pid, target: Key)
    requires !Done(st.db.jobs, target) && target in st.db.queue && st.db.queue[target].Finished?
    ensures Inside(Moved(st, w, DispatchState(target, false), st.db),
                   Moved(st, w, Return(false), st.db.(queue := Enqueued(st.db.queue, target))))
  {
    var from, end := Moved(st, w, DispatchState(target, false), st.db), st.db.(queue := Enqueued(st.db.queue, target));
    StepLeads(st, w, DispatchState(target, false), DispatchRow(target), st.db);
    StepLeads(st, w, DispatchRow(target), DispatchRemove(target), st.db);
    InsideThen(from, Moved(st, w, DispatchRow(target), st.db), Moved(st, w, DispatchRemove(target), st.db));
    ReplacesEntry(st, w, target);
    InsideThen(from, Moved(st, w, DispatchRemove(target), st.db), Moved(st, w, Return(false), end));
  }

  lemma Dispatches(st: State, w: Pid, target: Key)
    requires !Done(st.db.jobs, target) && (target in st.db.queue ==> !st.db.queue[target].Active?)
    ensures Inside(Moved(st, w, DispatchLook(target, false), st.db),
                   Moved(st, w, Return(false), st.db.(queue := Enqueued(st.db.queue, target))))
  {
    var from, end := Moved(st, w, DispatchLook(target, false), st.db), st.db.(queue := Enqueued(st.db.queue, target));
    if target !in st.db.queue {
      StepLeads(st, w, DispatchLook(target, false), DispatchAdd(target), st.db);
      AddsEntry(st, w, target);
      InsideThen(from, Moved(st, w, DispatchAdd(target), st.db), Moved(st, w, Return(false), end));
    } else {
      StepLeads(st, w, DispatchLook(target, false), DispatchState(target, false), st.db);
      if st.db.queue[target].Waiting? {
        StepLeads(st, w, DispatchState(target, false), Return(false), st.db);
        assert end == st.db;
      } else {
        ReplacesFinished(st, w, target);
      }
      InsideThen(from, Moved(st, w, DispatchState(target, false), st.db), Moved(st, w, Return(false), end));
    }
  }

  // ---- the overtaking steps, one after another ----

  /** The next step to run is j: its entry waits, it and all later ones are open, and nobody is at work but the
      retry q, which stands still. The retried step is open as well. */
  ghost predicate Stage(st: State, q: Pid, step: nat, j: nat) {
    && !st.db.deleted && st.db.gen > 0 && st.status.Processing? && q.Other? && step < j < STEPS
    && q in st.procs && st.procs == map[q := st.procs[q]]
    && (forall k :: k in st.db.queue ==> !st.db.queue[k].Active?)
    && Key(j, st.db.gen) in st.db.queue && st.db.queue[Key(j, st.db.gen)].Waiting?
    && !Done(st.db.jobs, Key(step, st.db.gen))
    && (forall t :: j <= t < STEPS ==> !Done(st.db.jobs, Key(t, st.db.gen)))
  }

  /** The entry of step j is active, its row completed, and its worker is about to look for the next step. */
  ghost predicate Searching(st: State, q: Pid, w: Pid, step: nat, j: nat) {
    && !st.db.deleted && st.db.gen > 0 && st.status.Processing? && q.Other? && step < j < STEPS
    && w.WorkerOf? && w.key == Key(j, st.db.gen)
    && q in st.procs && st.procs == map[q := st.procs[q], w := Advance]
    && (forall k :: k in st.db.queue && k != w.key ==> !st.db.queue[k].Active?)
    && Done(st.db.jobs, w.key) && !Done(st.db.jobs, Key(step, st.db.gen))
    && (forall t :: j < t < STEPS ==> !Done(st.db.jobs, Key(t, st.db.gen)))
  }

  /** The rows after step j has ended. */
  predicate RowsSince(jobs: Rows, jobs': Rows, g: nat, j: nat, o: Outcome) {
    forall t :: 0 <= t < STEPS ==>
      if t < j then (forall r :: RowIs(jobs', Key(t, g), r) <==> RowIs(jobs, Key(t, g), r))
      else RowIs(jobs', Key(t, g), Ended(o))
  }

  lemma RowsSinceOne(jobs: Rows, jobs': Rows, g: nat, j: nat, o: Outcome)
    requires j < STEPS
    requires if j + 1 < STEPS then RowsSince(jobs[Key(j, g) := Ended(o)], jobs', g, j + 1, o)
             else jobs' == jobs[Key(j, g) := Ended(o)]
    ensures RowsSince(jobs, jobs', g, j, o)
  {
    var next := jobs[Key(j, g) := Ended(o)];
    forall t | 0 <= t < STEPS
      ensures if t < j then (forall r :: RowIs(jobs', Key(t, g), r) <==> RowIs(jobs, Key(t, g), r))
              else RowIs(jobs', Key(t, g), Ended(o))
    {
      assert t != j ==> (forall r :: RowIs(next, Key(t, g), r) <==> RowIs(jobs, Key(t, g), r));
      assert RowIs(next, Key(j, g), Ended(o));
    }
  }

  /** From the delivery of an open step's entry to the start of its body. */
  lemma BodyInside(st: State, w: Pid)
    requires w.WorkerOf? && w.key.step < STEPS && w in st.procs && st.procs[w].WorkRead?
    requires !st.db.deleted && st.db.gen == w.key.gen && !st.status.Queued? && !Done(st.db.jobs, w.key)
    ensures Inside(st, Moved(st, w, WorkBody, SetRow(st.db, w.key, JobProcessing)))
  {
    WorkerAtBody(st, w, FINE);
    RunIsInternal(st, Repeat(Step(w, FINE), 3));
  }

  /** A worker about to read its open row, after its step. */
  function RanTo(st: State, w: Pid, o: Outcome): State
    requires w.WorkerOf?
  {
    Moved(Begun(st, w.key), w, Advance, SetRow(st.db, w.key, Ended(o)))
  }

  lemma WorkerRuns(st: State, w: Pid, o: Outcome)
    requires w.WorkerOf? && w.key.step < STEPS && w in st.procs && st.procs[w].WorkRead?
    requires !st.db.deleted && st.db.gen == w.key.gen && !st.status.Queued? && !Done(st.db.jobs, w.key)
    requires o.Succeed? || o.Permanent?
    ensures Inside(st, RanTo(st, w, o))
  {
    var db := SetRow(st.db, w.key, JobProcessing);
    var processing := st.(db := db);
    BodyInside(st, w);
    BodyToAdvance(processing, w, o);
    assert db.jobs[w.key := Ended(o)] == st.db.jobs[w.key := Ended(o)];
    assert Moved(Begun(processing, w.key), w, Advance, SetRow(db, w.key, Ended(o))) == RanTo(st, w, o);
    InsideThen(st, Moved(processing, w, WorkBody, db), RanTo(st, w, o));
  }

  lemma StageRuns(st: State, w: Pid, o: Outcome) returns (st': State)
    requires w.WorkerOf? && w.key.step < STEPS && w.key.gen == st.db.gen && (o.Succeed? || o.Permanent?)
    requires w.key in st.db.queue && st.db.queue[w.key] == Waiting(w.made)
    requires !st.db.deleted && st.status.Processing? && !Done(st.db.jobs, w.key)
    ensures Inside(st, st') && st'.status == st.status && st'.procs == st.procs[w := Advance]
    ensures st'.db == SetRow(st.db, w.key, Ended(o)).(queue := st.db.queue[w.key := Active(w.made)])
  {
    var s1 := Apply(st, Deliver(w.key));
    InsideOne(st, Deliver(w.key), s1);
    WorkerRuns(s1, w, o);
    st' := RanTo(s1, w, o);
    InsideThen(st, s1, st');
    assert st.procs[w := WorkRead][w := Advance] == st.procs[w := Advance];
  }

  lemma StageDelivers(st: State, q: Pid, step: nat, j: nat, o: Outcome) returns (w: Pid, st': State)
    requires Stage(st, q, step, j) && (o.Succeed? || o.Permanent?)
    ensures Inside(st, st') && Searching(st', q, w, step, j) && st'.db.gen == st.db.gen
    ensures st'.db.jobs == st.db.jobs[Key(j, st.db.gen) := Ended(o)] && st'.procs[q] == st.procs[q]
  {
    var k := Key(j, st.db.gen);
    w := WorkerOf(k, st.db.queue[k].made);
    st' := StageRuns(st, w, o);
    assert st'.procs == map[q := st.procs[q], w := Advance];
  }

  lemma SearchEnqueues(st: State, q: Pid, w: Pid, step: nat, j: nat)
    requires Searching(st, q, w, step, j) && j + 1 < STEPS
    ensures var target := Key(j + 1, st.db.gen);
            Inside(st, Moved(st, w, Return(false), st.db.(queue := Enqueued(st.db.queue, target))))
  {
    var target := Key(j + 1, st.db.gen);
    assert FirstOpen(st.db.jobs, st.db.gen, j + 1) == j + 1;
    assert Moved(st, w, Advance, st.db) == st;
    StepLeads(st, w, Advance, DispatchLook(target, false), st.db);
    Dispatches(st, w, target);
    InsideThen(st, Moved(st, w, DispatchLook(target, false), st.db),
               Moved(st, w, Return(false), st.db.(queue := Enqueued(st.db.queue, target))));
  }

  lemma SearchDispatches(st: State, q: Pid, w: Pid, step: nat, j: nat) returns (st': State)
    requires Searching(st, q, w, step, j) && j + 1 < STEPS
    ensures Inside(st, st') && Stage(st', q, step, j + 1) && st'.db.gen == st.db.gen
    ensures st'.db.jobs == st.db.jobs && st'.procs[q] == st.procs[q]
  {
    var target := Key(j + 1, st.db.gen);
    var s2 := Moved(st, w, Return(false), st.db.(queue := Enqueued(st.db.queue, target)));
    SearchEnqueues(st, q, w, step, j);
    st' := Leave(s2, w, false);
    InsideOne(s2, Step(w, FINE), st');
    InsideThen(st, s2, st');
    assert st'.procs == map[q := st.procs[q]];
  }

  lemma CompletionInside(st: State, w: Pid)
    requires w.WorkerOf? && w.key.step == STEPS - 1 && w.key.gen == st.db.gen && w in st.procs && st.procs[w].Advance?
    requires st.status.Active()
    ensures Inside(st, Moved(st, w, CompleteClaim(st.db.gen, FinalOf(st.db.jobs, st.db.gen)), st.db))
  {
    var g := st.db.gen;
    var final := FinalOf(st.db.jobs, g);
    assert Moved(st, w, Advance, st.db) == st;
    StepLeads(st, w, Advance, CompleteRead(g), st.db);
    StepLeads(st, w, CompleteRead(g), CompleteClaim(g, final), st.db);
    InsideThen(st, Moved(st, w, CompleteRead(g), st.db), Moved(st, w, CompleteClaim(g, final), st.db));
  }

  /** Behind the last step the completion is claimed. */
  lemma SearchCompletes(st: State, q: Pid, w: Pid, step: nat) returns (st': State)
    requires Searching(st, q, w, step, STEPS - 1)
    ensures Inside(st, st') && st'.db == st.db && st'.status == FinalOf(st.db.jobs, st.db.gen)
    ensures st'.procs == st.procs[w := Return(false)]
  {
    CompletionInside(st, w);
    var s2 := Moved(st, w, CompleteClaim(st.db.gen, FinalOf(st.db.jobs, st.db.gen)), st.db);
    st' := Apply(s2, Step(w, FINE));
    InsideOne(s2, Step(w, FINE), st');
    InsideThen(st, s2, st');
  }

  /** A final status with the last step terminal and the retried one open. */
  ghost predicate Overtaken(st: State, step: nat) {
    && st.status.Final() && Done(st.db.jobs, Key(STEPS - 1, st.db.gen)) && !Done(st.db.jobs, Key(step, st.db.gen))
    && step < STEPS - 1
  }

  /** Only the retry q and a worker that is about to return are left. */
  predicate Leaving(procs: map<Pid, Pc>, q: Pid, pc: Pc) {
    q in procs && procs[q] == pc && forall p :: p in procs ==> p == q || (p.WorkerOf? && procs[p] == Return(false))
  }

  /** From st the steps from j on have run to the end, before the retry q, and the final status is written. */
  ghost predicate Outrun(st: State, end: State, q: Pid, step: nat, j: nat, o: Outcome) {
    && Inside(st, end) && Overtaken(end, step) && end.db.gen == st.db.gen && !end.db.deleted
    && RowsSince(st.db.jobs, end.db.jobs, st.db.gen, j, o)
    && end.status == FinalOf(end.db.jobs, st.db.gen)
    && q in st.procs && Leaving(end.procs, q, st.procs[q])
  }

  lemma LastStage(st: State, q: Pid, step: nat, o: Outcome) returns (end: State)
    requires Stage(st, q, step, STEPS - 1) && (o.Succeed? || o.Permanent?)
    ensures Outrun(st, end, q, step, STEPS - 1, o)
  {
    var w, searching := StageDelivers(st, q, step, STEPS - 1, o);
    end := SearchCompletes(searching, q, w, step);
    InsideThen(st, searching, end);
    RowsSinceOne(st.db.jobs, end.db.jobs, st.db.gen, STEPS - 1, o);
  }

  lemma NextStage(st: State, q: Pid, step: nat, j: nat, o: Outcome) returns (next: State)
    requires Stage(st, q, step, j) && j + 1 < STEPS && (o.Succeed? || o.Permanent?)
    ensures Inside(st, next) && Stage(next, q, step, j + 1) && next.db.gen == st.db.gen
    ensures next.db.jobs == st.db.jobs[Key(j, st.db.gen) := Ended(o)] && next.procs[q] == st.procs[q]
  {
    var w, searching := StageDelivers(st, q, step, j, o);
    next := SearchDispatches(searching, q, w, step, j);
    InsideThen(st, searching, next);
  }

  lemma OutrunThen(st: State, next: State, end: State, q: Pid, step: nat, j: nat, o: Outcome)
    requires Inside(st, next) && next.db.gen == st.db.gen && q in st.procs && q in next.procs
    requires next.db.jobs == st.db.jobs[Key(j, st.db.gen) := Ended(o)] && next.procs[q] == st.procs[q]
    requires j + 1 < STEPS && Outrun(next, end, q, step, j + 1, o)
    ensures Outrun(st, end, q, step, j, o)
  {
    InsideThen(st, next, end);
    RowsSinceOne(st.db.jobs, end.db.jobs, st.db.gen, j, o);
  }

  lemma {:induction false} StageRunsOut(st: State, q: Pid, step: nat, j: nat, o: Outcome) returns (end: State)
    requires Stage(st, q, step, j) && (o.Succeed? || o.Permanent?)
    ensures Outrun(st, end, q, step, j, o)
    decreases STEPS - j
  {
    if j == STEPS - 1 {
      end := LastStage(st, q, step, o);
    } else {
      var next := NextStage(st, q, step, j, o);
      end := StageRunsOut(next, q, step, j + 1, o);
      OutrunThen(st, next, end, q, step, j, o);
    }
  }

  /** After an unsafe retry the later steps can run to the end and the final status be written. */
  lemma WaitingOvertakes(st: State, n: nat, step: nat, k: Key, o: Outcome) returns (end: State)
    requires Inv(st) && st.procs == map[] && Enabled(st, Retry(n, step)) && (o.Succeed? || o.Permanent?)
    requires k in st.db.queue && st.db.queue[k].Waiting? && k.gen == st.db.gen && k.step > step
    ensures Outrun(Apply(st, Retry(n, step)), end, Other(n), step, k.step, o)
  {
    var s1 := Apply(st, Retry(n, step));
    forall j | j in s1.db.queue ensures !s1.db.queue[j].Active? { assert EntryOk(st.db, st.procs, j); }
    assert EntryOk(st.db, st.procs, k);
    assert k == Key(k.step, st.db.gen);
    assert s1.procs == map[Other(n) := s1.procs[Other(n)]];
    end := StageRunsOut(s1, Other(n), step, k.step, o);
  }

  // ---- main result ----

  /** From here on terminal jobs form a prefix of the step order in every run. */
  ghost predicate PrefixFrom(st: State) {
    forall st', g :: Leads(st, st') ==> IsPrefix(st'.db.jobs, g)
  }

  /** From here on a final status stands over five terminal jobs in every run. */
  ghost predicate SettledFrom(st: State) {
    forall st' :: Leads(st, st') && st'.status.Final() ==> AllDone(st'.db.jobs, st'.db.gen)
  }

  lemma InvLeads(st: State, st': State)
    requires Inv(st) && Leads(st, st')
    ensures Inv(st')
  {
    var ls :| Run(st, ls) && After(st, ls) == st';
    RunKeeps(st, ls);
  }

  lemma InvIsSettled(st: State)
    requires Inv(st)
    ensures PrefixFrom(st) && SettledFrom(st)
  {
    forall st', g | Leads(st, st') ensures IsPrefix(st'.db.jobs, g) {
      InvLeads(st, st');
      PrefixOf(st', g);
    }
    forall st' | Leads(st, st') && st'.status.Final() ensures AllDone(st'.db.jobs, st'.db.gen) {
      InvLeads(st, st');
    }
  }

  lemma OvertakenIsNoPrefix(st: State, step: nat)
    requires Overtaken(st, step)
    ensures !AllDone(st.db.jobs, st.db.gen) && !IsPrefix(st.db.jobs, st.db.gen)
  {
  }

  lemma WaitingBreaksPromises(st: State, n: nat, step: nat)
    requires Inv(st) && st.procs == map[] && Enabled(st, Retry(n, step)) && LaterWaits(st, step)
    ensures !PrefixFrom(Apply(st, Retry(n, step))) && !SettledFrom(Apply(st, Retry(n, step)))
  {
    var k :| k in st.db.queue && st.db.queue[k].Waiting? && k.gen == st.db.gen && k.step > step;
    var end := WaitingOvertakes(st, n, step, k, Succeed);
    InsideLeads(Apply(st, Retry(n, step)), end);
    OvertakenIsNoPrefix(end, step);
  }

  /** With nobody at work, a retry keeps each of the three promises in every run from there on exactly when no
      queue entry of a later step of the generation waits: bodies start in order, terminal jobs form a prefix, and
      a final status stands over five terminal jobs. */
  lemma RetryKeepsPromisesExactly(st: State, n: nat, step: nat)
    requires Inv(st) && st.procs == map[] && Enabled(st, Retry(n, step))
    ensures OrderlyFrom(Apply(st, Retry(n, step))) <==> !LaterWaits(st, step)
    ensures PrefixFrom(Apply(st, Retry(n, step))) <==> !LaterWaits(st, step)
    ensures SettledFrom(Apply(st, Retry(n, step))) <==> !LaterWaits(st, step)
  {
    RetryKeepsOrderExactly(st, n, step);
    if LaterWaits(st, step) {
      WaitingBreaksPromises(st, n, step);
    } else {
      NothingWaitsIsSafe(st, step);
      RetryKeeps(st, n, step);
      InvIsSettled(Apply(st, Retry(n, step)));
    }
  }

  /** Such an end is reachable but for the retry itself: nobody is at work, the retry is accepted, and a final status
      is written while the retried step is open. */
  lemma FinalOverOpenStep() returns (end: State)
    ensures Reachable(SETTLED) && SETTLED.procs == map[] && Enabled(SETTLED, Retry(0, 0))
    ensures Leads(Apply(SETTLED, Retry(0, 0)), end) && end.status.Final() && !Done(end.db.jobs, Key(0, end.db.gen))
  {
    UnsafeRetryIsReachable();
    ReachableInv(SETTLED);
    end := WaitingOvertakes(SETTLED, 0, 0, SECOND, Succeed);
    InsideLeads(Apply(SETTLED, Retry(0, 0)), end);
  }
}
