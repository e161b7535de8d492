/** AnalysisService in the form of its code: methods that update the session's rows and queue in
    place. Each is proved to be a run of the state machine by one process, taken alone, so the
    results about interleavings speak about this code. */
module PipelineService {
  import opened Wrappers
  import opened Pipeline
  import opened PipelineSafety
  import opened PipelineAlways

  /** The next step of process p, unless it is ready to return. */
  ghost function One(st: State, p: Pid, c: Choice): State {
    if p in st.procs && Fits(p, st.procs[p]) && !st.procs[p].Return? then StepOf(st, p, st.procs[p], c) else st
  }

  /** n steps of process p alone, or fewer if it gets ready to return. */
  ghost function Solo(st: State, p: Pid, c: Choice, n: nat): State
    decreases n
  {
    if n == 0 then st else Solo(One(st, p, c), p, c, n - 1)
  }

  lemma {:induction false} SoloThen(st: State, p: Pid, c: Choice, n: nat, m: nat)
    ensures Solo(Solo(st, p, c, n), p, c, m) == Solo(st, p, c, n + m)
    decreases n
  {
    if n > 0 { SoloThen(One(st, p, c), p, c, n - 1, m); }
  }

  /** Process p gets from st to st' by steps of its own. */
  ghost predicate Path(st: State, p: Pid, c: Choice, st': State) {
    exists n: nat :: Solo(st, p, c, n) == st'
  }

  lemma PathThen(st: State, p: Pid, c: Choice, mid: State, st': State)
    requires Path(st, p, c, mid) && Path(mid, p, c, st')
    ensures Path(st, p, c, st')
  {
    var n: nat :| Solo(st, p, c, n) == mid;
    var m: nat :| Solo(mid, p, c, m) == st';
    SoloThen(st, p, c, n, m);
  }

  /** Code that only follows paths of the machine never leaves its reachable states. */
  lemma {:induction false} SoloReachable(st: State, p: Pid, c: Choice, n: nat)
    requires Reachable(st)
    ensures Reachable(Solo(st, p, c, n))
    decreases n
  {
    if n > 0 {
      if One(st, p, c) != st { ReachableStep(st, Step(p, c)); }
      SoloReachable(One(st, p, c), p, c, n - 1);
    }
  }

  lemma PathReachable(st: State, p: Pid, c: Choice, st': State)
    requires Reachable(st) && Path(st, p, c, st')
    ensures Reachable(st')
  {
    var n: nat :| Solo(st, p, c, n) == st';
    SoloReachable(st, p, c, n);
  }

  // ---- what each operation does, on the rows ----

  /** The final status that the rows of generation g call for: failed when scoring (step 1) or extraction (step 2)
      failed and neither completed, otherwise partial when any step failed. */
  predicate Verdict(v: AnalysisStatus, jobs: Rows, g: nat) {
    var failed := exists s | 0 <= s < 5 :: RowIs(jobs, Key(s, g), JobFailed);
    var coreLost := && (RowIs(jobs, Key(1, g), JobFailed) || RowIs(jobs, Key(2, g), JobFailed))
                    && !RowIs(jobs, Key(1, g), JobCompleted) && !RowIs(jobs, Key(2, g), JobCompleted);
    v == if coreLost then Failed else if failed then Partial else Completed
  }

  /** enqueueStep: there is a fresh entry, unless one is scheduled already, or is finished and its row as well. */
  predicate EntryFor(queue: map<Key, Entry>, queue': map<Key, Entry>, jobs: Rows, target: Key, replace: bool) {
    var adds := target !in queue || (queue[target].Finished? && (replace || !Done(jobs, target)));
    queue' == if adds then queue[target := Waiting(0)] else queue
  }

  predicate Enqueues(s: State, t: State, target: Key, replace: bool) {
    && t.db == s.db.(queue := t.db.queue) && t.status == s.status && t.evals == s.evals
    && EntryFor(s.db.queue, t.db.queue, s.db.jobs, target, replace)
  }

  /** completePipeline: a session that is queued or processing for g gets its final status. */
  predicate Finishes(s: State, t: State, g: nat) {
    && t.db == s.db && t.evals == s.evals
    && if s.db.gen == g && (s.status.Queued? || s.status.Processing?) then Verdict(t.status, s.db.jobs, g)
       else t.status == s.status
  }

  predicate IsFirstOpen(jobs: Rows, g: nat, from: nat, next: nat) {
    from <= next < 5 && !Done(jobs, Key(next, g)) && forall k :: from <= k < next ==> Done(jobs, Key(k, g))
  }

  /** The first open step from `from` on is enqueued; if there is none, the generation is completed. */
  ghost predicate GoesOn(s: State, t: State, g: nat, from: nat) {
    && ((forall k :: from <= k < 5 ==> Done(s.db.jobs, Key(k, g))) ==> Finishes(s, t, g))
    && (forall next :: IsFirstOpen(s.db.jobs, g, from, next) ==> Enqueues(s, t, Key(next, g), false))
  }

  lemma OpenGoesOn(s: State, t: State, g: nat, from: nat, next: nat)
    requires IsFirstOpen(s.db.jobs, g, from, next) && Enqueues(s, t, Key(next, g), false)
    ensures GoesOn(s, t, g, from)
  {
    forall other | IsFirstOpen(s.db.jobs, g, from, other) ensures other == next {}
  }

  lemma ClosedGoesOn(s: State, t: State, g: nat, from: nat)
    requires (forall k :: from <= k < 5 ==> Done(s.db.jobs, Key(k, g))) && Finishes(s, t, g)
    ensures GoesOn(s, t, g, from)
  {
  }

  /** startPipeline: whether it opens a generation, marks the session skipped, or does nothing. */
  predicate Opens(s: State, c: Choice, reprocess: bool) {
    !s.db.deleted && c.ended && !c.skip && (reprocess || s.db.gen == 0)
  }

  predicate MarksSkipped(s: State, c: Choice, reprocess: bool) {
    !s.db.deleted && c.ended && c.skip && !reprocess && s.db.gen == 0
  }

  /** jobs' has the rows of jobs and, queued, all missing ones of generation g. */
  ghost predicate Created(jobs: Rows, jobs': Rows, g: nat) {
    && (forall k: Key :: k in jobs' <==> k in jobs || (k.gen == g && k.step < 5))
    && (forall k :: k in jobs' ==> jobs'[k] == if k in jobs then jobs[k] else JobQueued)
  }

  ghost predicate Starts(s: State, t: State, c: Choice, reprocess: bool) {
    if Opens(s, c, reprocess) then
      && t.db.gen == s.db.gen + 1 && t.status.Queued? && t.evals == s.evals && t.db.deleted == s.db.deleted
      && Created(s.db.jobs, t.db.jobs, t.db.gen)
      && EntryFor(s.db.queue, t.db.queue, t.db.jobs, Key(0, t.db.gen), false)
    else t.db == s.db && t.evals == s.evals && t.status == if MarksSkipped(s, c, reprocess) then Skipped else s.status
  }

  /** sweep: a stale session that is queued or processing goes on; one whose start was missed is started. */
  ghost predicate Sweeps(s: State, t: State, c: Choice) {
    if c.stale && !s.db.deleted && s.db.gen > 0 && (s.status.Queued? || s.status.Processing?)
    then GoesOn(s, t, s.db.gen, 0)
    else if c.stale && !s.db.deleted && s.db.gen == 0 && s.status.NotStarted? then Starts(s, t, c, false)
    else t.db == s.db && t.status == s.status && t.evals == s.evals
  }

  /** The scoring transaction of generation g at a session of generation gen. */
  predicate Scored(evals: map<nat, bool>, evals': map<nat, bool>, gen: nat, g: nat) {
    && evals'.Keys == evals.Keys + {g}
    && forall e :: e in evals' ==> (evals'[e] <==> if gen == g then e == g else e != g && evals[e])
  }

  /** One attempt at an open step: how its row ends, and what else it writes. */
  ghost predicate Attempted(s: State, t: State, p: Pid, c: Choice, sawQueued: bool, throws: bool)
    requires p.WorkerOf?
  {
    && (throws <==> c.outcome.Retryable? && p.made < 3)
    && t.db == s.db.(jobs := s.db.jobs[p.key := if c.outcome.Succeed? then JobCompleted
                                                else if c.outcome.SkipStep? then JobSkipped
                                                else if throws then JobQueued else JobFailed])
    && t.status == (if sawQueued && s.db.gen == p.key.gen && s.status.Queued? then Processing else s.status)
    && if p.key.step == 1 && c.scores then Scored(s.evals, t.evals, s.db.gen, p.key.gen) else t.evals == s.evals
  }

  /** runStep: a step of a deleted session or a superseded generation is skipped; a finished one is passed; an open
      one is attempted, and passed unless it will be tried again. */
  ghost predicate Runs(s: State, t: State, p: Pid, c: Choice, throws: bool)
    requires p.WorkerOf?
  {
    if s.db.deleted || s.db.gen != p.key.gen then
      && !throws && t.status == s.status && t.evals == s.evals
      && t.db == if p.key in s.db.jobs && (s.db.jobs[p.key].JobQueued? || s.db.jobs[p.key].JobProcessing?)
                 then s.db.(jobs := s.db.jobs[p.key := JobSkipped]) else s.db
    else RunsCurrent(s, t, p, c, s.status.Queued?, throws)
  }

  ghost predicate RunsCurrent(s: State, t: State, p: Pid, c: Choice, sawQueued: bool, throws: bool)
    requires p.WorkerOf?
  {
    if Done(s.db.jobs, p.key) then !throws && GoesOn(s, t, p.key.gen, p.key.step + 1)
    else RunsOpen(s, t, p, c, sawQueued, throws)
  }

  ghost predicate RunsOpen(s: State, t: State, p: Pid, c: Choice, sawQueued: bool, throws: bool)
    requires p.WorkerOf?
  {
    exists mid :: Attempted(s, mid, p, c, sawQueued, throws)
                  && if throws then t.db == mid.db && t.status == mid.status && t.evals == mid.evals
                     else GoesOn(mid, t, p.key.gen, p.key.step + 1)
  }

  /** What follows a read follows from the state before it as well. */
  lemma AfterRead(s: State, mid: State, t: State, p: Pid, c: Choice, sawQueued: bool, throws: bool)
    requires p.WorkerOf? && mid.db == s.db && mid.status == s.status && mid.evals == s.evals
    requires if Done(s.db.jobs, p.key) then !throws && GoesOn(mid, t, p.key.gen, p.key.step + 1)
             else RunsOpen(mid, t, p, c, sawQueued, throws)
    ensures RunsCurrent(s, t, p, c, sawQueued, throws)
  {
    if !Done(s.db.jobs, p.key) {
      var end :| Attempted(mid, end, p, c, sawQueued, throws)
                 && if throws then t.db == end.db && t.status == end.status && t.evals == end.evals
                    else GoesOn(end, t, p.key.gen, p.key.step + 1);
      assert Attempted(s, end, p, c, sawQueued, throws);
    }
  }

  /** retryStep from its transaction on: the rows of the generation from the step on are queued again. */
  ghost predicate Retries(s: State, t: State, a: Asked) {
    && t.status.Processing? && t.evals == s.evals && t.db.gen == s.db.gen && t.db.deleted == s.db.deleted
    && t.db.jobs.Keys == s.db.jobs.Keys
    && (forall k :: k in t.db.jobs ==>
          t.db.jobs[k] == if k.gen == a.gen && a.step <= k.step < 5 then JobQueued else s.db.jobs[k])
    && EntryFor(s.db.queue, t.db.queue, t.db.jobs, Key(a.step, a.gen), true)
  }

  // ---- what a claimed completion tells the world ----

  datatype Event = SessionFailed | SessionAnalyzed(evaluation: Option<nat>) | SessionExtracted

  /** The processing section of a report: the final status and the status of each step, none without a row. */
  datatype Report = Report(status: AnalysisStatus, steps: seq<Option<JobStatus>>)

  /** It says what the rows say. */
  predicate Reports(r: Report, jobs: Rows, g: nat) {
    && Verdict(r.status, jobs, g) && |r.steps| == 5
    && forall s :: 0 <= s < 5 ==> r.steps[s] == if Key(s, g) in jobs then Some(jobs[Key(s, g)]) else None
  }

  /** The evaluation that is current, if there is one. */
  predicate IsCurrentOf(evals: map<nat, bool>, e: Option<nat>) {
    match e
    case Some(g) => g in evals && evals[g]
    case None => forall g :: g in evals ==> !evals[g]
  }

  /** A failed analysis emits its failure; any other the analysis, and the extraction if that step completed. */
  predicate Announces(events: seq<Event>, jobs: Rows, g: nat, evals: map<nat, bool>) {
    if Verdict(Failed, jobs, g) then events == [SessionFailed]
    else
      && events != [] && events[0].SessionAnalyzed? && IsCurrentOf(evals, events[0].evaluation)
      && events[1..] == if RowIs(jobs, Key(2, g), JobCompleted) then [SessionExtracted] else []
  }

  class Session {
    var gen: nat
    var status: AnalysisStatus
    var deleted: bool
    var jobs: map<Key, JobStatus>
    var queue: map<Key, Entry>
    var evals: map<nat, bool>
    /** The processing section of the session's report, if there is a report. */
    var report: Option<Report>
    ghost var procs: map<Pid, Pc>
    ghost var tally: Tally

    /** The machine state this object stands for. */
    ghost function Model(): State
      reads this
    {
      State(Db(gen, deleted, jobs, queue), status, evals, procs, tally)
    }

    /** p carried out its step on the fields: move it on. */
    ghost method Move(before: State, p: Pid, c: Choice)
      requires p in before.procs && Fits(p, before.procs[p]) && !before.procs[p].Return?
      requires procs == before.procs && tally == before.tally
      requires Model().db == NextDb(before.db, p, before.procs[p])
      requires status == NextStatus(before, p, before.procs[p]) && evals == NextEvals(before, p, before.procs[p], c)
      modifies this`procs, this`tally
      ensures Path(before, p, c, Model())
      ensures procs == before.procs[p := NextPc(before.db, before.status, p, before.procs[p], c)]
    {
      procs := procs[p := NextPc(before.db, before.status, p, before.procs[p], c)];
      tally := NextTally(before, p, before.procs[p]);
      assert Model() == One(before, p, c) == Solo(before, p, c, 1);
    }

    /** enqueueStep: whether an existing entry may be replaced. */
    method MayReplace(ghost p: Pid, ghost c: Choice, target: Key, replace: bool) returns (may: bool)
      requires p in procs && procs[p] == DispatchState(target, replace)
      modifies this`procs, this`tally
      ensures Path(old(Model()), p, c, Model())
      ensures p in procs && procs[p] == (if may then DispatchRemove(target) else Return(false))
      ensures may <==> target in queue && queue[target].Finished? && (replace || !Done(jobs, target))
    {
      ghost var start := Model();
      may := target in queue && queue[target].Finished?;
      Move(start, p, c);
      if may && !replace {
        // A finished entry whose row still needs to run is replaced.
        ghost var mid := Model();
        may := !Done(jobs, target);
        Move(mid, p, c);
        PathThen(start, p, c, mid, Model());
      }
    }

    /** enqueueStep: remove what is there, then add. */
    method Replace(ghost p: Pid, ghost c: Choice, target: Key)
      requires p in procs && procs[p] == DispatchRemove(target)
      modifies this`queue, this`procs, this`tally
      ensures Path(old(Model()), p, c, Model())
      ensures p in procs && procs[p] == Return(false)
      ensures target !in old(queue) || old(queue)[target].Finished? ==> queue == old(queue)[target := Waiting(0)]
    {
      ghost var start := Model();
      if target in queue && !queue[target].Active? {
        queue := queue - {target};
      }
      Move(start, p, c);
      ghost var mid := Model();
      Add(p, c, target);
      PathThen(start, p, c, mid, Model());
    }

    /** enqueueStep: add; an existing id is left alone. */
    method Add(ghost p: Pid, ghost c: Choice, target: Key)
      requires p in procs && procs[p] == DispatchAdd(target)
      modifies this`queue, this`procs, this`tally
      ensures Path(old(Model()), p, c, Model())
      ensures p in procs && procs[p] == Return(false)
      ensures queue == if target in old(queue) then old(queue) else old(queue)[target := Waiting(0)]
    {
      ghost var start := Model();
      if target !in queue {
        queue := queue[target := Waiting(0)];
      }
      Move(start, p, c);
    }

    /** enqueueStep. */
    method EnqueueStep(ghost p: Pid, ghost c: Choice, target: Key, replace: bool)
      requires p in procs && procs[p] == DispatchLook(target, replace)
      modifies this`queue, this`procs, this`tally
      ensures Path(old(Model()), p, c, Model())
      ensures p in procs && procs[p] == Return(false)
      ensures Enqueues(old(Model()), Model(), target, replace)
    {
      ghost var start := Model();
      var existing := target in queue;
      Move(start, p, c);
      ghost var mid := Model();
      if existing {
        EnqueueOver(p, c, target, replace);
      } else {
        Add(p, c, target);
      }
      PathThen(start, p, c, mid, Model());
    }

    /** enqueueStep when the id exists already. */
    method EnqueueOver(ghost p: Pid, ghost c: Choice, target: Key, replace: bool)
      requires p in procs && procs[p] == DispatchState(target, replace) && target in queue
      modifies this`queue, this`procs, this`tally
      ensures Path(old(Model()), p, c, Model())
      ensures p in procs && procs[p] == Return(false)
      ensures Enqueues(old(Model()), Model(), target, replace)
    {
      ghost var start := Model();
      var may := MayReplace(p, c, target, replace);
      if may {
        ghost var mid := Model();
        Replace(p, c, target);
        PathThen(start, p, c, mid, Model());
      }
    }

    /** completePipeline up to the claim. */
    method ClaimCompletion(ghost p: Pid, ghost c: Choice, g: nat) returns (claimed: bool)
      requires p in procs && procs[p] == CompleteRead(g)
      modifies this`status, this`procs, this`tally
      ensures Path(old(Model()), p, c, Model())
      ensures p in procs && procs[p] == Return(false)
      ensures claimed <==> old(gen == g && (status.Queued? || status.Processing?))
      ensures Finishes(old(Model()), Model(), g)
    {
      ghost var start := Model();
      var final := FinalOf(jobs, g);
      Move(start, p, c);
      ghost var mid := Model();
      claimed := gen == g && status.Active();
      if claimed {
        status := final;
      }
      Move(mid, p, c);
      PathThen(start, p, c, mid, Model());
    }

    /** The evaluation query of completePipeline. */
    method CurrentEvaluation() returns (e: Option<nat>)
      ensures IsCurrentOf(evals, e)
    {
      var left := evals.Keys;
      while left != {}
        invariant left <= evals.Keys
        invariant forall g :: g in evals && g !in left ==> !evals[g]
      {
        var g :| g in left;
        if evals[g] {
          return Some(g);
        }
        left := left - {g};
      }
      return None;
    }

    /** completePipeline: whoever claims the completion patches the report and emits the events, nobody else. */
    method CompletePipeline(ghost p: Pid, ghost c: Choice, g: nat) returns (claimed: bool, events: seq<Event>)
      requires p in procs && procs[p] == CompleteRead(g)
      modifies this`status, this`report, this`procs, this`tally
      ensures Path(old(Model()), p, c, Model())
      ensures p in procs && procs[p] == Return(false)
      ensures claimed <==> old(gen == g && (status.Queued? || status.Processing?))
      ensures Finishes(old(Model()), Model(), g)
      ensures if claimed && old(report).Some? then report.Some? && Reports(report.value, jobs, g)
              else report == old(report)
      ensures if claimed then Announces(events, jobs, g, evals) else events == []
    {
      claimed := ClaimCompletion(p, c, g);
      events := [];
      var rows := jobs;
      if !claimed {
        return;
      }
      if report.Some? {
        report := Some(Report(status, seq(STEPS, s requires 0 <= s < STEPS =>
          if Key(s, g) in rows then Some(rows[Key(s, g)]) else None)));
      }
      if status.Failed? {
        events := [SessionFailed];
      } else {
        var e := CurrentEvaluation();
        events := [SessionAnalyzed(e)];
        if RowIs(jobs, Key(EXTRACT, g), JobCompleted) {
          events := events + [SessionExtracted];
        }
      }
    }

    /** The search of advance and sweep for the first open step, a loop over the steps from `from` on. */
    method FindOpen(g: nat, from: nat) returns (next: nat)
      requires from <= STEPS
      ensures next == FirstOpen(jobs, g, from)
    {
      next := from;
      while next < STEPS && Done(jobs, Key(next, g))
        invariant from <= next <= STEPS
        invariant FirstOpen(jobs, g, from) == FirstOpen(jobs, g, next)
      {
        next := next + 1;
      }
    }

    /** What follows a read of the job rows: dispatch the first open step from `from` on, or complete. */
    method GoOn(ghost p: Pid, ghost c: Choice, g: nat, from: nat)
      requires from <= STEPS && p in procs && Fits(p, procs[p])
      requires procs[p] == SweepJobs(g) || procs[p] == Advance
      requires if procs[p].SweepJobs? then from == 0 else g == p.key.gen && from == p.key.step + 1
      modifies this
      ensures Path(old(Model()), p, c, Model())
      ensures p in procs && procs[p] == Return(false)
      ensures GoesOn(old(Model()), Model(), g, from)
    {
      ghost var start := Model();
      var next := FindOpen(g, from);
      Move(start, p, c);
      ghost var mid := Model();
      if next < STEPS {
        EnqueueStep(p, c, Key(next, g), false);
        OpenGoesOn(start, Model(), g, from, next);
      } else {
        var claimed, events := CompletePipeline(p, c, g);
        ClosedGoesOn(start, Model(), g, from);
      }
      PathThen(start, p, c, mid, Model());
    }

    /** The scoring transaction: upsert the generation's row, then clear the others if it is the latest. */
    method ScoreTransactionInPlace(g: nat)
      modifies this`evals
      ensures evals == ScoreTransaction(old(evals), gen, g)
      ensures Scored(old(evals), evals, gen, g)
    {
      var isLatest := gen == g;
      evals := evals[g := isLatest];
      if isLatest {
        var others := evals.Keys - {g};
        while others != {}
          invariant others <= evals.Keys == old(evals).Keys + {g} && g !in others
          invariant evals[g]
          invariant forall e :: e in evals && e != g && e !in others ==> !evals[e]
          invariant forall e :: e in others ==> e in old(evals) && evals[e] == old(evals)[e]
        {
          var e :| e in others;
          evals := evals[e := false];
          others := others - {e};
        }
      }
    }

    /** runStep: mark the row, and the session if it was seen queued. */
    method MarkAndStart(p: Pid, c: Choice, sawQueued: bool)
      requires p.WorkerOf? && p.key.step < STEPS && p in procs && procs[p] == WorkUpsert(sawQueued)
      modifies this
      ensures Path(old(Model()), p, c, Model())
      ensures p in procs && procs[p] == WorkBody
      ensures jobs == old(jobs)[p.key := JobProcessing] && queue == old(queue) && gen == old(gen)
      ensures evals == old(evals) && deleted == old(deleted)
      ensures status == if sawQueued && gen == p.key.gen && old(status).Queued? then Processing else old(status)
    {
      ghost var start := Model();
      jobs := jobs[p.key := JobProcessing];
      Move(start, p, c);
      if sawQueued {
        ghost var mid := Model();
        MarkSession(p, c);
        PathThen(start, p, c, mid, Model());
      }
    }

    /** runStep: a session of this generation that is queued is processing now. */
    method MarkSession(p: Pid, ghost c: Choice)
      requires p.WorkerOf? && p.key.step < STEPS && p in procs && procs[p] == WorkMark
      modifies this`status, this`procs, this`tally
      ensures Path(old(Model()), p, c, Model())
      ensures p in procs && procs[p] == WorkBody
      ensures status == if gen == p.key.gen && old(status).Queued? then Processing else old(status)
    {
      ghost var start := Model();
      if gen == p.key.gen && status.Queued? {
        status := Processing;
      }
      Move(start, p, c);
    }

    /** The step body: of all bodies only scoring writes rows of this model. */
    method RunBody(p: Pid, c: Choice)
      requires p.WorkerOf? && p.key.step < STEPS && p in procs && procs[p] == WorkRun
      modifies this
      ensures Path(old(Model()), p, c, Model())
      ensures p in procs && procs[p] == WorkOutcome(c.outcome)
      ensures Model().db == old(Model().db) && status == old(status)
      ensures if p.key.step == 1 && c.scores then Scored(old(evals), evals, gen, p.key.gen) else evals == old(evals)
    {
      ghost var start := Model();
      var scores := p.key.step == SCORE && c.scores;
      if scores {
        ScoreTransactionInPlace(p.key.gen);
      }
      Move(start, p, c);
      if scores {
        ghost var mid := Model();
        Move(mid, p, c);
        PathThen(start, p, c, mid, Model());
      }
    }

    /** runStep: start the body and run it. */
    method StartAndRun(p: Pid, c: Choice)
      requires p.WorkerOf? && p.key.step < STEPS && p in procs && procs[p] == WorkBody
      modifies this
      ensures Path(old(Model()), p, c, Model())
      ensures p in procs && procs[p] == WorkOutcome(c.outcome)
      ensures Model().db == old(Model().db) && status == old(status)
      ensures if p.key.step == 1 && c.scores then Scored(old(evals), evals, gen, p.key.gen) else evals == old(evals)
    {
      ghost var start := Model();
      Move(start, p, c);
      ghost var begun := Model();
      RunBody(p, c);
      PathThen(start, p, c, begun, Model());
    }

    /** runStep: start the body, run it and record its outcome. */
    method RunAndRecord(p: Pid, c: Choice) returns (throws: bool)
      requires p.WorkerOf? && p.key.step < STEPS && p in procs && procs[p] == WorkBody
      modifies this
      ensures Path(old(Model()), p, c, Model())
      ensures p in procs && procs[p] == if throws then Return(true) else Advance
      ensures Attempted(old(Model()), Model(), p, c, false, throws)
    {
      ghost var start := Model();
      StartAndRun(p, c);
      ghost var ran := Model();
      throws := TriesAgain(c.outcome, p.made);
      jobs := jobs[p.key := RowAfter(c.outcome, p.made)];
      Move(ran, p, c);
      PathThen(start, p, c, ran, Model());
    }

    /** runStep: one attempt at a step whose row is open. */
    method Attempt(p: Pid, c: Choice, sawQueued: bool) returns (throws: bool)
      requires p.WorkerOf? && p.key.step < STEPS && p in procs && procs[p] == WorkUpsert(sawQueued)
      modifies this
      ensures Path(old(Model()), p, c, Model())
      ensures p in procs && procs[p] == if throws then Return(true) else Advance
      ensures Attempted(old(Model()), Model(), p, c, sawQueued, throws)
    {
      ghost var start := Model();
      MarkAndStart(p, c, sawQueued);
      ghost var mid := Model();
      throws := RunAndRecord(p, c);
      PathThen(start, p, c, mid, Model());
      assert start.db.jobs[p.key := JobProcessing][p.key := jobs[p.key]] == start.db.jobs[p.key := jobs[p.key]];
    }

    /** runStep: true if it throws, to be tried again by the queue. */
    method RunStep(p: Pid, c: Choice) returns (throws: bool)
      requires p.WorkerOf? && p.key.step < STEPS && p in procs && procs[p] == WorkRead
      modifies this
      ensures Path(old(Model()), p, c, Model())
      ensures p in procs && procs[p] == Return(throws)
      ensures Runs(old(Model()), Model(), p, c, throws)
    {
      ghost var start := Model();
      var current := !deleted && gen == p.key.gen;
      var sawQueued := status.Queued?;
      Move(start, p, c);
      ghost var mid := Model();
      if current {
        throws := RunCurrent(p, c, sawQueued);
      } else {
        SkipStep(p, c);
        throws := false;
      }
      PathThen(start, p, c, mid, Model());
    }

    /** runStep for a deleted session or a superseded generation: an open row is skipped. */
    method SkipStep(p: Pid, c: Choice)
      requires p.WorkerOf? && p.key.step < STEPS && p in procs && procs[p] == WorkSkip
      modifies this`jobs, this`procs, this`tally
      ensures Path(old(Model()), p, c, Model())
      ensures p in procs && procs[p] == Return(false)
      ensures jobs == if p.key in old(jobs) && (old(jobs)[p.key].JobQueued? || old(jobs)[p.key].JobProcessing?)
                      then old(jobs)[p.key := JobSkipped] else old(jobs)
    {
      ghost var start := Model();
      if p.key in jobs && !jobs[p.key].Terminal() {
        jobs := jobs[p.key := JobSkipped];
      }
      Move(start, p, c);
    }

    /** runStep from the read of the job row on. */
    method RunCurrent(p: Pid, c: Choice, sawQueued: bool) returns (throws: bool)
      requires p.WorkerOf? && p.key.step < STEPS && p in procs && procs[p] == WorkJob(sawQueued)
      modifies this
      ensures Path(old(Model()), p, c, Model())
      ensures p in procs && procs[p] == Return(throws)
      ensures RunsCurrent(old(Model()), Model(), p, c, sawQueued, throws)
    {
      ghost var start := Model();
      var done := Done(jobs, p.key);
      Move(start, p, c);
      ghost var mid := Model();
      throws := false;
      if done {
        GoOn(p, c, p.key.gen, p.key.step + 1);
      } else {
        throws := RunOpen(p, c, sawQueued);
      }
      AfterRead(start, mid, Model(), p, c, sawQueued, throws);
      PathThen(start, p, c, mid, Model());
    }

    /** runStep for an open row: one attempt, and on to the next step unless it will be tried again. */
    method RunOpen(p: Pid, c: Choice, sawQueued: bool) returns (throws: bool)
      requires p.WorkerOf? && p.key.step < STEPS && p in procs && procs[p] == WorkUpsert(sawQueued)
      modifies this
      ensures Path(old(Model()), p, c, Model())
      ensures p in procs && procs[p] == Return(throws)
      ensures RunsOpen(old(Model()), Model(), p, c, sawQueued, throws)
    {
      ghost var start := Model();
      throws := Attempt(p, c, sawQueued);
      if !throws {
        ghost var recorded := Model();
        GoOn(p, c, p.key.gen, p.key.step + 1);
        PathThen(start, p, c, recorded, Model());
      }
    }

    /** startPipeline; `reprocess` tells a restart from the first start. */
    method StartPipeline(p: Pid, c: Choice, reprocess: bool)
      requires p in procs && procs[p] == StartRead(reprocess)
      modifies this
      ensures Path(old(Model()), p, c, Model())
      ensures p in procs && procs[p] == Return(false)
      ensures Starts(old(Model()), Model(), c, reprocess)
    {
      ghost var start := Model();
      var refused := deleted || !c.ended || (!reprocess && gen > 0) || (c.skip && reprocess);
      Move(start, p, c);
      if refused {
        return;
      }
      ghost var mid := Model();
      if c.skip {
        if gen == 0 {
          status := Skipped;
        }
        Move(mid, p, c);
      } else {
        OpenGeneration(p, c, reprocess);
      }
      PathThen(start, p, c, mid, Model());
    }

    /** startPipeline from the guarded write on. */
    method OpenGeneration(p: Pid, ghost c: Choice, reprocess: bool)
      requires p in procs && procs[p] == StartWrite(reprocess)
      requires !deleted && c.ended && !c.skip
      modifies this
      ensures Path(old(Model()), p, c, Model())
      ensures p in procs && procs[p] == Return(false)
      ensures Starts(old(Model()), Model(), c, reprocess)
    {
      ghost var start := Model();
      var started := reprocess || gen == 0;
      if started {
        gen := gen + 1;
        status := Queued;
      }
      Move(start, p, c);
      if started {
        ghost var mid := Model();
        CreateJobs(p, c, gen);
        PathThen(start, p, c, mid, Model());
      }
    }

    /** createMany with skipDuplicates, a loop over the steps. */
    method CreateMissing(g: nat) returns (rows: Rows)
      ensures Created(jobs, rows, g) && rows == CreateRows(jobs, g)
    {
      rows := jobs;
      for s := 0 to STEPS
        invariant forall k :: k in rows <==> k in jobs || (k.gen == g && k.step < s)
        invariant forall k :: k in rows ==> rows[k] == if k in jobs then jobs[k] else JobQueued
      {
        if Key(s, g) !in rows {
          rows := rows[Key(s, g) := JobQueued];
        }
      }
    }

    /** The rows of a new generation, then the first dispatch. */
    method CreateJobs(p: Pid, ghost c: Choice, g: nat)
      requires p in procs && procs[p] == StartCreate(g)
      modifies this`jobs, this`queue, this`procs, this`tally
      ensures Path(old(Model()), p, c, Model())
      ensures p in procs && procs[p] == Return(false)
      ensures Created(old(jobs), jobs, g) && EntryFor(old(queue), queue, jobs, Key(0, g), false)
    {
      ghost var start := Model();
      jobs := CreateMissing(g);
      Move(start, p, c);
      ghost var mid := Model();
      EnqueueStep(p, c, Key(0, g), false);
      PathThen(start, p, c, mid, Model());
    }

    /** One session's share of sweep. */
    method Sweep(p: Pid, c: Choice)
      requires p in procs && procs[p] == SweepRead
      modifies this
      ensures Path(old(Model()), p, c, Model())
      ensures p in procs && procs[p] == Return(false)
      ensures Sweeps(old(Model()), Model(), c)
    {
      ghost var start := Model();
      var stuck := c.stale && !deleted && status.Active() && gen > 0;
      var missed := c.stale && !deleted && status.NotStarted? && gen == 0;
      var g := gen;
      Move(start, p, c);
      ghost var mid := Model();
      if stuck {
        GoOn(p, c, g, 0);
        PathThen(start, p, c, mid, Model());
      } else if missed {
        StartPipeline(p, c, false);
        PathThen(start, p, c, mid, Model());
      }
    }

    /** The transaction of retryStep, then its dispatch, whatever has happened since the reads. */
    method WriteRetry(p: Pid, c: Choice, a: Asked)
      requires p.Other? && p !in procs && a.step < STEPS
      modifies this
      ensures Path(WrittenLate(old(Model()), p.n, a), p, c, Model())
      ensures Retries(old(Model()), Model(), a)
    {
      ghost var start := Model();
      ResetFrom(a);
      tally := tally.(retries := Bump(tally.retries, gen), disturbed := tally.disturbed + {a.gen});
      procs := procs[p := DispatchLook(Key(a.step, a.gen), true)];
      assert Model() == WrittenLate(start, p.n, a);
      EnqueueStep(p, c, Key(a.step, a.gen), true);
    }

    /** The transaction of retryStep on the rows and the session. */
    method ResetFrom(a: Asked)
      modifies this`jobs, this`status
      ensures status == Processing && jobs == ResetRows(old(jobs), a.gen, a.step) && jobs.Keys == old(jobs).Keys
      ensures forall k :: k in jobs ==>
                            jobs[k] == if k.gen == a.gen && a.step <= k.step < 5 then JobQueued else old(jobs)[k]
    {
      jobs := ResetRows(jobs, a.gen, a.step);
      status := Processing;
    }

    /** retryStep with nothing between its reads and its transaction. */
    method RetryStep(p: Pid, c: Choice, step: nat) returns (ok: bool)
      requires p.Other? && p !in procs && step < STEPS
      modifies this
      ensures ok <==> Enabled(old(Model()), Retry(p.n, step))
      ensures !ok ==> Model() == old(Model())
      ensures ok ==> Path(Apply(old(Model()), Retry(p.n, step)), p, c, Model())
      ensures ok <==> !old(deleted) && old(gen) > 0 && RowIs(old(jobs), Key(step, old(gen)), JobFailed)
      ensures ok ==> Retries(old(Model()), Model(), Asked(step, old(gen), true))
    {
      ok := !deleted && gen > 0 && RowIs(jobs, Key(step, gen), JobFailed);
      if !ok {
        return;
      }
      PartsAreRetry(Model(), p.n, step);
      WriteRetry(p, c, Asked(step, gen, true));
    }
  }

  /** Process p has swept the session of state s, which has state t then. */
  ghost predicate Swept(s: State, t: State, p: Pid, c: Choice) {
    Path(s, p, c, t) && p in t.procs && t.procs[p] == Return(false) && Sweeps(s, t, c)
  }

  /** sweep over the sessions its queries answer, one after another; each follows the machine, whatever the others
      are. */
  method SweepAll(sessions: seq<Session>, p: Pid, choices: seq<Choice>)
    requires |choices| == |sessions|
    requires forall i, j :: 0 <= i < j < |sessions| ==> sessions[i] != sessions[j]
    requires forall i :: 0 <= i < |sessions| ==> p in sessions[i].procs && sessions[i].procs[p] == SweepRead
    modifies sessions
    ensures forall i :: 0 <= i < |sessions| ==> Swept(old(sessions[i].Model()), sessions[i].Model(), p, choices[i])
  {
    for i := 0 to |sessions|
      invariant forall k :: i <= k < |sessions| ==> sessions[k].Model() == old(sessions[k].Model())
      invariant forall k :: 0 <= k < i ==> Swept(old(sessions[k].Model()), sessions[k].Model(), p, choices[k])
    {
      assert sessions[i].Model().procs == old(sessions[i].Model()).procs;
      sessions[i].Sweep(p, choices[i]);
    }
  }
}
