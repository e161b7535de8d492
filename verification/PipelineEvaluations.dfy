/** Whether a session that has a current evaluation keeps one. */
module PipelineEvaluations {
  import opened Pipeline
  import opened PipelineSafety
  import opened PipelineAlways
  import opened PipelineRetry
  import opened PipelineOvertaking

  predicate Current(evals: map<nat, bool>, e: nat) { e in evals && evals[e] }

  ghost predicate HasCurrent(evals: map<nat, bool>) { exists e :: Current(evals, e) }

  /** A worker of a superseded generation scores again, and the current evaluation is its own. */
  ghost predicate Rescores(st: State, l: Label)
    requires Enabled(st, l)
  {
    && l.Step? && l.pid.WorkerOf? && st.procs[l.pid].WorkRun? && l.pid.key.step == SCORE && l.choice.scores
    && l.pid.key.gen != st.db.gen && Current(st.evals, l.pid.key.gen)
  }

  /** Whatever happens next, a session with a current evaluation keeps one, except exactly in this case. */
  lemma CurrentSurvivesExactly(st: State, l: Label)
    requires Attainable(st) && Enabled(st, l) && HasCurrent(st.evals)
    ensures HasCurrent(Apply(st, l).evals) <==> !Rescores(st, l)
  {
    AttainableAlways(st);
    var e :| Current(st.evals, e);
    var evals := Apply(st, l).evals;
    if l.Step? && l.pid.WorkerOf? && st.procs[l.pid].WorkRun? && l.pid.key.step == SCORE && l.choice.scores {
      ScoringKeeps(st.evals, st.db.gen, l.pid.key.gen, e);
    } else {
      assert evals == st.evals;
    }
  }

  lemma ScoringKeeps(evals: map<nat, bool>, latest: nat, g: nat, e: nat)
    requires EvalsOk(latest, evals) && Current(evals, e)
    ensures HasCurrent(ScoreTransaction(evals, latest, g)) <==> latest == g || e != g
  {
    var evals' := ScoreTransaction(evals, latest, g);
    if latest == g {
      assert Current(evals', g);
    } else if e != g {
      assert Current(evals', e);
    }
  }

  // ---- who can still score again ----

  /** A worker that holds the scoring step of generation e has passed the check of the generation and not scored. */
  ghost predicate AboutToScore(st: State, p: Pid, e: nat) {
    && p in st.procs && p.WorkerOf? && p.key == Key(SCORE, e)
    && var pc := st.procs[p];
       || (pc.WorkJob? && !Done(st.db.jobs, p.key))
       || pc.WorkUpsert? || pc.WorkMark? || pc.WorkBody? || pc.WorkRun?
  }

  ghost predicate Rescorer(st: State, e: nat) { exists p :: AboutToScore(st, p, e) }

  lemma StepKeepsOut(st: State, p: Pid, c: Choice, e: nat, q: Pid)
    requires Inv(st) && e < st.db.gen && Enabled(st, Step(p, c)) && !st.procs[p].Return?
    requires !AboutToScore(st, p, e) && !AboutToScore(st, q, e)
    ensures !AboutToScore(Apply(st, Step(p, c)), q, e)
  {
    assert ProcOk(st.db, p, st.procs[p]);
    StepGrows(st.db, p, st.procs[p]);
  }

  /** Once nobody is about to score for a superseded generation, nobody ever is. */
  lemma LabelKeepsOut(st: State, l: Label, e: nat)
    requires Inv(st) && e < st.db.gen && Enabled(st, l) && Safe(st, l) && !Rescorer(st, e)
    ensures !Rescorer(Apply(st, l), e) && e < Apply(st, l).db.gen
  {
    var st' := Apply(st, l);
    forall q ensures !AboutToScore(st', q, e) {
      assert !AboutToScore(st, q, e);
      if l.Step? && !st.procs[l.pid].Return? {
        assert !AboutToScore(st, l.pid, e);
        StepKeepsOut(st, l.pid, l.choice, e, q);
      }
    }
    if l.Step? && !st.procs[l.pid].Return? {
      assert ProcOk(st.db, l.pid, st.procs[l.pid]);
      StepGrows(st.db, l.pid, st.procs[l.pid]);
    }
  }

  lemma {:induction false} RunKeepsOut(st: State, ls: seq<Label>, e: nat)
    requires Inv(st) && e < st.db.gen && Run(st, ls) && !Rescorer(st, e)
    ensures !Rescorer(After(st, ls), e) && e < After(st, ls).db.gen
    decreases |ls|
  {
    if ls != [] {
      LabelKeepsOut(st, ls[0], e);
      ApplyKeeps(st, ls[0]);
      RunKeepsOut(Apply(st, ls[0]), ls[1..], e);
    }
  }

  // ---- what such a worker does ----

  lemma UpsertToRun(st: State, w: Pid, sawQueued: bool) returns (db: Db)
    requires w.WorkerOf? && w.key.step < STEPS && w.key.gen != st.db.gen
    ensures Leads(Moved(st, w, WorkUpsert(sawQueued), st.db), Moved(Begun(st, w.key), w, WorkRun, db))
    ensures db.gen == st.db.gen
  {
    db := SetRow(st.db, w.key, JobProcessing);
    var begun := st.(db := db);
    var from, body := Moved(st, w, WorkUpsert(sawQueued), st.db), Moved(begun, w, WorkBody, db);
    if sawQueued {
      StepLeads(st, w, WorkUpsert(true), WorkMark, db);
      StepLeads(begun, w, WorkMark, WorkBody, db);
      LeadsThen(from, Moved(begun, w, WorkMark, db), body);
    } else {
      StepLeads(st, w, WorkUpsert(false), WorkBody, db);
    }
    BodyLeads(begun, w);
    LeadsThen(from, body, Moved(Begun(st, w.key), w, WorkRun, db));
  }

  /** It can reach its scoring transaction. */
  lemma ReachesScoring(st: State, w: Pid, e: nat) returns (st': State)
    requires AboutToScore(st, w, e) && e < st.db.gen
    ensures Leads(st, st') && w in st'.procs && st'.procs[w].WorkRun?
            && st'.evals == st.evals && st'.db.gen == st.db.gen
  {
    var pc := st.procs[w];
    assert Moved(st, w, pc, st.db) == st;
    if pc.WorkRun? {
      LeadsNowhere(st);
      st' := st;
    } else if pc.WorkBody? {
      BodyLeads(st, w);
      st' := Moved(Begun(st, w.key), w, WorkRun, st.db);
    } else if pc.WorkMark? {
      StepLeads(st, w, WorkMark, WorkBody, st.db);
      BodyLeads(st, w);
      st' := Moved(Begun(st, w.key), w, WorkRun, st.db);
      LeadsThen(st, Moved(st, w, WorkBody, st.db), st');
    } else {
      st' := FromJob(st, w, pc);
    }
  }

  lemma FromJob(st: State, w: Pid, pc: Pc) returns (st': State)
    requires w.WorkerOf? && w.key.step < STEPS && w.key.gen != st.db.gen && w in st.procs && st.procs[w] == pc
    requires pc.WorkUpsert? || (pc.WorkJob? && !Done(st.db.jobs, w.key))
    ensures Leads(st, st') && w in st'.procs && st'.procs[w].WorkRun?
            && st'.evals == st.evals && st'.db.gen == st.db.gen
  {
    assert Moved(st, w, pc, st.db) == st;
    var db := UpsertToRun(st, w, pc.sawQueued);
    st' := Moved(Begun(st, w.key), w, WorkRun, db);
    if pc.WorkJob? {
      StepLeads(st, w, pc, WorkUpsert(pc.sawQueued), st.db);
      LeadsThen(st, Moved(st, w, WorkUpsert(pc.sawQueued), st.db), st');
    }
  }

  /** A choice under which the body of the scoring step writes its evaluation and then fails for now. */
  const SCORING := Choice(true, false, true, true, Retryable)

  // ---- main results ----

  /** As long as evaluation e is the current one, no run from here loses it without another becoming current. */
  ghost predicate CurrentKept(st: State, e: nat) {
    forall st', l :: Leads(st, st') && Current(st'.evals, e) && Enabled(st', l) && Safe(st', l) ==>
      HasCurrent(Apply(st', l).evals)
  }

  lemma LeadsReachable(st: State, st': State)
    requires Reachable(st) && Leads(st, st')
    ensures Reachable(st')
  {
    var ls :| Run(INITIAL, ls) && After(INITIAL, ls) == st;
    var more :| Run(st, more) && After(st, more) == st';
    RunAppend(INITIAL, ls, more);
  }

  lemma NobodyLoses(st: State, e: nat)
    requires Reachable(st) && e < st.db.gen && !Rescorer(st, e)
    ensures CurrentKept(st, e)
  {
    forall st', l | Leads(st, st') && Current(st'.evals, e) && Enabled(st', l) && Safe(st', l)
      ensures HasCurrent(Apply(st', l).evals)
    {
      ReachableInv(st);
      var ls :| Run(st, ls) && After(st, ls) == st';
      RunKeepsOut(st, ls, e);
      LeadsReachable(st, st');
      ReachableAttainable(st');
      AttainableAlways(st');
      if Rescores(st', l) { assert AboutToScore(st', l.pid, e); }
      CurrentSurvivesExactly(st', l);
    }
  }

  lemma SomebodyLoses(st: State, w: Pid, e: nat) returns (st': State)
    requires Reachable(st) && e < st.db.gen && Current(st.evals, e) && AboutToScore(st, w, e)
    ensures Leads(st, st') && Current(st'.evals, e) && Enabled(st', Step(w, SCORING))
    ensures !HasCurrent(Apply(st', Step(w, SCORING)).evals)
  {
    st' := ReachesScoring(st, w, e);
    LeadsReachable(st, st');
    ReachableAttainable(st');
    CurrentSurvivesExactly(st', Step(w, SCORING));
  }

  /** The current evaluation of a superseded generation is safe, until another becomes current, exactly when no
      worker of its scoring step is between its check of the generation and its transaction. */
  lemma CurrentKeptExactly(st: State, e: nat)
    requires Reachable(st) && e < st.db.gen && Current(st.evals, e)
    ensures CurrentKept(st, e) <==> !Rescorer(st, e)
  {
    if w :| AboutToScore(st, w, e) {
      var st' := SomebodyLoses(st, w, e);
      assert Safe(st', Step(w, SCORING));
    } else {
      NobodyLoses(st, e);
    }
  }

  // ---- such a worker is reachable ----

  /** A session ready to score: nobody at work, and the scoring step's entry waits. */
  ghost predicate ReadyToScore(st: State, made: nat) {
    && st.procs == map[] && !st.db.deleted && st.status.Processing? && st.db.gen > 0
    && Key(SCORE, st.db.gen) in st.db.queue && st.db.queue[Key(SCORE, st.db.gen)] == Waiting(made)
    && !Done(st.db.jobs, Key(SCORE, st.db.gen))
  }

  /** Its worker reaches the start of the body. */
  lemma ScoringBody(st: State, made: nat) returns (w: Pid, st': State)
    requires ReadyToScore(st, made)
    ensures w == WorkerOf(Key(SCORE, st.db.gen), made) && Leads(st, st') && st'.procs == map[w := WorkBody]
    ensures st'.evals == st.evals && st'.status.Processing? && !st'.db.deleted && st'.db.gen == st.db.gen
    ensures w.key in st'.db.queue
  {
    var k := Key(SCORE, st.db.gen);
    w := WorkerOf(k, made);
    var s1 := Apply(st, Deliver(k));
    LeadsOne(st, Deliver(k), s1);
    st' := s1.(procs := s1.procs[w := WorkBody], db := SetRow(s1.db, k, JobProcessing));
    WorkerAtBody(s1, w, SCORING);
    assert Leads(s1, st');
    LeadsThen(st, s1, st');
  }

  lemma ScoresOnce(st: State, w: Pid) returns (st': State)
    requires w.WorkerOf? && w.key == Key(SCORE, st.db.gen)
    ensures Leads(Moved(st, w, WorkRun, st.db), st')
    ensures st' == Moved(st, w, WorkOutcome(Retryable), st.db)
                      .(evals := ScoreTransaction(st.evals, st.db.gen, st.db.gen))
  {
    var from := Moved(st, w, WorkRun, st.db);
    var s1 := Apply(from, Step(w, SCORING));
    LeadsOne(from, Step(w, SCORING), s1);
    st' := Apply(s1, Step(w, SCORING));
    LeadsOne(s1, Step(w, SCORING), st');
    LeadsThen(from, s1, st');
    assert st.procs[w := WorkRun][w := WorkScored][w := WorkOutcome(Retryable)]
           == st.procs[w := WorkOutcome(Retryable)];
  }

  /** The outcome is not recorded, and the step is sent back. */
  lemma SentBack(st: State, w: Pid) returns (st': State)
    requires w.WorkerOf? && w.key.step < STEPS && w.made == 0 && w.key in st.db.queue
    ensures Leads(Moved(st, w, WorkOutcome(Retryable), st.db), st')
    ensures st'.procs == st.procs - {w} && st'.evals == st.evals && st'.status == st.status
    ensures st'.db == SetRow(st.db, w.key, JobQueued).(queue := st.db.queue[w.key := Waiting(1)])
  {
    var from := Moved(st, w, WorkOutcome(Retryable), st.db);
    var s1 := Apply(from, Step(w, SCORING));
    LeadsOne(from, Step(w, SCORING), s1);
    st' := Apply(s1, Step(w, SCORING));
    LeadsOne(s1, Step(w, SCORING), st');
    LeadsThen(from, s1, st');
    assert st.procs[w := WorkOutcome(Retryable)][w := Return(true)] - {w} == st.procs - {w};
  }

  /** Scored once and sent back, the session is ready to score again, now with a current evaluation. */
  lemma ScoredAndSentBack(st: State) returns (st': State)
    requires ReadyToScore(st, 0)
    ensures Leads(st, st') && ReadyToScore(st', 1) && st'.db.gen == st.db.gen && Current(st'.evals, st.db.gen)
  {
    var w, s1 := ScoringBody(st, 0);
    BodyLeads(s1, w);
    assert Moved(s1, w, WorkBody, s1.db) == s1;
    var begun := Begun(s1, w.key);
    LeadsThen(st, s1, Moved(begun, w, WorkRun, s1.db));
    var s2 := ScoresOnce(begun, w);
    LeadsThen(st, Moved(begun, w, WorkRun, s1.db), s2);
    var scored := begun.(evals := s2.evals);
    assert s2 == Moved(scored, w, WorkOutcome(Retryable), scored.db);
    st' := SentBack(scored, w);
    LeadsThen(st, s2, st');
  }

  /** A reprocess arrives while the second attempt is at its body. */
  lemma Reprocessed(st: State, n: nat) returns (st': State)
    requires Other(n) !in st.procs && !st.db.deleted && st.db.gen > 0
    ensures Leads(st, st') && st'.db.gen == st.db.gen + 1 && st'.evals == st.evals
    ensures forall p :: p in st.procs ==> p in st'.procs && st'.procs[p] == st.procs[p]
  {
    var s1 := Apply(st, StartArrives(n, true));
    LeadsOne(st, StartArrives(n, true), s1);
    var s2 := Apply(s1, Step(Other(n), FINE));
    LeadsOne(s1, Step(Other(n), FINE), s2);
    LeadsThen(st, s1, s2);
    st' := Apply(s2, Step(Other(n), FINE));
    LeadsOne(s2, Step(Other(n), FINE), st');
    LeadsThen(st, s2, st');
  }

  /** A session can lose its current evaluation: scored, sent back, taken up again and overtaken by a reprocess, the
      old attempt scores a second time and marks its own evaluation, the current one, as not current. */
  lemma CurrentCanBeLost() returns (st: State, lost: State)
    ensures Reachable(st) && st.db.gen == 2 && Current(st.evals, 1) && Rescorer(st, 1)
    ensures Reachable(lost) && !HasCurrent(lost.evals) && 1 in lost.evals
  {
    SettledReachable();
    assert ReadyToScore(SETTLED, 0);
    var s1 := ScoredAndSentBack(SETTLED);
    LeadsReachable(SETTLED, s1);
    var w, s2 := ScoringBody(s1, 1);
    LeadsReachable(s1, s2);
    st := Reprocessed(s2, 0);
    LeadsReachable(s2, st);
    assert AboutToScore(st, w, 1);
    lost := LostBy(st, w, 1);
  }

  lemma LostBy(st: State, w: Pid, e: nat) returns (lost: State)
    requires Reachable(st) && e < st.db.gen && Current(st.evals, e) && AboutToScore(st, w, e)
    ensures Reachable(lost) && !HasCurrent(lost.evals) && e in lost.evals
  {
    var st' := SomebodyLoses(st, w, e);
    LeadsReachable(st, st');
    ReachableStep(st', Step(w, SCORING));
    lost := Apply(st', Step(w, SCORING));
  }
}
