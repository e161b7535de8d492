/** The main results about the analysis pipeline, stated for every run from the initial state. */
module PipelineTheorems {
  import opened Pipeline
  import opened PipelineSafety
  import opened PipelineAlways

  /** Of generation g, exactly the first n steps are terminal. */
  ghost predicate PrefixDone(jobs: Rows, g: nat, n: nat) {
    n <= STEPS && forall t :: 0 <= t < STEPS ==> (Done(jobs, Key(t, g)) <==> t < n)
  }

  /** The terminal jobs of generation g form a prefix of the step order. */
  ghost predicate IsPrefix(jobs: Rows, g: nat) { exists n: nat :: PrefixDone(jobs, g, n) }

  lemma PrefixOf(st: State, g: nat)
    requires Inv(st)
    ensures IsPrefix(st.db.jobs, g)
  {
    var jobs := st.db.jobs;
    var n := FirstOpen(jobs, g, 0);
    forall t | 0 <= t < STEPS ensures Done(jobs, Key(t, g)) <==> t < n {
      if n <= t { assert n < STEPS && (Done(jobs, Key(t, g)) ==> Earlier(jobs, Key(t, g))); }
    }
    assert PrefixDone(jobs, g, n);
  }

  /** Terminal jobs form a prefix of the step order, in every generation of every reachable state. */
  lemma TerminalJobsFormAPrefix(st: State, g: nat)
    requires Reachable(st)
    ensures IsPrefix(st.db.jobs, g)
  {
    ReachableInv(st);
    PrefixOf(st, g);
  }

  /** If the label starts a step body, all earlier steps of its generation are terminal and its own is not. */
  ghost predicate InOrder(st: State, l: Label)
    requires Enabled(st, l)
  {
    forall k :: Count(Apply(st, l).tally.bodies, k) > Count(st.tally.bodies, k) ==>
      k.step < STEPS && !Done(st.db.jobs, k) && forall t :: 0 <= t < k.step ==> Done(st.db.jobs, Key(t, k.gen))
  }

  lemma BodyInOrder(st: State, l: Label)
    requires Inv(st) && Enabled(st, l)
    ensures InOrder(st, l)
  {
    forall k | Count(Apply(st, l).tally.bodies, k) > Count(st.tally.bodies, k)
      ensures k.step < STEPS && !Done(st.db.jobs, k) && Earlier(st.db.jobs, k)
    {
      assert l.Step? && l.pid.WorkerOf? && l.pid.key == k;
      assert ProcOk(st.db, l.pid, st.procs[l.pid]);
    }
  }

  /** No step body ever starts before all earlier steps are terminal, nor when its own is. */
  lemma BodiesStartInOrder(st: State, l: Label)
    requires Reachable(st) && Enabled(st, l)
    ensures InOrder(st, l)
  {
    ReachableInv(st);
    BodyInOrder(st, l);
  }

  /** A final status stands only over five terminal steps, and is the one their rows call for: COMPLETED when no
      step failed; FAILED when scoring (step 1) or extraction (step 2) failed and neither completed; PARTIAL
      otherwise. */
  lemma FinalMeansAllTerminal(st: State)
    requires Reachable(st) && st.status.Final()
    ensures PrefixDone(st.db.jobs, st.db.gen, 5)
    ensures var jobs, g := st.db.jobs, st.db.gen;
            var failed := exists s | 0 <= s < 5 :: RowIs(jobs, Key(s, g), JobFailed);
            var coreLost := && (RowIs(jobs, Key(1, g), JobFailed) || RowIs(jobs, Key(2, g), JobFailed))
                            && !RowIs(jobs, Key(1, g), JobCompleted) && !RowIs(jobs, Key(2, g), JobCompleted);
            && (st.status.Completed? <==> !failed)
            && (st.status.Failed? <==> coreLost)
            && (st.status.Partial? <==> failed && !coreLost)
  {
    ReachableInv(st);
  }

  ghost function Total(m: map<nat, nat>, n: nat): nat {
    if n == 0 then 0 else Total(m, n - 1) + Count(m, n)
  }

  lemma {:induction false} TotalClaims(gen: nat, status: AnalysisStatus, tally: Tally, n: nat)
    requires ClaimsOk(gen, status, tally) && n <= gen
    ensures Total(tally.claims, n) + (if n == gen && gen > 0 && status.Active() then 1 else 0)
            <= n + Total(tally.retries, n)
  {
    if n > 0 {
      TotalClaims(gen, status, tally, n - 1);
      assert Count(tally.claims, n) + Open(gen, status, n) <= 1 + Count(tally.retries, n);
    }
  }

  /** Whatever retries are taken, completions claimed, plus one while the session is queued or processing,
      never exceed the generation number plus the accepted retries; generation by generation the bound is
      one plus its retries, and generations that do not exist have claimed nothing. */
  lemma CompletionAccounting(st: State, g: nat)
    requires Attainable(st)
    ensures Total(st.tally.claims, st.db.gen) + (if st.status.Active() then 1 else 0)
            <= st.db.gen + Total(st.tally.retries, st.db.gen)
    ensures Count(st.tally.claims, g) <= 1 + Count(st.tally.retries, g)
    ensures g == 0 || g > st.db.gen ==> Count(st.tally.claims, g) == 0
  {
    AttainableAlways(st);
    TotalClaims(st.db.gen, st.status, st.tally, st.db.gen);
    assert Count(st.tally.claims, g) + Open(st.db.gen, st.status, g)
           <= (if 1 <= g <= st.db.gen then 1 else 0) + Count(st.tally.retries, g);
  }

  /** Process p at pc works for generation g. */
  ghost predicate Serves(p: Pid, pc: Pc, g: nat) {
    || (p.WorkerOf? && p.key.gen == g)
    || (p.Other? && (pc.StartCreate? || pc.SweepJobs? || Completing(pc)) && pc.g == g)
    || (p.Other? && Dispatching(pc) && pc.target.gen == g)
  }

  /** Whatever a process of a superseded generation does, the session keeps its generation and
      analysis status, nothing is claimed, and of the evaluations only its own generation's row can
      change, and never to current. */
  lemma SupersededIsInert(st: State, p: Pid, c: Choice, g: nat)
    requires Attainable(st) && Enabled(st, Step(p, c)) && Serves(p, st.procs[p], g) && g < st.db.gen
    ensures var st' := Apply(st, Step(p, c));
            && st'.db.gen == st.db.gen && st'.status == st.status && st'.tally.claims == st.tally.claims
            && (forall e :: e != g ==> (e in st'.evals <==> e in st.evals))
            && (forall e :: e != g && e in st.evals ==> st'.evals[e] == st.evals[e])
            && (g in st'.evals && st'.evals[g] ==> g in st.evals && st.evals[g])
  {
    AttainableAlways(st);
    assert Grounded(st.db.gen, p, st.procs[p]);
  }

  /** At most one evaluation of the session is current, whatever the interleaving of scoring
      transactions and restarts, and evaluations belong to generations that exist. */
  lemma OneCurrentEvaluation(st: State)
    requires Attainable(st)
    ensures forall e, f :: e in st.evals && f in st.evals && st.evals[e] && st.evals[f] ==> e == f
    ensures forall e :: e in st.evals ==> 1 <= e <= st.db.gen
  {
    AttainableAlways(st);
  }

  /** The scoring transaction of the latest generation makes its own evaluation the current one. */
  lemma LatestScoreBecomesCurrent(st: State, p: Pid, c: Choice)
    requires Enabled(st, Step(p, c)) && st.procs[p].WorkRun?
             && p.key.step == SCORE && c.scores && p.key.gen == st.db.gen
    ensures var evals := Apply(st, Step(p, c)).evals;
            st.db.gen in evals && forall e :: e in evals ==> (evals[e] <==> e == st.db.gen)
  {
  }
}
