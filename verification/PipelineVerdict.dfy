/** Whether the final status agrees with the rows once everything has come to rest after a retry. A later step that
    overtakes the retried one completes the session before the retried step has ended, and the status it writes
    is never corrected. */
module PipelineVerdict {
  import opened Pipeline
  import opened PipelineSafety
  import opened PipelineAlways
  import opened PipelineBase
  import opened PipelineWork
  import opened PipelineProgress
  import opened PipelineTheorems
  import opened PipelineRetry
  import opened PipelineOvertaking

  /** Every schedule that comes to rest ends with the final status that the rows call for. */
  ghost predicate EndsRight(st: State) {
    forall ls :: InternalRun(st, ls) && Stuck(After(st, ls)) ==>
                   var st' := After(st, ls); st'.status == FinalOf(st'.db.jobs, st'.db.gen)
  }

  predicate EarlierFailed(jobs: Rows, g: nat, step: nat) {
    exists t | 0 <= t < step :: RowIs(jobs, Key(t, g), JobFailed)
  }

  /** The steps before `step` settle the final status, whatever becomes of the others: one of them failed, and
      both core steps are among them or one of these produced. */
  predicate Decided(jobs: Rows, g: nat, step: nat) {
    && step <= STEPS && EarlierFailed(jobs, g, step)
    && (step > EXTRACT || (step > SCORE && RowIs(jobs, Key(SCORE, g), JobCompleted)))
  }

  // ---- nobody starts anything ----

  /** No start and no sweep is about to begin. */
  ghost predicate NoStarts(st: State) {
    forall p :: p in st.procs ==>
      var pc := st.procs[p]; !pc.StartRead? && !pc.StartSkip? && !pc.StartWrite? && !pc.SweepRead?
  }

  lemma NoStartsStep(st: State, l: Label)
    requires NoStarts(st) && Enabled(st, l) && Internal(l)
    ensures NoStarts(Apply(st, l)) && Apply(st, l).db.gen == st.db.gen && Apply(st, l).db.deleted == st.db.deleted
  {
    if l.Step? { assert !st.procs[l.pid].StartWrite?; }
  }

  // ---- a status that is decided ----

  /** The row of k is terminal, and the same in both. */
  predicate Same(jobs: Rows, jobs': Rows, k: Key) { Done(jobs, k) && RowIs(jobs', k, jobs[k]) }

  lemma DecidedFinal(jobs: Rows, jobs': Rows, g: nat, step: nat)
    requires Decided(jobs, g, step)
    requires forall t :: 0 <= t < step ==> Same(jobs, jobs', Key(t, g))
    ensures FinalOf(jobs', g) == FinalOf(jobs, g)
  {
    var t :| 0 <= t < step && RowIs(jobs, Key(t, g), JobFailed);
    assert RowIs(jobs', Key(t, g), JobFailed);
    DecidedCore(jobs, jobs', g, step);
  }

  /** The core produced before and after, or it failed and did not produce before and after, or neither. */
  lemma DecidedCore(jobs: Rows, jobs': Rows, g: nat, step: nat)
    requires Decided(jobs, g, step)
    requires forall t :: 0 <= t < step ==> Same(jobs, jobs', Key(t, g))
    ensures Produced(jobs', g) <==> Produced(jobs, g)
    ensures !Produced(jobs, g) ==> (CoreFailed(jobs', g) <==> CoreFailed(jobs, g))
  {
    assert RowIs(jobs', Key(SCORE, g), jobs[Key(SCORE, g)]);
    if step > EXTRACT { assert RowIs(jobs', Key(EXTRACT, g), jobs[Key(EXTRACT, g)]); }
  }

  predicate Produced(jobs: Rows, g: nat) {
    RowIs(jobs, Key(SCORE, g), JobCompleted) || RowIs(jobs, Key(EXTRACT, g), JobCompleted)
  }

  predicate CoreFailed(jobs: Rows, g: nat) {
    RowIs(jobs, Key(SCORE, g), JobFailed) || RowIs(jobs, Key(EXTRACT, g), JobFailed)
  }

  /** The rows before `step` are still those of `jobs`, and any final status is theirs. */
  ghost predicate Ruled(st: State, jobs: Rows, step: nat) {
    && Base(st) && NoStarts(st)
    && (forall t :: 0 <= t < step ==> Same(jobs, st.db.jobs, Key(t, st.db.gen)))
    && (st.status.Active() || st.status == FinalOf(jobs, st.db.gen))
    && (forall p :: p in st.procs && st.procs[p].CompleteClaim? && st.procs[p].g == st.db.gen ==>
          st.procs[p].final == FinalOf(jobs, st.db.gen))
  }

  lemma RuledClaim(st: State, p: Pid, pc: Pc, c: Choice, jobs: Rows, step: nat)
    requires Decided(jobs, st.db.gen, step) && Ruled(st, jobs, step)
    requires p in st.procs && st.procs[p] == pc && ProcFits(st.db, p, pc) && !pc.Return?
    ensures var pc', f := NextPc(st.db, st.status, p, pc, c), FinalOf(jobs, st.db.gen);
            && (pc'.CompleteClaim? && pc'.g == st.db.gen ==> pc'.final == f)
            && (NextStatus(st, p, pc).Active() || NextStatus(st, p, pc) == f)
  {
    if pc.CompleteRead? && pc.g == st.db.gen { DecidedFinal(jobs, st.db.jobs, pc.g, step); }
  }

  lemma RuledStep(st: State, l: Label, jobs: Rows, step: nat)
    requires Decided(jobs, st.db.gen, step) && Ruled(st, jobs, step) && Enabled(st, l) && Internal(l)
    ensures Ruled(Apply(st, l), jobs, step) && Apply(st, l).db.gen == st.db.gen
  {
    LabelBase(st, l);
    NoStartsStep(st, l);
    if l.Step? {
      var pc := st.procs[l.pid];
      assert ProcFits(st.db, l.pid, pc);
      if !pc.Return? {
        StepGrowsOnly(st.db, l.pid, pc);
        RuledClaim(st, l.pid, pc, l.choice, jobs, step);
      }
    }
  }

  lemma {:induction false} RuledRun(st: State, ls: seq<Label>, jobs: Rows, step: nat)
    requires Decided(jobs, st.db.gen, step)
    requires Ruled(st, jobs, step) && InternalRun(st, ls)
    ensures Ruled(After(st, ls), jobs, step) && After(st, ls).db.gen == st.db.gen
    decreases |ls|
  {
    if ls != [] {
      RuledStep(st, ls[0], jobs, step);
      RuledRun(Apply(st, ls[0]), ls[1..], jobs, step);
    }
  }

  // ---- after a retry of an idle session ----

  lemma IdleBase(st: State)
    requires Inv(st) && st.procs == map[]
    ensures Base(st)
  {
    forall k | k in st.db.queue ensures EntryFits(st.db, st.procs, k) { assert EntryOk(st.db, st.procs, k); }
  }

  /** The retry brings everything open on, since all steps before the failed one are terminal. */
  lemma RetriedIsSound(st: State, n: nat, step: nat)
    requires Inv(st) && st.procs == map[] && Enabled(st, Retry(n, step))
    ensures Sound(Apply(st, Retry(n, step)))
  {
    var st', g := Apply(st, Retry(n, step)), st.db.gen;
    IdleBase(st);
    LabelBase(st, Retry(n, step));
    assert Done(st.db.jobs, Key(step, g)) && Earlier(st.db.jobs, Key(step, g));
    forall t: nat | OpenAt(st', t) ensures CarriedTo(st', t) {
      assert t < step ==> Done(st.db.jobs, Key(t, g));
      assert Holds(st', ByProcess(Other(n)), t);
    }
    forall p ensures !Spent(st', p) {}
  }

  lemma UndisturbedEndsRight(st: State, n: nat, step: nat)
    requires Inv(st) && st.procs == map[] && Enabled(st, Retry(n, step)) && !LaterWaits(st, step)
    ensures EndsRight(Apply(st, Retry(n, step)))
  {
    var st1 := Apply(st, Retry(n, step));
    RetriedIsSound(st, n, step);
    NothingWaitsIsSafe(st, step);
    RetryKeeps(st, n, step);
    forall ls | InternalRun(st1, ls) && Stuck(After(st1, ls))
      ensures After(st1, ls).status == FinalOf(After(st1, ls).db.jobs, After(st1, ls).db.gen)
    {
      InternalIsRun(st1, ls);
      RunKeeps(st1, ls);
      InternalKeepsSound(st1, ls);
      RestIsFinal(After(st1, ls));
    }
  }

  lemma RuledRest(st: State, ls: seq<Label>, jobs: Rows, step: nat)
    requires Sound(st) && !st.db.deleted && st.db.gen > 0
    requires Decided(jobs, st.db.gen, step) && Ruled(st, jobs, step) && InternalRun(st, ls) && Stuck(After(st, ls))
    ensures var st' := After(st, ls); st'.status == FinalOf(st'.db.jobs, st'.db.gen)
  {
    InternalKeepsSound(st, ls);
    RestIsFinal(After(st, ls));
    RuledRun(st, ls, jobs, step);
    DecidedFinal(jobs, After(st, ls).db.jobs, st.db.gen, step);
  }

  lemma DecidedEndsRight(st: State, n: nat, step: nat)
    requires Inv(st) && st.procs == map[] && Enabled(st, Retry(n, step)) && Decided(st.db.jobs, st.db.gen, step)
    ensures EndsRight(Apply(st, Retry(n, step)))
  {
    var st1, jobs, g := Apply(st, Retry(n, step)), st.db.jobs, st.db.gen;
    RetriedIsSound(st, n, step);
    assert Done(jobs, Key(step, g)) && Earlier(jobs, Key(step, g));
    forall t | 0 <= t < step ensures Same(jobs, st1.db.jobs, Key(t, g)) { assert Done(jobs, Key(t, g)); }
    assert Ruled(st1, jobs, step);
    forall ls | InternalRun(st1, ls) && Stuck(After(st1, ls))
      ensures After(st1, ls).status == FinalOf(After(st1, ls).db.jobs, After(st1, ls).db.gen)
    {
      RuledRest(st1, ls, jobs, step);
    }
  }

  // ---- a status that is wrong ----

  /** Since mid only open steps have ended, all with r, and the status is still that of mid. */
  ghost predicate Since(st: State, mid: State, o: Outcome) {
    && Base(st) && NoStarts(st) && st.db.gen == mid.db.gen && !st.db.deleted && st.status == mid.status
    && (forall p :: p in st.procs && p.WorkerOf? && st.procs[p].WorkOutcome? ==> st.procs[p].outcome == o)
    && (forall k: Key :: Done(mid.db.jobs, k) ==> RowIs(st.db.jobs, k, mid.db.jobs[k]))
    && (forall k: Key :: k.gen == mid.db.gen && Done(st.db.jobs, k) && !Done(mid.db.jobs, k) ==>
          RowIs(st.db.jobs, k, Ended(o)))
  }

  lemma SinceStep(st: State, l: Label, mid: State, o: Outcome)
    requires Since(st, mid, o) && Enabled(st, l) && (o.Succeed? || o.Permanent?) && mid.status.Final()
    requires l.Deliver? || (l.Step? && l.choice == Ending(o))
    ensures Since(Apply(st, l), mid, o)
  {
    LabelBase(st, l);
    NoStartsStep(st, l);
    if l.Step? {
      var p, pc := l.pid, st.procs[l.pid];
      assert ProcFits(st.db, p, pc);
      if !pc.Return? { StepGrowsOnly(st.db, p, pc); SinceRows(st, p, pc, mid, o); }
    }
  }

  lemma SinceRows(st: State, p: Pid, pc: Pc, mid: State, o: Outcome)
    requires Since(st, mid, o) && ProcFits(st.db, p, pc) && p in st.procs && st.procs[p] == pc && !pc.Return?
    requires o.Succeed? || o.Permanent?
    ensures var jobs' := NextDb(st.db, p, pc).jobs;
            forall k: Key :: k.gen == mid.db.gen && Done(jobs', k) && !Done(mid.db.jobs, k) ==>
                               RowIs(jobs', k, Ended(o))
  {
  }

  /** Some schedule comes to rest in which every body ends with o. */
  lemma {:induction false} EndsAllWith(st: State, mid: State, o: Outcome) returns (ls: seq<Label>)
    requires Since(st, mid, o) && (o.Succeed? || o.Permanent?) && mid.status.Final()
    ensures InternalRun(st, ls) && Quiet(After(st, ls)) && Since(After(st, ls), mid, o)
    decreases Work(st)
  {
    if Quiet(st) {
      ls := [];
    } else {
      var l := NextEnding(st, o);
      SinceStep(st, l, mid, o);
      WorkDrops(st, l);
      var rest := EndsAllWith(Apply(st, l), mid, o);
      ls := [l] + rest;
      InternalOne(st, l, rest);
    }
  }

  lemma NextEnding(st: State, o: Outcome) returns (l: Label)
    requires Base(st) && !Quiet(st)
    ensures Enabled(st, l) && (l.Deliver? || (l.Step? && l.choice == Ending(o)))
  {
    if p :| p in st.procs {
      ProcessCanStep(st, p, Ending(o));
      l := Step(p, Ending(o));
    } else {
      var k :| k in st.db.queue && st.db.queue[k].Waiting?;
      l := Deliver(k);
    }
  }

  lemma QuietIsStuck(st: State)
    requires Quiet(st)
    ensures Stuck(st)
  {
  }

  /** How the overtaking steps end, and then the others, for the final status to be wrong. */
  function Overtakers(jobs: Rows, g: nat, step: nat, j: nat): Outcome {
    if EarlierFailed(jobs, g, step) && step == SCORE && j == EXTRACT then Permanent else Succeed
  }

  function Others(jobs: Rows, g: nat, step: nat, j: nat): Outcome {
    if !EarlierFailed(jobs, g, step) then Permanent
    else if step == SCORE then if j == EXTRACT then Succeed else Permanent
    else if RowIs(jobs, Key(SCORE, g), JobFailed) then Succeed
    else Permanent
  }

  /** mid: the retried step and those up to j are open, the later ones have ended. end: all have ended. */
  predicate Apart(jobs: Rows, mid: Rows, end: Rows, g: nat, step: nat, j: nat) {
    && step < j < STEPS
    && forall t :: 0 <= t < STEPS ==>
         if t < step then Same(jobs, mid, Key(t, g)) && Same(jobs, end, Key(t, g))
         else if t < j then !Done(mid, Key(t, g)) && RowIs(end, Key(t, g), Ended(Others(jobs, g, step, j)))
         else RowIs(mid, Key(t, g), Ended(Overtakers(jobs, g, step, j)))
              && RowIs(end, Key(t, g), Ended(Overtakers(jobs, g, step, j)))
  }

  lemma UnfailedDiffers(jobs: Rows, mid: Rows, end: Rows, g: nat, step: nat, j: nat)
    requires Apart(jobs, mid, end, g, step, j) && !EarlierFailed(jobs, g, step)
    ensures FinalOf(mid, g) != FinalOf(end, g)
  {
    assert RowIs(end, Key(step, g), JobFailed);
    forall t | 0 <= t < STEPS ensures !RowIs(mid, Key(t, g), JobFailed) {}
  }

  lemma FailedDiffers(jobs: Rows, mid: Rows, end: Rows, g: nat, step: nat, j: nat)
    requires Apart(jobs, mid, end, g, step, j) && EarlierFailed(jobs, g, step) && !Decided(jobs, g, step)
    ensures FinalOf(mid, g) != FinalOf(end, g)
  {
    var t :| 0 <= t < step && RowIs(jobs, Key(t, g), JobFailed);
    assert RowIs(mid, Key(t, g), JobFailed) && RowIs(end, Key(t, g), JobFailed);
    assert step == SCORE || step == EXTRACT;
  }

  lemma Differs(jobs: Rows, mid: Rows, end: Rows, g: nat, step: nat, j: nat)
    requires Apart(jobs, mid, end, g, step, j) && !Decided(jobs, g, step)
    ensures FinalOf(mid, g) != FinalOf(end, g)
  {
    if EarlierFailed(jobs, g, step) { FailedDiffers(jobs, mid, end, g, step, j); }
    else { UnfailedDiffers(jobs, mid, end, g, step, j); }
  }

  /** The later steps run to the end first, and then all the others. */
  lemma TwoRounds(st: State, n: nat, step: nat, k: Key, o1: Outcome, o2: Outcome)
    returns (mid: State, ls: seq<Label>)
    requires Inv(st) && st.procs == map[] && Enabled(st, Retry(n, step))
    requires (o1.Succeed? || o1.Permanent?) && (o2.Succeed? || o2.Permanent?)
    requires k in st.db.queue && st.db.queue[k].Waiting? && k.gen == st.db.gen && k.step > step
    ensures var st1 := Apply(st, Retry(n, step));
            && Outrun(st1, mid, Other(n), step, k.step, o1)
            && InternalRun(st1, ls) && Stuck(After(st1, ls)) && Since(After(st1, ls), mid, o2)
            && Settled(After(st1, ls))
  {
    var st1 := Apply(st, Retry(n, step));
    mid := WaitingOvertakes(st, n, step, k, o1);
    var first :| InternalRun(st1, first) && After(st1, first) == mid;
    RetriedIsSound(st, n, step);
    InternalKeepsSound(st1, first);
    var second := EndsAllWith(mid, mid, o2);
    InternalKeepsSound(mid, second);
    QuietIsStuck(After(mid, second));
    RestIsFinal(After(mid, second));
    InternalAppend(st1, first, second);
    ls := first + second;
  }

  lemma OvertakenEndsWrong(st: State, n: nat, step: nat, k: Key)
    requires Inv(st) && st.procs == map[] && Enabled(st, Retry(n, step)) && !Decided(st.db.jobs, st.db.gen, step)
    requires k in st.db.queue && st.db.queue[k].Waiting? && k.gen == st.db.gen && k.step > step
    ensures !EndsRight(Apply(st, Retry(n, step)))
  {
    var st1, jobs, g := Apply(st, Retry(n, step)), st.db.jobs, st.db.gen;
    var o1, o2 := Overtakers(jobs, g, step, k.step), Others(jobs, g, step, k.step);
    assert Done(jobs, Key(step, g)) && Earlier(jobs, Key(step, g)) && EntryOk(st.db, st.procs, k);
    var mid, ls := TwoRounds(st, n, step, k, o1, o2);
    var end := After(st1, ls);
    ComesApart(jobs, st1.db.jobs, mid, end, step, k.step);
    Differs(jobs, mid.db.jobs, end.db.jobs, g, step, k.step);
  }

  lemma ComesApart(jobs: Rows, reset: Rows, mid: State, end: State, step: nat, j: nat)
    requires var g := mid.db.gen;
             && step < j < STEPS && Earlier(jobs, Key(step, g)) && reset == ResetRows(jobs, g, step)
             && RowsSince(reset, mid.db.jobs, g, j, Overtakers(jobs, g, step, j))
             && Since(end, mid, Others(jobs, g, step, j)) && AllDone(end.db.jobs, g)
    ensures Apart(jobs, mid.db.jobs, end.db.jobs, mid.db.gen, step, j)
  {
    var g := mid.db.gen;
    forall t | 0 <= t < STEPS
      ensures if t < step then Same(jobs, mid.db.jobs, Key(t, g)) && Same(jobs, end.db.jobs, Key(t, g))
              else if t < j then !Done(mid.db.jobs, Key(t, g))
                                 && RowIs(end.db.jobs, Key(t, g), Ended(Others(jobs, g, step, j)))
              else RowIs(mid.db.jobs, Key(t, g), Ended(Overtakers(jobs, g, step, j)))
                   && RowIs(end.db.jobs, Key(t, g), Ended(Overtakers(jobs, g, step, j)))
    {
      assert Done(end.db.jobs, Key(t, g));
      if t < step {
        assert Done(jobs, Key(t, g)) && RowIs(reset, Key(t, g), jobs[Key(t, g)]);
      } else if t < j {
        assert !Done(reset, Key(t, g));
        assert Done(mid.db.jobs, Key(t, g)) ==> RowIs(reset, Key(t, g), mid.db.jobs[Key(t, g)]);
      }
    }
  }

  // ---- main result ----

  /** With nobody at work, a retry leads every schedule to the final status that the rows call for exactly when no
      queue entry of a later step waits, or the steps before the retried one have settled that status already. */
  lemma RetryEndsRightExactly(st: State, n: nat, step: nat)
    requires Inv(st) && st.procs == map[] && Enabled(st, Retry(n, step))
    ensures EndsRight(Apply(st, Retry(n, step)))
            <==> !LaterWaits(st, step) || Decided(st.db.jobs, st.db.gen, step)
  {
    if !LaterWaits(st, step) {
      UndisturbedEndsRight(st, n, step);
    } else if Decided(st.db.jobs, st.db.gen, step) {
      DecidedEndsRight(st, n, step);
    } else {
      var k :| k in st.db.queue && st.db.queue[k].Waiting? && k.gen == st.db.gen && k.step > step;
      OvertakenEndsWrong(st, n, step, k);
    }
  }

  /** A reachable session with nobody at work, and a retry after which it can rest completed over a failed step. */
  lemma CompletedOverFailed() returns (ls: seq<Label>)
    ensures Reachable(SETTLED) && SETTLED.procs == map[] && Enabled(SETTLED, Retry(0, 0))
    ensures InternalRun(Apply(SETTLED, Retry(0, 0)), ls)
    ensures var end := After(Apply(SETTLED, Retry(0, 0)), ls);
            Stuck(end) && end.status.Completed? && RowIs(end.db.jobs, FIRST, JobFailed)
  {
    SettledReachable();
    ReachableInv(SETTLED);
    ls := CompletesOverFailed(SETTLED, 0, SECOND);
  }

  /** When the first step is retried while the entry of a later one waits, the later ones can succeed first. */
  lemma CompletesOverFailed(st: State, n: nat, k: Key) returns (ls: seq<Label>)
    requires Inv(st) && st.procs == map[] && Enabled(st, Retry(n, 0))
    requires k in st.db.queue && st.db.queue[k].Waiting? && k.gen == st.db.gen && k.step > 0
    ensures InternalRun(Apply(st, Retry(n, 0)), ls)
    ensures var end := After(Apply(st, Retry(n, 0)), ls);
            Stuck(end) && end.status.Completed? && RowIs(end.db.jobs, Key(0, st.db.gen), JobFailed)
  {
    var st1, jobs, g := Apply(st, Retry(n, 0)), st.db.jobs, st.db.gen;
    assert EntryOk(st.db, st.procs, k) && Earlier(jobs, Key(0, g));
    assert Overtakers(jobs, g, 0, k.step) == Succeed && Others(jobs, g, 0, k.step) == Permanent;
    var mid: State;
    mid, ls := TwoRounds(st, n, 0, k, Succeed, Permanent);
    ComesApart(jobs, st1.db.jobs, mid, After(st1, ls), 0, k.step);
    UnfailedCompletes(jobs, mid.db.jobs, After(st1, ls).db.jobs, g, k.step);
  }

  lemma UnfailedCompletes(jobs: Rows, mid: Rows, end: Rows, g: nat, j: nat)
    requires Apart(jobs, mid, end, g, 0, j)
    ensures FinalOf(mid, g).Completed? && RowIs(end, Key(0, g), JobFailed)
  {
    forall t | 0 <= t < STEPS ensures !RowIs(mid, Key(t, g), JobFailed) {}
  }
}
