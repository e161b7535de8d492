/** When a session settles: exactly when no worker has left an open row behind. */
module PipelineRecovery {
  import opened Pipeline
  import opened PipelineSafety
  import opened PipelineAlways
  import opened PipelineBase
  import opened PipelineWork
  import opened PipelineProgress
  import opened PipelineRetry

  // ---- while a spent worker waits ----

  /** Worker w has left its row open, and no restart is about to open a new generation. */
  ghost predicate Waits(st: State, w: Pid) { Base(st) && st.db.gen > 0 && Spent(st, w) && !Reopening(st) }

  /** A choice that starts and resumes nothing. */
  const IDLE := Choice(false, false, false, false, Permanent)

  lemma OtherStepWaits(st: State, w: Pid, p: Pid)
    requires Waits(st, w) && p != w && Enabled(st, Step(p, IDLE)) && !st.procs[p].Return?
    ensures var st' := Apply(st, Step(p, IDLE)); st'.db.gen == st.db.gen && Spent(st', w) && !Reopening(st')
  {
    assert ProcFits(st.db, w, st.procs[w]) && ProcFits(st.db, p, st.procs[p]);
    assert st.procs[p] != StartWrite(true);
    StepGrowsOnly(st.db, p, st.procs[p]);
    assert p.WorkerOf? ==> p.key != w.key;
  }

  lemma OtherEndWaits(st: State, w: Pid, p: Pid)
    requires Waits(st, w) && p != w && Enabled(st, Step(p, IDLE)) && st.procs[p].Return?
    ensures var st' := Apply(st, Step(p, IDLE)); st'.db.gen == st.db.gen && Spent(st', w) && !Reopening(st')
  {
  }

  lemma OtherMovesWait(st: State, w: Pid, l: Label)
    requires Waits(st, w) && Enabled(st, l)
    requires l.Deliver? || (l.Step? && l.pid != w && l.choice == IDLE)
    ensures Waits(Apply(st, l), w) && Apply(st, l).procs[w] == st.procs[w]
  {
    LabelBase(st, l);
    assert ProcFits(st.db, w, st.procs[w]);
    if l.Step? {
      if st.procs[l.pid].Return? { OtherEndWaits(st, w, l.pid); } else { OtherStepWaits(st, w, l.pid); }
    }
  }

  /** Only w is left, and nothing waits. */
  ghost predicate OnlyOne(st: State, w: Pid) {
    st.procs.Keys == {w} && forall k :: k in st.db.queue ==> !st.db.queue[k].Waiting?
  }

  /** All others can come to an end while w waits. */
  lemma {:induction false} OthersRunOut(st: State, w: Pid) returns (ls: seq<Label>)
    requires Waits(st, w)
    ensures InternalRun(st, ls) && Waits(After(st, ls), w) && OnlyOne(After(st, ls), w)
    ensures After(st, ls).procs[w] == st.procs[w]
    decreases Work(st)
  {
    if OnlyOne(st, w) {
      ls := [];
    } else {
      var l := NextOther(st, w);
      OtherMovesWait(st, w, l);
      WorkDrops(st, l);
      var rest := OthersRunOut(Apply(st, l), w);
      ls := [l] + rest;
      InternalOne(st, l, rest);
    }
  }

  lemma NextOther(st: State, w: Pid) returns (l: Label)
    requires Waits(st, w) && !OnlyOne(st, w)
    ensures Enabled(st, l) && (l.Deliver? || (l.Step? && l.pid != w && l.choice == IDLE))
  {
    if p :| p in st.procs && p != w {
      ProcessCanStep(st, p, IDLE);
      l := Step(p, IDLE);
    } else {
      assert st.procs.Keys == {w};
      var k :| k in st.db.queue && st.db.queue[k].Waiting?;
      l := Deliver(k);
    }
  }

  // ---- once it goes on ----

  /** The row of k is open, and all work left is for later steps. */
  ghost predicate Behind(st: State, k: Key) {
    && Base(st) && !st.db.deleted && st.db.gen == k.gen && !Done(st.db.jobs, k)
    && (forall j :: j in st.db.queue && st.db.queue[j].Waiting? ==> j.step > k.step && j.gen == k.gen)
    && (forall p :: p in st.procs ==> BehindPlace(p, st.procs[p], k))
  }

  predicate BehindPlace(p: Pid, pc: Pc, k: Key) {
    p.WorkerOf? && p.key.gen == k.gen && p.key.step >= k.step && (p.key.step == k.step ==> Past(pc))
  }

  lemma PlaceStaysBehind(db: Db, status: AnalysisStatus, p: Pid, pc: Pc, c: Choice, k: Key)
    requires ProcFits(db, p, pc) && BehindPlace(p, pc, k) && !pc.Return? && !Done(db.jobs, k)
    ensures BehindPlace(p, NextPc(db, status, p, pc, c), k)
    ensures var db' := NextDb(db, p, pc); db'.gen == db.gen && !Done(db'.jobs, k)
    ensures forall j :: j in NextDb(db, p, pc).queue && j !in db.queue ==> j.step > k.step && j.gen == k.gen
  {
    StepGrowsOnly(db, p, pc);
  }

  lemma StepBehind(st: State, l: Label, k: Key)
    requires Behind(st, k) && Enabled(st, l) && Internal(l)
    ensures Behind(Apply(st, l), k)
  {
    LabelBase(st, l);
    if l.Step? {
      var p := l.pid;
      assert ProcFits(st.db, p, st.procs[p]) && BehindPlace(p, st.procs[p], k);
      if !st.procs[p].Return? {
        PlaceStaysBehind(st.db, st.status, p, st.procs[p], l.choice, k);
        StepGrowsOnly(st.db, p, st.procs[p]);
        StepKeepsEntries(st.db, p, st.procs[p]);
      }
    }
  }

  lemma StepKeepsEntries(db: Db, p: Pid, pc: Pc)
    requires Fits(p, pc)
    ensures forall j :: j in NextDb(db, p, pc).queue && j in db.queue ==> NextDb(db, p, pc).queue[j] == db.queue[j]
  {
  }

  lemma {:induction false} RunBehind(st: State, ls: seq<Label>, k: Key)
    requires Behind(st, k) && InternalRun(st, ls)
    ensures Behind(After(st, ls), k)
    decreases |ls|
  {
    if ls != [] {
      StepBehind(st, ls[0], k);
      RunBehind(Apply(st, ls[0]), ls[1..], k);
    }
  }

  /** A worker that has left its row open can strand it. */
  lemma SpentStrands(st: State, w: Pid) returns (ls: seq<Label>)
    requires Waits(st, w)
    ensures InternalRun(st, ls) && Stuck(After(st, ls)) && !Done(After(st, ls).db.jobs, w.key)
    ensures After(st, ls).db.gen == w.key.gen && w.key.step < STEPS
  {
    var first := OthersRunOut(st, w);
    var mid := After(st, first);
    assert ProcFits(mid.db, w, mid.procs[w]);
    assert Behind(mid, w.key);
    var last := RunsOut(mid);
    RunBehind(mid, last, w.key);
    InternalAppend(st, first, last);
    ls := first + last;
  }

  // ---- main results ----

  /** A session whose open steps are all brought on settles exactly when no worker has left its row open, or a
      restart is about to open a new generation. */
  lemma SettlesExactly(st: State)
    requires Base(st) && st.db.gen > 0 && !st.db.deleted && (Covered(st) || Reopening(st))
    ensures Settles(st) <==> NoneSpent(st) || Reopening(st)
  {
    if NoneSpent(st) || Reopening(st) {
      SoundSettles(st);
    } else {
      var w :| Spent(st, w);
      var ls := SpentStrands(st, w);
      assert !Settled(After(st, ls));
    }
  }

  /** A retry of a session on its way settles exactly when it is timely, or a restart is about to open a new
      generation. */
  lemma RetrySettlesExactly(st: State, n: nat, step: nat)
    requires Sound(st) && Enabled(st, Retry(n, step))
    ensures Settles(Apply(st, Retry(n, step))) <==> Timely(st, step) || Reopening(st)
  {
    var a := Asked(step, st.db.gen, true);
    PartsAreRetry(st, n, step);
    CurrentRetrySettlesExactly(st, n, a);
  }

  lemma CurrentRetrySettlesExactly(st: State, n: nat, a: Asked)
    requires Sound(st) && !st.db.deleted && Other(n) !in st.procs && a.gen == st.db.gen && a.step < STEPS
    requires Key(a.step, a.gen) in st.db.jobs && a.gen > 0
    ensures Settles(WrittenLate(st, n, a)) <==> Timely(st, a.step) || Reopening(st)
  {
    var st' := WrittenLate(st, n, a);
    RetrySound(st, n, a);
    if Reopening(st) {
      ReopeningStays(st, n, a);
    } else {
      RetryCovers(st, n, a);
      forall p | p in st'.procs ensures st'.procs[p] != StartWrite(true) {
        assert p in st.procs ==> st'.procs[p] == st.procs[p];
      }
    }
    SettlesExactly(st');
  }

  /** The session owes a final status. */
  predicate Owes(st: State) { st.status.Active() && !st.db.deleted }

  lemma SweepCovers(st: State, p: Pid)
    requires Base(st) && Owes(st) && p in st.procs && st.procs[p].SweepRead? && st.db.gen > 0
    ensures var st' := st.(procs := st.procs[p := SweepJobs(st.db.gen)]);
            Covered(st') && (NoneSpent(st') <==> NoneSpent(st)) && (Reopening(st') <==> Reopening(st))
  {
    var st' := st.(procs := st.procs[p := SweepJobs(st.db.gen)]);
    forall t: nat | OpenAt(st', t) ensures CarriedTo(st', t) { assert Holds(st', ByProcess(p), t); }
    forall q ensures Spent(st', q) <==> Spent(st, q) {}
    if Reopening(st) {
      var q :| q in st.procs && st.procs[q] == StartWrite(true);
      assert st'.procs[q] == StartWrite(true);
    }
    if Reopening(st') {
      var q :| q in st'.procs && st'.procs[q] == StartWrite(true);
      assert st.procs[q] == StartWrite(true);
    }
  }

  lemma SweepSettlesExactly(st: State, p: Pid, ch: Choice)
    requires Base(st) && Owes(st) && p in st.procs && st.procs[p].SweepRead? && ch.stale
    ensures var st' := Apply(st, Step(p, ch));
            && (forall ls :: InternalRun(st', ls) ==> |ls| < Work(st))
            && (Settles(st') <==> NoneSpent(st) || Reopening(st))
  {
    var st' := Apply(st, Step(p, ch));
    LabelBase(st, Step(p, ch));
    WorkDrops(st, Step(p, ch));
    SweepCovers(st, p);
    assert st' == st.(procs := st.procs[p := SweepJobs(st.db.gen)]);
    forall ls | InternalRun(st', ls) ensures |ls| < Work(st) { RunIsBounded(st', ls); }
    SettlesExactly(st');
  }

  /** Recovery. In any attainable state that owes a final status, however workers died, entries were lost and steps
      were retried before, let a sweep look at the session once. From then on every schedule of steps and
      deliveries, whatever the step bodies do, is bounded; and all of them end with a final status over five
      terminal jobs exactly when no worker has left its row open, or a restart is about to open a new generation. */
  lemma OneSweepRecovers(st: State, p: Pid, ch: Choice)
    requires Attainable(st) && Owes(st) && p in st.procs && st.procs[p].SweepRead? && ch.stale
    ensures var st' := Apply(st, Step(p, ch));
            && (forall ls :: InternalRun(st', ls) ==> |ls| < Work(st))
            && (Settles(st') <==> NoneSpent(st) || Reopening(st))
  {
    AttainableBase(st);
    SweepSettlesExactly(st, p, ch);
  }

  // ---- workers that have left their row open ----

  /** Only a retry makes a worker leave an open row behind: as long as retries are timely, none has, however many
      workers die and entries are lost. */
  lemma {:induction false} TimelyNoneSpent(st: State, ls: seq<Label>)
    requires Base(st) && NoneSpent(st) && TimelyRun(st, ls)
    ensures Base(After(st, ls)) && NoneSpent(After(st, ls))
    decreases |ls|
  {
    if ls != [] {
      var l := ls[0];
      LabelBase(st, l);
      if Opens(st, l) { OpensNoneSpent(st, l); }
      else if l.Retry? { PartsAreRetry(st, l.n, l.step); RetrySpends(st, l.n, Asked(l.step, st.db.gen, true)); }
      else { KeepsNoneSpent(st, l); }
      TimelyNoneSpent(Apply(st, l), ls[1..]);
    }
  }

  lemma OpensNoneSpent(st: State, l: Label)
    requires Base(st) && Enabled(st, l) && Opens(st, l)
    ensures NoneSpent(Apply(st, l))
  {
    forall q ensures !Spent(Apply(st, l), q) {
      if q in st.procs { assert ProcFits(st.db, q, st.procs[q]) && ProcFits(st.db, l.pid, st.procs[l.pid]); }
    }
  }

  ghost predicate TimelyRun(st: State, ls: seq<Label>)
    decreases |ls|
  {
    ls == [] || (Enabled(st, ls[0]) && (ls[0].Retry? ==> Timely(st, ls[0].step))
                 && TimelyRun(Apply(st, ls[0]), ls[1..]))
  }

  /** So after any crashes and timely retries one sweep that finds the session stale is enough. */
  lemma SweepRecoversTimely(ls: seq<Label>, p: Pid, ch: Choice)
    requires TimelyRun(INITIAL, ls)
    requires var st := After(INITIAL, ls); Owes(st) && p in st.procs && st.procs[p].SweepRead? && ch.stale
    ensures Settles(Apply(After(INITIAL, ls), Step(p, ch)))
  {
    TimelyNoneSpent(INITIAL, ls);
    SweepSettlesExactly(After(INITIAL, ls), p, ch);
  }

  // ---- a retry that is not timely ----

  /** The worker of the failed first step has queued the second one and is about to return. */
  const LEAVING := Alone(NEXT_QUEUED, WORKER, Return(false))

  lemma LeavingSound()
    ensures Reachable(LEAVING) && Sound(LEAVING)
  {
    NextQueuedReachable();
    ReachableAttainable(LEAVING);
    AttainableBase(LEAVING);
    forall t: nat | OpenAt(LEAVING, t) ensures CarriedTo(LEAVING, t) {
      assert t != 0;
      assert Holds(LEAVING, ByEntry(SECOND), t);
    }
    forall p ensures !Spent(LEAVING, p) {}
  }

  /** A reachable session, no crash, and a retry that comes before the worker of the failed step has returned: its
      dispatch finds the entry active, and the retried step is never run. */
  lemma UntimelyRetryHappens()
    ensures Reachable(LEAVING) && Enabled(LEAVING, Retry(0, 0)) && !Timely(LEAVING, 0)
    ensures !Settles(Apply(LEAVING, Retry(0, 0)))
  {
    LeavingSound();
    assert LEAVING.procs[WORKER] == Return(false);
    RetrySettlesExactly(LEAVING, 0, 0);
  }
}
