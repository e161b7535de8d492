/** A retry reads the session and the failed row before its transaction, and the transaction looks at neither again.
    A restart that comes between them leaves the new generation marked as processing with nobody to finish it. */
module PipelineRaces {
  import opened Pipeline
  import opened PipelineSafety
  import opened PipelineAlways
  import opened PipelineBase
  import opened PipelineWork
  import opened PipelineRetry
  import opened PipelineProgress
  import opened PipelineRecovery

  // ---- the late transaction ----

  /** A retry that has read the row of a step of some generation of the session. */
  ghost predicate Asking(st: State, n: nat, a: Asked) {
    && Other(n) !in st.procs && a.step < STEPS && 1 <= a.gen <= st.db.gen && Key(a.step, a.gen) in st.db.jobs
  }

  /** A retry of a superseded generation leaves alone whoever brings the current one on. */
  lemma SupersededCovers(st: State, n: nat, a: Asked)
    requires Sound(st) && !st.db.deleted && Asking(st, n, a) && a.gen < st.db.gen
    requires Reopening(st) || CarriedTo(st, STEPS)
    ensures Sound(WrittenLate(st, n, a))
  {
    var st' := WrittenLate(st, n, a);
    WriteBase(st, n, a);
    if Reopening(st) {
      ReopeningStays(st, n, a);
    } else {
      forall t: nat | OpenAt(st', t) ensures CarriedTo(st', t) {
        assert t < STEPS ==> OpenAt(st, t);
        var c :| Holds(st, c, t);
        assert Holds(st', c, t);
      }
      forall p ensures !Spent(st', p) { assert !Spent(st, p); }
    }
  }

  // ---- nobody works for the session's own generation ----

  /** All work left is for the superseded generation g, and cannot begin a body. */
  ghost predicate Stale(st: State, g: nat) {
    && g < st.db.gen
    && (forall k :: k in st.db.queue && st.db.queue[k].Waiting? ==> k.gen == g)
    && (forall p :: p in st.procs ==> StalePlace(p, st.procs[p], g))
  }

  ghost predicate StalePlace(p: Pid, pc: Pc, g: nat) {
    match p
    case WorkerOf(k, _) => k.gen == g && (pc.WorkRead? || pc.WorkSkip? || pc == Return(false))
    case Other(_) => pc == Return(false) || (Dispatching(pc) && pc.target.gen == g)
  }

  /** The rows of every other generation are those of st. */
  ghost predicate SameRows(st: State, st': State, g: nat) {
    && st'.status == st.status && st'.db.gen == st.db.gen && st'.db.deleted == st.db.deleted
    && forall k: Key :: k.gen != g ==> (k in st'.db.jobs <==> k in st.db.jobs)
                                       && (k in st.db.jobs ==> st'.db.jobs[k] == st.db.jobs[k])
  }

  lemma StaleStep(st: State, l: Label, g: nat)
    requires Stale(st, g) && Enabled(st, l) && Internal(l)
    ensures Stale(Apply(st, l), g) && SameRows(st, Apply(st, l), g)
  {
    if l.Step? {
      assert StalePlace(l.pid, st.procs[l.pid], g);
    }
  }

  lemma {:induction false} StaleRun(st: State, ls: seq<Label>, g: nat)
    requires Stale(st, g) && InternalRun(st, ls)
    ensures Stale(After(st, ls), g) && SameRows(st, After(st, ls), g)
    decreases |ls|
  {
    if ls != [] {
      StaleStep(st, ls[0], g);
      StaleRun(Apply(st, ls[0]), ls[1..], g);
    }
  }

  /** After the late transaction of a superseded retry the session stays in processing over five terminal jobs,
      whatever the workers do; it owes a final status until a sweep or a restart comes. */
  lemma StaleRetryStrands(st: State, n: nat, a: Asked, ls: seq<Label>)
    requires Base(st) && Quiet(st) && Settled(st) && !st.db.deleted && Asking(st, n, a) && a.gen < st.db.gen
    requires InternalRun(WrittenLate(st, n, a), ls)
    ensures var st' := After(WrittenLate(st, n, a), ls);
            && Base(st') && Stale(st', a.gen)
            && Owes(st') && st'.status.Processing? && AllDone(st'.db.jobs, st'.db.gen)
  {
    var st1 := WrittenLate(st, n, a);
    WriteBase(st, n, a);
    assert Stale(st1, a.gen);
    StaleRun(st1, ls, a.gen);
    RunIsBounded(st1, ls);
    var st' := After(st1, ls);
    forall t | 0 <= t < STEPS ensures Done(st'.db.jobs, Key(t, st'.db.gen)) {
      assert Done(st.db.jobs, Key(t, st.db.gen)) && Key(t, st.db.gen).gen != a.gen;
    }
  }

  /** A sweep that finds such a session stale brings it to a final status again, however its steps go. */
  lemma SweepRestores(st: State, n: nat, a: Asked, ls: seq<Label>, m: nat, ch: Choice)
    requires Base(st) && Quiet(st) && Settled(st) && !st.db.deleted && Asking(st, n, a) && a.gen < st.db.gen
    requires InternalRun(WrittenLate(st, n, a), ls) && ch.stale
    requires Other(m) !in After(WrittenLate(st, n, a), ls).procs
    ensures var swept := Apply(After(WrittenLate(st, n, a), ls), SweepArrives(m));
            Settles(Apply(swept, Step(Other(m), ch)))
  {
    StaleRetryStrands(st, n, a, ls);
    var st' := After(WrittenLate(st, n, a), ls);
    var swept := Apply(st', SweepArrives(m));
    LabelBase(st', SweepArrives(m));
    forall p ensures !Spent(swept, p) {
      if p in st'.procs { assert StalePlace(p, st'.procs[p], a.gen); }
    }
    SweepSettlesExactly(swept, Other(m), ch);
  }

  // ---- main result ----

  /** When a retry's transaction comes, whatever has happened since its reads. If the session still has the
      generation it read, the session settles exactly when the retry is timely or a restart is about to open a new
      generation. If a restart has come, it settles while that generation is on its way, and not when it has come
      to rest. */
  lemma LateRetrySettlesExactly(st: State, n: nat, a: Asked)
    requires Sound(st) && !st.db.deleted && Asking(st, n, a)
    ensures a.gen == st.db.gen ==>
              (Settles(WrittenLate(st, n, a)) <==> Timely(st, a.step) || Reopening(st))
    ensures a.gen < st.db.gen && (Reopening(st) || CarriedTo(st, STEPS)) ==> Settles(WrittenLate(st, n, a))
    ensures a.gen < st.db.gen && Quiet(st) ==> !Settles(WrittenLate(st, n, a))
  {
    var st1 := WrittenLate(st, n, a);
    if a.gen == st.db.gen {
      CurrentRetrySettlesExactly(st, n, a);
    } else {
      if Reopening(st) || CarriedTo(st, STEPS) {
        SupersededCovers(st, n, a);
        SoundSettles(st1);
      }
      if Quiet(st) {
        RestIsFinal(st);
        WriteBase(st, n, a);
        var ls := RunsOut(st1);
        StaleRetryStrands(st, n, a, ls);
      }
    }
  }

  // ---- such a race can happen ----

  ghost predicate Comes(r: Race) { exists hs :: Possible(START, hs) && End(START, hs) == r }

  lemma {:induction false} PartsAppend(r: Race, hs: seq<Part>, h: Part)
    requires Possible(r, hs) && Allowed(End(r, hs), h)
    ensures Possible(r, hs + [h]) && End(r, hs + [h]) == Next(End(r, hs), h)
    decreases |hs|
  {
    if hs == [] {
      assert hs + [h] == [h] && [h][1..] == [];
    } else {
      assert (hs + [h])[1..] == hs[1..] + [h];
      PartsAppend(Next(r, hs[0]), hs[1..], h);
    }
  }

  lemma ComesNext(r: Race, h: Part)
    requires Comes(r) && Allowed(r, h)
    ensures Comes(Next(r, h))
  {
    var hs :| Possible(START, hs) && End(START, hs) == r;
    PartsAppend(START, hs, h);
  }

  lemma {:induction false} ComesThrough(r: Race, ls: seq<Label>)
    requires Comes(r) && InternalRun(r.st, ls)
    ensures Comes(Race(After(r.st, ls), r.asked))
    decreases |ls|
  {
    if ls != [] {
      ComesNext(r, Whole(ls[0]));
      ComesThrough(Next(r, Whole(ls[0])), ls[1..]);
    }
  }

  lemma {:induction false} RowStays(st: State, ls: seq<Label>, k: Key)
    requires Base(st) && InternalRun(st, ls) && k in st.db.jobs
    ensures k in After(st, ls).db.jobs
    decreases |ls|
  {
    if ls != [] {
      LabelBase(st, ls[0]);
      RowStays(Apply(st, ls[0]), ls[1..], k);
    }
  }

  /** A retry has read the failed first step of generation 1. */
  const ASKING := Race(SETTLED, map[0 := Asked(0, 1, true)])

  /** Then a reprocess opens generation 2. */
  const REOPENED := SETTLED.(db := SETTLED.db.(gen := 2), status := Queued, procs := map[Other(1) := StartCreate(2)])

  lemma AskingComes()
    ensures Comes(ASKING)
  {
    SettledReachable();
    var ls :| Run(INITIAL, ls) && After(INITIAL, ls) == SETTLED;
    RunIsPossible(START, ls);
    var r := Race(SETTLED, map[]);
    assert Comes(r);
    ComesNext(r, Look(0, 0));
    ComesNext(Next(r, Look(0, 0)), Find(0));
    assert Next(Next(r, Look(0, 0)), Find(0)) == ASKING;
  }

  lemma AskingSound()
    ensures Comes(ASKING) && Sound(SETTLED)
  {
    AskingComes();
    SettledReachable();
    ReachableAttainable(SETTLED);
    AttainableBase(SETTLED);
    forall t: nat | OpenAt(SETTLED, t) ensures CarriedTo(SETTLED, t) {
      assert t != 0;
      assert Holds(SETTLED, ByEntry(SECOND), t);
    }
    forall p ensures !Spent(SETTLED, p) {}
  }

  const WRITING := SETTLED.(procs := map[Other(1) := StartWrite(true)])

  lemma WritingComes()
    ensures Comes(Race(WRITING, ASKING.asked)) && Sound(WRITING)
  {
    var p := Other(1);
    var s1 := SETTLED.(procs := map[p := StartRead(true)]);
    AskingSound();
    Arrived(SETTLED, s1, StartArrives(1, true));
    Arrived(s1, WRITING, Step(p, FAILING));
  }

  lemma ReopenedComes()
    ensures Comes(Race(REOPENED, ASKING.asked)) && Sound(REOPENED)
  {
    WritingComes();
    Arrived(WRITING, REOPENED, Step(Other(1), FAILING));
  }

  lemma Arrived(st: State, st': State, l: Label)
    requires Comes(Race(st, ASKING.asked)) && Sound(st) && Enabled(st, l) && !l.Retry? && !Crash(l)
    requires Apply(st, l) == st'
    ensures Comes(Race(st', ASKING.asked)) && Sound(st')
  {
    ComesNext(Race(st, ASKING.asked), Whole(l));
    SoundStep(st, l);
  }

  /** A retry looks, a reprocess runs a new generation to its end, and the retry's write comes to a session at
      rest with its final status: the session is processing again and stays so. */
  lemma LateRetryHappens() returns (r: Race)
    ensures Comes(r) && 0 in r.asked && r.asked[0].found && Allowed(r, Write(0))
    ensures var st, a := r.st, r.asked[0];
            && Sound(st) && Quiet(st) && Settled(st) && !st.db.deleted && a.gen < st.db.gen
            && !Settles(WrittenLate(st, 0, a))
  {
    ReopenedComes();
    var ls := RunsOut(REOPENED);
    ComesThrough(Race(REOPENED, ASKING.asked), ls);
    InternalKeepsSound(REOPENED, ls);
    RowStays(REOPENED, ls, FIRST);
    r := Race(After(REOPENED, ls), ASKING.asked);
    RestIsFinal(r.st);
    StuckIsQuiet(r.st);
    LateRetrySettlesExactly(r.st, 0, r.asked[0]);
  }
}
