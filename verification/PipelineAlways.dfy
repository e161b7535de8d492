/** What every run keeps, whatever retries it takes: generations, accounts and evaluations. */
module PipelineAlways {
  import opened Pipeline
  import opened PipelineSafety

  /** One if generation g is current and not completed yet. */
  ghost function Open(gen: nat, status: AnalysisStatus, g: nat): nat {
    if g == gen && status.Active() then 1 else 0
  }

  /** A generation is claimed as complete at most once, and once more for each accepted retry. */
  ghost predicate ClaimsOk(gen: nat, status: AnalysisStatus, tally: Tally) {
    forall g: nat ::
      Count(tally.claims, g) + Open(gen, status, g) <= (if 1 <= g <= gen then 1 else 0) + Count(tally.retries, g)
  }

  ghost predicate RetriesOk(gen: nat, tally: Tally) {
    forall g :: g in tally.retries ==> 1 <= g <= gen
  }

  ghost predicate EvalsOk(gen: nat, evals: map<nat, bool>) {
    && (forall e :: e in evals ==> 1 <= e <= gen)
    && (forall e, f :: e in evals && f in evals && evals[e] && evals[f] ==> e == f)
  }

  /** What process p at pc works for is of a generation that exists, and a worker works for its own. */
  ghost predicate Grounded(gen: nat, p: Pid, pc: Pc) {
    && (p.WorkerOf? ==> 1 <= p.key.gen <= gen)
    && (pc.StartCreate? || pc.SweepJobs? || Completing(pc) ==> 1 <= pc.g <= gen)
    && (Dispatching(pc) ==> 1 <= pc.target.gen <= gen)
    && (pc.CompleteClaim? ==> !pc.final.Active())
    && (p.WorkerOf? && Completing(pc) ==> pc.g == p.key.gen)
    && (p.WorkerOf? && Dispatching(pc) ==> pc.target.gen == p.key.gen)
    && (p.WorkerOf? ==> ForWorkers(pc) || Dispatching(pc) || Completing(pc) || pc.Return?)
  }

  ghost predicate AllGrounded(st: State) {
    && (forall p :: p in st.procs ==> Grounded(st.db.gen, p, st.procs[p]))
    && (forall k :: k in st.db.queue ==> 1 <= k.gen <= st.db.gen)
  }

  ghost predicate Idle(gen: nat, status: AnalysisStatus) { gen == 0 ==> !status.Active() }

  ghost predicate Always(st: State) {
    && AllGrounded(st)
    && Idle(st.db.gen, st.status)
    && ClaimsOk(st.db.gen, st.status, st.tally)
    && RetriesOk(st.db.gen, st.tally)
    && EvalsOk(st.db.gen, st.evals)
  }

  // ---- a step of a process ----

  lemma StepGrounded(st: State, p: Pid, pc: Pc, c: Choice)
    requires Grounded(st.db.gen, p, pc) && Fits(p, pc) && !pc.Return?
    ensures NextDb(st.db, p, pc).gen >= st.db.gen
    ensures Grounded(NextDb(st.db, p, pc).gen, p, NextPc(st.db, st.status, p, pc, c))
  {
  }

  lemma StepQueueGrounded(db: Db, p: Pid, pc: Pc)
    requires Grounded(db.gen, p, pc) && Fits(p, pc)
    requires forall k :: k in db.queue ==> 1 <= k.gen <= db.gen
    ensures forall k :: k in NextDb(db, p, pc).queue ==> 1 <= k.gen <= NextDb(db, p, pc).gen
  {
  }

  lemma StepAccounts(st: State, p: Pid, pc: Pc)
    requires Grounded(st.db.gen, p, pc) && Fits(p, pc) && Idle(st.db.gen, st.status)
    requires ClaimsOk(st.db.gen, st.status, st.tally) && RetriesOk(st.db.gen, st.tally)
    ensures ClaimsOk(NextDb(st.db, p, pc).gen, NextStatus(st, p, pc), NextTally(st, p, pc))
  {
    var gen', status', tally' := NextDb(st.db, p, pc).gen, NextStatus(st, p, pc), NextTally(st, p, pc);
    forall g: nat
      ensures Count(tally'.claims, g) + Open(gen', status', g)
              <= (if 1 <= g <= gen' then 1 else 0) + Count(tally'.retries, g)
    {
      assert Count(st.tally.claims, g) + Open(st.db.gen, st.status, g)
             <= (if 1 <= g <= st.db.gen then 1 else 0) + Count(st.tally.retries, g);
    }
  }

  lemma StepRest(st: State, p: Pid, pc: Pc, c: Choice)
    requires Grounded(st.db.gen, p, pc) && Fits(p, pc) && Idle(st.db.gen, st.status)
    requires RetriesOk(st.db.gen, st.tally) && EvalsOk(st.db.gen, st.evals)
    ensures Idle(NextDb(st.db, p, pc).gen, NextStatus(st, p, pc))
    ensures RetriesOk(NextDb(st.db, p, pc).gen, NextTally(st, p, pc))
    ensures EvalsOk(NextDb(st.db, p, pc).gen, NextEvals(st, p, pc, c))
  {
  }

  lemma StepAlways(st: State, p: Pid, c: Choice)
    requires Always(st) && Enabled(st, Step(p, c)) && !st.procs[p].Return?
    ensures Always(Apply(st, Step(p, c)))
  {
    var pc := st.procs[p];
    StepGrounded(st, p, pc, c);
    StepQueueGrounded(st.db, p, pc);
    StepAccounts(st, p, pc);
    StepRest(st, p, pc, c);
  }

  // ---- retries in three parts ----

  /** What a retry has read: the generation of the session, and whether it has found the step's row failed. */
  datatype Asked = Asked(step: nat, gen: nat, found: bool)

  /** The transaction of a retry, whatever has happened since its reads: the rows of the generation it read are
      reset, the session is set to processing whatever its generation is by now, and a dispatch begins. The
      retry is counted for the generation the session has. */
  function WrittenLate(st: State, n: nat, a: Asked): State {
    var reset := st.(db := st.db.(jobs := ResetRows(st.db.jobs, a.gen, a.step)), status := Processing,
                     procs := st.procs[Other(n) := DispatchLook(Key(a.step, a.gen), true)],
                     tally := st.tally.(retries := Bump(st.tally.retries, st.db.gen)));
    Disturb(reset, a.gen)
  }

  /** The three parts one right after the other. */
  lemma PartsAreRetry(st: State, n: nat, step: nat)
    requires Enabled(st, Retry(n, step))
    ensures Apply(st, Retry(n, step)) == WrittenLate(st, n, Asked(step, st.db.gen, true))
  {
  }

  lemma WriteAlways(st: State, n: nat, a: Asked)
    requires Always(st) && 1 <= a.gen <= st.db.gen && Other(n) !in st.procs
    ensures Always(WrittenLate(st, n, a))
  {
    var g, st' := st.db.gen, WrittenLate(st, n, a);
    forall h: nat
      ensures Count(st'.tally.claims, h) + Open(g, Processing, h)
              <= (if 1 <= h <= g then 1 else 0) + Count(st'.tally.retries, h)
    {
      assert Count(st.tally.claims, h) + Open(g, st.status, h)
             <= (if 1 <= h <= g then 1 else 0) + Count(st.tally.retries, h);
    }
  }

  // ---- the other labels ----

  lemma OtherAlways(st: State, l: Label)
    requires Always(st) && Enabled(st, l) && !l.Retry? && (l.Step? ==> st.procs[l.pid].Return?)
    ensures Always(Apply(st, l))
  {
  }

  lemma LabelAlways(st: State, l: Label)
    requires Always(st) && Enabled(st, l)
    ensures Always(Apply(st, l))
  {
    if l.Step? && !st.procs[l.pid].Return? {
      StepAlways(st, l.pid, l.choice);
    } else if l.Retry? {
      PartsAreRetry(st, l.n, l.step);
      WriteAlways(st, l.n, Asked(l.step, st.db.gen, true));
    } else {
      OtherAlways(st, l);
    }
  }

  lemma GenGrows(st: State, l: Label)
    requires Always(st) && Enabled(st, l)
    ensures Apply(st, l).db.gen >= st.db.gen
  {
    if l.Step? && !st.procs[l.pid].Return? { StepGrounded(st, l.pid, st.procs[l.pid], l.choice); }
  }

  // ---- races ----

  /** The session, with the retries that have read and not written. */
  datatype Race = Race(st: State, asked: map<nat, Asked>)

  /** A label of the machine (a retry among them takes its parts at once), or one part of a retry: the read of
      the session, the read of the row, the transaction. */
  datatype Part = Whole(l: Label) | Look(n: nat, step: nat) | Find(n: nat) | Write(n: nat)

  predicate Allowed(r: Race, h: Part) {
    match h
    case Whole(l) => Enabled(r.st, l)
    case Look(n, step) => n !in r.asked && !r.st.db.deleted && r.st.db.gen > 0 && step < STEPS
    case Find(n) => n in r.asked && RowIs(r.st.db.jobs, Key(r.asked[n].step, r.asked[n].gen), JobFailed)
    case Write(n) => n in r.asked && r.asked[n].found && Other(n) !in r.st.procs
  }

  function Next(r: Race, h: Part): Race
    requires Allowed(r, h)
  {
    match h
    case Whole(l) => r.(st := Apply(r.st, l))
    case Look(n, step) => r.(asked := r.asked[n := Asked(step, r.st.db.gen, false)])
    case Find(n) => r.(asked := r.asked[n := r.asked[n].(found := true)])
    case Write(n) => Race(WrittenLate(r.st, n, r.asked[n]), r.asked - {n})
  }

  predicate Possible(r: Race, hs: seq<Part>)
    decreases |hs|
  {
    hs == [] || (Allowed(r, hs[0]) && Possible(Next(r, hs[0]), hs[1..]))
  }

  function End(r: Race, hs: seq<Part>): Race
    requires Possible(r, hs)
    decreases |hs|
  {
    if hs == [] then r else End(Next(r, hs[0]), hs[1..])
  }

  const START := Race(INITIAL, map[])

  ghost predicate AskedOk(r: Race) { forall n :: n in r.asked ==> 1 <= r.asked[n].gen <= r.st.db.gen }

  lemma PartAlways(r: Race, h: Part)
    requires Always(r.st) && AskedOk(r) && Allowed(r, h)
    ensures Always(Next(r, h).st) && AskedOk(Next(r, h))
  {
    match h
    case Whole(l) => LabelAlways(r.st, l); GenGrows(r.st, l);
    case Look(_, _) =>
    case Find(_) =>
    case Write(n) => WriteAlways(r.st, n, r.asked[n]);
  }

  lemma {:induction false} RaceAlways(r: Race, hs: seq<Part>)
    requires Always(r.st) && AskedOk(r) && Possible(r, hs)
    ensures Always(End(r, hs).st) && AskedOk(End(r, hs))
    decreases |hs|
  {
    if hs != [] {
      PartAlways(r, hs[0]);
      RaceAlways(Next(r, hs[0]), hs[1..]);
    }
  }

  // ---- attainable states ----

  /** Some race leads there, with retries safe or unsafe, taken at once or part by part. */
  ghost predicate Attainable(st: State) { exists hs :: Possible(START, hs) && End(START, hs).st == st }

  lemma AttainableAlways(st: State)
    requires Attainable(st)
    ensures Always(st)
  {
    var hs :| Possible(START, hs) && End(START, hs).st == st;
    RaceAlways(START, hs);
  }

  function Wholes(ls: seq<Label>): seq<Part> { seq(|ls|, i requires 0 <= i < |ls| => Whole(ls[i])) }

  lemma {:induction false} RunIsPossible(r: Race, ls: seq<Label>)
    requires Run(r.st, ls)
    ensures Possible(r, Wholes(ls)) && End(r, Wholes(ls)) == Race(After(r.st, ls), r.asked)
    decreases |ls|
  {
    if ls != [] {
      RunIsPossible(Next(r, Whole(ls[0])), ls[1..]);
      assert Wholes(ls)[1..] == Wholes(ls[1..]);
    }
  }

  lemma ReachableAttainable(st: State)
    requires Reachable(st)
    ensures Attainable(st)
  {
    var ls :| Run(INITIAL, ls) && After(INITIAL, ls) == st;
    RunIsPossible(START, ls);
  }
}
