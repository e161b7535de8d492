/** Outbound call batches: ticks dial pending targets, outcomes close them, a cancellation skips the rest. */
module Dialer {
  import opened Wrappers

  datatype Status = PENDING | DIALING | IN_PROGRESS | COMPLETED | FAILED | NO_ANSWER | SKIPPED

  datatype BatchStatus = Draft | Scheduled | Running | Blocked | Finished | Cancelled

  /** A target row, with the number of times it was claimed and, beside the row, of calls placed to it. */
  datatype Target = Target(status: Status, attempts: nat, dials: nat)

  predicate InFlight(t: Target) { t.status.DIALING? || t.status.IN_PROGRESS? }

  predicate Open(t: Target) { t.status.PENDING? || InFlight(t) }

  predicate Untouched(t: Target) { t == Target(PENDING, 0, 0) }

  function Pending(ts: seq<Target>): set<nat> { set i: nat | i < |ts| && ts[i].status.PENDING? }

  function Flying(ts: seq<Target>): set<nat> { set i: nat | i < |ts| && InFlight(ts[i]) }

  predicate NoneOpen(ts: seq<Target>) { forall i :: 0 <= i < |ts| ==> !Open(ts[i]) }

  function Claimed(t: Target): Target { t.(status := DIALING, attempts := t.attempts + 1) }

  function Dialed(t: Target): Target { t.(dials := t.dials + 1) }

  function Failed(t: Target): Target { t.(status := FAILED) }

  /** The first pending target from i on. */
  function FirstPending(ts: seq<Target>, i: nat): (k: nat)
    requires i <= |ts|
    ensures i <= k <= |ts|
    ensures k < |ts| ==> ts[k].status.PENDING?
    ensures forall j :: i <= j < k ==> !ts[j].status.PENDING?
    decreases |ts| - i
  {
    if i == |ts| || ts[i].status.PENDING? then i else FirstPending(ts, i + 1)
  }

  /** Stuck dials count as failed. */
  function Unstuck(ts: seq<Target>, stuck: set<nat>): (r: seq<Target>)
    ensures |r| == |ts|
  {
    seq(|ts|, i requires 0 <= i < |ts| => if i in stuck && InFlight(ts[i]) then Failed(ts[i]) else ts[i])
  }

  function Skipped(ts: seq<Target>): (r: seq<Target>)
    ensures |r| == |ts|
  {
    seq(|ts|, i requires 0 <= i < |ts| => if ts[i].status.PENDING? then ts[i].(status := SKIPPED) else ts[i])
  }

  /** What placing a call came to: placed, refused, or the provider is unavailable. */
  datatype Answer = Placed | Refused | Unavailable

  function Slots(concurrency: nat, flying: nat): nat { if flying < concurrency then concurrency - flying else 0 }

  // ---- all interleavings ----

  /** Where a start, a tick or a cancellation stands. `turns` counts the turns of the claim loop since it began
      with `budget` pending targets. */
  datatype Pc =
    | Opening
    | Opened
    | Resume
    | Check
    | Block
    | Sweep
    | Count
    | Find(slots: nat, turns: nat, budget: nat)
    | Claim(next: nat, slots: nat, turns: nat, budget: nat)
    | Dial(next: nat, slots: nat, turns: nat, budget: nat)
    | Note(next: nat, answer: Answer, slots: nat, turns: nat, budget: nat)
    | Remaining
    | Finish
    | Skipping
    | Cancelling

  predicate IsTick(pc: Pc) { !pc.Opening? && !pc.Opened? && !pc.Skipping? && !pc.Cancelling? }

  /** The rows, the processes, and whether some tick has reported the batch completed, or some cancellation
      has skipped its pending targets. */
  datatype State = State(targets: seq<Target>, status: BatchStatus, concurrency: nat, procs: map<nat, Pc>,
                         reported: bool, skipped: bool)

  datatype Event =
    | BeginStart(p: nat)
    | CountPending(p: nat)
    | WriteStart(p: nat, later: bool, blocked: bool)
    | Begin(p: nat, due: bool)
    | WriteRunning(p: nat)
    | CheckReason(p: nat, blocked: bool)
    | WriteBlocked(p: nat)
    | SweepStuck(p: nat, stuck: set<nat>)
    | CountSlots(p: nat)
    | FindNext(p: nat)
    | ClaimNext(p: nat)
    | PlaceCall(p: nat, answer: Answer)
    | NoteCall(p: nat)
    | CountRemaining(p: nat)
    | FinishBatch(p: nat)
    | Outcome(i: nat, status: Status)
    | BeginCancel(p: nat)
    | SkipRest(p: nat)
    | EndCancel(p: nat)
    | Die(p: nat)

  predicate Enabled(s: State, e: Event) {
    match e
    case BeginStart(p) => p !in s.procs
    case CountPending(p) => p in s.procs && s.procs[p].Opening?
    case WriteStart(p, _, _) => p in s.procs && s.procs[p].Opened?
    case Begin(p, _) => p !in s.procs
    case WriteRunning(p) => p in s.procs && s.procs[p].Resume?
    case CheckReason(p, _) => p in s.procs && s.procs[p].Check?
    case WriteBlocked(p) => p in s.procs && s.procs[p].Block?
    case SweepStuck(p, _) => p in s.procs && s.procs[p].Sweep?
    case CountSlots(p) => p in s.procs && s.procs[p].Count?
    case FindNext(p) => p in s.procs && s.procs[p].Find?
    case ClaimNext(p) => p in s.procs && s.procs[p].Claim? && s.procs[p].next < |s.targets|
    case PlaceCall(p, _) => p in s.procs && s.procs[p].Dial? && s.procs[p].next < |s.targets|
    case NoteCall(p) => p in s.procs && s.procs[p].Note? && s.procs[p].next < |s.targets|
    case CountRemaining(p) => p in s.procs && s.procs[p].Remaining?
    case FinishBatch(p) => p in s.procs && s.procs[p].Finish?
    case Outcome(i, status) => i < |s.targets| && (status.COMPLETED? || status.FAILED? || status.NO_ANSWER?)
    case BeginCancel(p) => p !in s.procs
    case SkipRest(p) => p in s.procs && s.procs[p].Skipping?
    case EndCancel(p) => p in s.procs && s.procs[p].Cancelling?
    case Die(p) => p in s.procs
  }

  /** A start that begins: it needs a batch that was not started, was blocked, or is scheduled. */
  function BeginStartStep(s: State, p: nat): State {
    if s.status.Draft? || s.status.Blocked? || s.status.Scheduled? then s.(procs := s.procs[p := Opening]) else s
  }

  /** A tick that begins: it needs a batch that is running or due. */
  function BeginTick(s: State, p: nat, due: bool): State {
    if s.status.Running? then s.(procs := s.procs[p := Check])
    else if s.status.Scheduled? && due then s.(procs := s.procs[p := Resume])
    else s
  }

  function FindStep(s: State, p: nat, pc: Pc): State
    requires pc.Find?
  {
    var next := FirstPending(s.targets, 0);
    s.(procs := s.procs[p := if pc.slots == 0 || next == |s.targets| then Remaining
                             else Claim(next, pc.slots, pc.turns, pc.budget)])
  }

  /** The conditional claim: the loser looks again. */
  function ClaimStep(s: State, p: nat, pc: Pc): State
    requires pc.Claim? && pc.next < |s.targets|
  {
    if s.targets[pc.next].status.PENDING?
    then s.(targets := s.targets[pc.next := Claimed(s.targets[pc.next])],
            procs := s.procs[p := Dial(pc.next, if pc.slots > 0 then pc.slots - 1 else 0, pc.turns + 1, pc.budget)])
    else s.(procs := s.procs[p := Find(pc.slots, pc.turns + 1, pc.budget)])
  }

  function DialStep(s: State, p: nat, pc: Pc, answer: Answer): State
    requires pc.Dial? && pc.next < |s.targets|
  {
    s.(targets := s.targets[pc.next := Dialed(s.targets[pc.next])],
       procs := s.procs[p := Note(pc.next, answer, pc.slots, pc.turns, pc.budget)])
  }

  function NoteStep(s: State, p: nat, pc: Pc): State
    requires pc.Note? && pc.next < |s.targets|
  {
    var targets := if pc.answer.Placed? then s.targets else s.targets[pc.next := Failed(s.targets[pc.next])];
    if pc.answer.Unavailable? then s.(targets := targets, procs := s.procs[p := Block])
    else s.(targets := targets, procs := s.procs[p := Find(pc.slots, pc.turns, pc.budget)])
  }

  function OutcomeStep(s: State, i: nat, status: Status): State
    requires i < |s.targets|
  {
    if InFlight(s.targets[i]) then s.(targets := s.targets[i := s.targets[i].(status := status)]) else s
  }

  function BeginCancelStep(s: State, p: nat): State {
    if s.status.Finished? || s.status.Cancelled? then s
    else s.(procs := s.procs[p := Skipping])
  }

  function Apply(s: State, e: Event): State
    requires Enabled(s, e)
  {
    match e
    case BeginStart(p) => BeginStartStep(s, p)
    case CountPending(p) =>
      if Pending(s.targets) == {} then s.(procs := s.procs - {p}) else s.(procs := s.procs[p := Opened])
    case WriteStart(p, later, blocked) =>
      s.(status := if blocked then Blocked else if later then Scheduled else Running, procs := s.procs - {p})
    case Begin(p, due) => BeginTick(s, p, due)
    case WriteRunning(p) => s.(status := Running, procs := s.procs[p := Check])
    case CheckReason(p, blocked) => s.(procs := s.procs[p := if blocked then Block else Sweep])
    case WriteBlocked(p) => s.(status := Blocked, procs := s.procs - {p})
    case SweepStuck(p, stuck) => s.(targets := Unstuck(s.targets, stuck), procs := s.procs[p := Count])
    case CountSlots(p) =>
      s.(procs := s.procs[p := Find(Slots(s.concurrency, |Flying(s.targets)|), 0, |Pending(s.targets)|)])
    case FindNext(p) => FindStep(s, p, s.procs[p])
    case ClaimNext(p) => ClaimStep(s, p, s.procs[p])
    case PlaceCall(p, answer) => DialStep(s, p, s.procs[p], answer)
    case NoteCall(p) => NoteStep(s, p, s.procs[p])
    case CountRemaining(p) =>
      if NoneOpen(s.targets) then s.(reported := true, procs := s.procs[p := Finish]) else s.(procs := s.procs - {p})
    case FinishBatch(p) => s.(status := if s.status.Running? then Finished else s.status, procs := s.procs - {p})
    case Outcome(i, status) => OutcomeStep(s, i, status)
    case BeginCancel(p) => BeginCancelStep(s, p)
    case SkipRest(p) => s.(targets := Skipped(s.targets), skipped := true, procs := s.procs[p := Cancelling])
    case EndCancel(p) => s.(status := Cancelled, procs := s.procs - {p})
    case Die(p) => s.(procs := s.procs - {p})
  }

  predicate Legal(s: State, es: seq<Event>)
    decreases |es|
  {
    es == [] || (Enabled(s, es[0]) && Legal(Apply(s, es[0]), es[1..]))
  }

  function After(s: State, es: seq<Event>): State
    requires Legal(s, es)
    decreases |es|
  {
    if es == [] then s else After(Apply(s, es[0]), es[1..])
  }

  predicate Start(s: State) {
    && (forall i :: 0 <= i < |s.targets| ==> Untouched(s.targets[i])) && s.procs == map[] && s.status.Draft?
    && !s.reported && !s.skipped
  }

  // ---- the invariant ----

  /** A target is claimed at most once, pending only before, and dialed at most as often as claimed. */
  predicate TargetOk(t: Target) {
    t.dials <= t.attempts <= 1 && (t.attempts == 0 <==> t.status.PENDING? || t.status.SKIPPED?)
  }

  predicate TargetsOk(ts: seq<Target>) { forall i :: 0 <= i < |ts| ==> TargetOk(ts[i]) }

  /** A process about to dial has claimed its target and not dialed it. */
  predicate PcOk(pc: Pc, ts: seq<Target>) {
    && (pc.Claim? || pc.Dial? || pc.Note? ==> pc.next < |ts|)
    && (pc.Dial? ==> ts[pc.next].attempts == 1 && ts[pc.next].dials == 0)
    && (pc.Note? ==> ts[pc.next].attempts == 1)
  }

  predicate ProcsOk(procs: map<nat, Pc>, ts: seq<Target>) { forall p :: p in procs ==> PcOk(procs[p], ts) }

  /** No two processes are about to dial the same target. */
  predicate Exclusive(procs: map<nat, Pc>) {
    forall p, q :: p in procs && q in procs && procs[p].Dial? && procs[q].Dial? ==>
                     procs[p].next == procs[q].next ==> p == q
  }

  predicate Inv(s: State) {
    && TargetsOk(s.targets) && ProcsOk(s.procs, s.targets) && Exclusive(s.procs)
    && (s.reported ==> NoneOpen(s.targets))
    && (s.skipped ==> Pending(s.targets) == {})
    && (s.status.Cancelled? ==> s.skipped) && (s.status.Finished? ==> s.reported)
    && (forall p :: p in s.procs ==> WriterOk(s, s.procs[p]))
  }

  /** Who writes that the batch is over has seen to it. */
  predicate WriterOk(s: State, pc: Pc) { (pc.Cancelling? ==> s.skipped) && (pc.Finish? ==> s.reported) }

  /** What any step may do to a target: nothing leads back to pending, and a target that is not open stays so. */
  predicate Moves(t: Target, u: Target) {
    && (u.status.PENDING? ==> t.status.PENDING?)
    && (Open(u) ==> Open(t))
    && t.attempts <= u.attempts && t.dials <= u.dials
  }

  predicate AllMove(ts: seq<Target>, us: seq<Target>) {
    |ts| == |us| && forall i :: 0 <= i < |ts| ==> Moves(ts[i], us[i])
  }

  lemma StepMoves(s: State, e: Event)
    requires Inv(s) && Enabled(s, e)
    ensures AllMove(s.targets, Apply(s, e).targets)
  {
  }

  lemma StepTargetsOk(s: State, e: Event)
    requires Inv(s) && Enabled(s, e)
    ensures TargetsOk(Apply(s, e).targets)
  {
    if e.ClaimNext? || e.PlaceCall? || e.NoteCall? { assert TargetOk(s.targets[s.procs[e.p].next]); }
    if e.Outcome? { assert TargetOk(s.targets[e.i]); }
  }

  lemma ClaimerOk(s: State, p: nat)
    requires Inv(s) && Enabled(s, ClaimNext(p))
    ensures PcOk(ClaimStep(s, p, s.procs[p]).procs[p], ClaimStep(s, p, s.procs[p]).targets)
  {
    assert TargetOk(s.targets[s.procs[p].next]);
  }

  lemma MoverOk(s: State, e: Event, p: nat)
    requires Inv(s) && Enabled(s, e) && p in Apply(s, e).procs && !e.ClaimNext?
    requires p !in s.procs || s.procs[p] != Apply(s, e).procs[p]
    ensures PcOk(Apply(s, e).procs[p], Apply(s, e).targets)
  {
    if p in s.procs { assert PcOk(s.procs[p], s.targets); }
  }

  /** A process that does not move keeps its claim: nobody else dials its target. */
  lemma BystanderOk(s: State, e: Event, p: nat)
    requires Inv(s) && Enabled(s, e) && p in s.procs && p in Apply(s, e).procs
    requires s.procs[p] == Apply(s, e).procs[p]
    ensures PcOk(s.procs[p], Apply(s, e).targets)
  {
    assert PcOk(s.procs[p], s.targets);
    if e.ClaimNext? { assert TargetOk(s.targets[s.procs[e.p].next]); }
  }

  lemma StepProcsOk(s: State, e: Event)
    requires Inv(s) && Enabled(s, e)
    ensures ProcsOk(Apply(s, e).procs, Apply(s, e).targets)
  {
    var v := Apply(s, e);
    forall p | p in v.procs ensures PcOk(v.procs[p], v.targets) {
      if p in s.procs && s.procs[p] == v.procs[p] { BystanderOk(s, e, p); }
      else if e.ClaimNext? { ClaimerOk(s, p); }
      else { MoverOk(s, e, p); }
    }
  }

  lemma StepExclusive(s: State, e: Event)
    requires Inv(s) && Enabled(s, e)
    ensures Exclusive(Apply(s, e).procs)
  {
    if e.ClaimNext? {
      var next := s.procs[e.p].next;
      if s.targets[next].status.PENDING? {
        assert TargetOk(s.targets[next]);
        forall q | q in s.procs && s.procs[q].Dial? ensures s.procs[q].next != next {
          assert PcOk(s.procs[q], s.targets);
        }
      }
    }
  }

  lemma StepKeeps(s: State, e: Event)
    requires Inv(s) && Enabled(s, e)
    ensures Inv(Apply(s, e))
  {
    var v := Apply(s, e);
    StepMoves(s, e);
    StepTargetsOk(s, e);
    StepProcsOk(s, e);
    StepExclusive(s, e);
    ClosedStays(s.targets, v.targets);
    StepWriters(s, e);
  }

  lemma StepWriters(s: State, e: Event)
    requires Inv(s) && Enabled(s, e)
    ensures var v := Apply(s, e);
            && (v.status.Cancelled? ==> v.skipped) && (v.status.Finished? ==> v.reported)
            && forall p :: p in v.procs ==> WriterOk(v, v.procs[p])
  {
    var v := Apply(s, e);
    forall p | p in v.procs ensures WriterOk(v, v.procs[p]) {
      if p in s.procs { assert WriterOk(s, s.procs[p]); }
    }
    if e.EndCancel? || e.FinishBatch? { assert WriterOk(s, s.procs[e.p]); }
  }

  lemma ClosedStays(ts: seq<Target>, us: seq<Target>)
    requires AllMove(ts, us)
    ensures NoneOpen(ts) ==> NoneOpen(us)
    ensures Pending(us) <= Pending(ts)
  {
  }

  lemma {:induction false} RunKeeps(s: State, es: seq<Event>)
    requires Inv(s) && Legal(s, es)
    ensures Inv(After(s, es))
    decreases |es|
  {
    if es != [] {
      StepKeeps(s, es[0]);
      RunKeeps(Apply(s, es[0]), es[1..]);
    }
  }

  // ---- main results over all interleavings ----

  lemma StartInv(s: State)
    requires Start(s)
    ensures Inv(s)
  {
  }

  lemma {:induction false} RunMoves(s: State, es: seq<Event>)
    requires Inv(s) && Legal(s, es)
    ensures AllMove(s.targets, After(s, es).targets)
    decreases |es|
  {
    if es != [] {
      var v := Apply(s, es[0]);
      StepMoves(s, es[0]);
      StepKeeps(s, es[0]);
      RunMoves(v, es[1..]);
      MovesCompose(s.targets, v.targets, After(v, es[1..]).targets);
    }
  }

  lemma MovesCompose(ts: seq<Target>, us: seq<Target>, vs: seq<Target>)
    requires AllMove(ts, us) && AllMove(us, vs)
    ensures AllMove(ts, vs)
  {
  }

  /** Over all interleavings of overlapping ticks, outcomes, stuck sweeps and cancellations each target is
      dialed at most once, one that left pending never returns to it, and one that is closed stays closed. */
  lemma DialedAtMostOnce(s: State, es: seq<Event>, more: seq<Event>)
    requires Start(s) && Legal(s, es) && Legal(After(s, es), more)
    ensures var t, u := After(s, es).targets, After(After(s, es), more).targets;
            && |t| == |u|
            && (forall i :: 0 <= i < |t| ==> t[i].dials <= t[i].attempts <= 1)
            && (forall i :: 0 <= i < |t| && !t[i].status.PENDING? ==> !u[i].status.PENDING?)
            && (forall i :: 0 <= i < |t| && !Open(t[i]) ==> !Open(u[i]))
  {
    StartInv(s);
    RunKeeps(s, es);
    RunMoves(After(s, es), more);
    var t, u := After(s, es).targets, After(After(s, es), more).targets;
    forall i | 0 <= i < |t| ensures t[i].dials <= t[i].attempts <= 1 && Moves(t[i], u[i]) { assert TargetOk(t[i]); }
  }

  /** A tick reports the batch completed only when no target is pending, dialing or in progress, and none ever
      is again. */
  lemma CompletedMeansClosed(s: State, es: seq<Event>)
    requires Start(s) && Legal(s, es)
    ensures After(s, es).reported ==>
              forall t :: t in After(s, es).targets ==>
                            t.status.COMPLETED? || t.status.FAILED? || t.status.NO_ANSWER? || t.status.SKIPPED?
  {
    StartInv(s);
    RunKeeps(s, es);
  }

  /** Nothing is claimed once a cancellation has skipped what was pending. */
  lemma {:induction false} NothingAfterCancel(s: State, es: seq<Event>)
    requires Inv(s) && s.skipped && Legal(s, es)
    ensures |After(s, es).targets| == |s.targets|
    ensures forall i :: 0 <= i < |s.targets| ==> After(s, es).targets[i].attempts == s.targets[i].attempts
    decreases |es|
  {
    if es != [] {
      var v := Apply(s, es[0]);
      StepKeeps(s, es[0]);
      StepMoves(s, es[0]);
      if es[0].ClaimNext? {
        assert s.procs[es[0].p].next !in Pending(s.targets);
      }
      NothingAfterCancel(v, es[1..]);
    }
  }

  // ---- from state to state ----

  ghost predicate Reaches(s: State, t: State) { exists es :: Legal(s, es) && After(s, es) == t }

  lemma ReachesNothing(s: State)
    ensures Reaches(s, s)
  {
    assert Legal(s, []) && After(s, []) == s;
  }

  lemma ReachesOne(s: State, e: Event)
    requires Enabled(s, e)
    ensures Reaches(s, Apply(s, e))
  {
    var v := Apply(s, e);
    assert Legal(v, []) && After(v, []) == v && [e][1..] == [];
    assert Legal(s, [e]) && After(s, [e]) == v;
  }

  lemma {:induction false} AfterAppend(s: State, es: seq<Event>, more: seq<Event>)
    requires Legal(s, es) && Legal(After(s, es), more)
    ensures Legal(s, es + more) && After(s, es + more) == After(After(s, es), more)
    decreases |es|
  {
    if es == [] {
      assert es + more == more;
    } else {
      assert (es + more)[1..] == es[1..] + more;
      AfterAppend(Apply(s, es[0]), es[1..], more);
    }
  }

  lemma ReachesThen(s: State, t: State, u: State)
    requires Reaches(s, t) && Reaches(t, u)
    ensures Reaches(s, u)
  {
    var es :| Legal(s, es) && After(s, es) == t;
    var more :| Legal(t, more) && After(t, more) == u;
    AfterAppend(s, es, more);
  }

  // ---- whether a batch that is over stays so ----

  predicate Over(status: BatchStatus) { status.Finished? || status.Cancelled? }

  /** The process at pc can still write another status, whatever the status is by then: it has read an older one. */
  predicate MayOverwrite(pc: Pc, status: BatchStatus) {
    || pc.Opened? || pc.Resume? || pc.Check? || pc.Block? || pc.Dial? || (pc.Note? && pc.answer.Unavailable?)
    || (status.Finished? && (pc.Skipping? || pc.Cancelling?))
  }

  predicate NobodyOverwrites(s: State) { forall p :: p in s.procs ==> !MayOverwrite(s.procs[p], s.status) }

  lemma OverHasNoPending(s: State)
    requires Inv(s) && Over(s.status)
    ensures Pending(s.targets) == {}
  {
    assert s.reported && NoneOpen(s.targets) ==> Pending(s.targets) == {};
  }

  lemma StepStaysOver(s: State, e: Event)
    requires Inv(s) && Over(s.status) && NobodyOverwrites(s) && Enabled(s, e)
    ensures Apply(s, e).status == s.status && NobodyOverwrites(Apply(s, e))
  {
    OverHasNoPending(s);
    if e.ClaimNext? { assert s.procs[e.p].next !in Pending(s.targets); }
  }

  lemma {:induction false} RunStaysOver(s: State, es: seq<Event>)
    requires Inv(s) && Over(s.status) && NobodyOverwrites(s) && Legal(s, es)
    ensures After(s, es).status == s.status
    decreases |es|
  {
    if es != [] {
      StepStaysOver(s, es[0]);
      StepKeeps(s, es[0]);
      RunStaysOver(Apply(s, es[0]), es[1..]);
    }
  }

  lemma OneMore(s: State, e: Event, es: seq<Event>)
    requires Enabled(s, e) && Legal(Apply(s, e), es)
    ensures Legal(s, [e] + es) && After(s, [e] + es) == After(Apply(s, e), es)
  {
    assert ([e] + es)[1..] == es;
  }

  lemma NoEvent(s: State, es: seq<Event>)
    requires es == []
    ensures Legal(s, es) && After(s, es) == s
  {
  }

  function StepsToWrite(pc: Pc): nat {
    if pc.Dial? then 2 else if pc.Note? || pc.Check? || pc.Skipping? then 1 else 0
  }

  /** A process about to write some status writes it. */
  lemma Overwrites(s: State, p: nat) returns (es: seq<Event>)
    requires Inv(s) && Over(s.status) && p in s.procs && MayOverwrite(s.procs[p], s.status)
    ensures Legal(s, es) && After(s, es).status != s.status
    decreases StepsToWrite(s.procs[p])
  {
    var pc := s.procs[p];
    assert PcOk(pc, s.targets);
    var e := match pc
      case Opened => WriteStart(p, false, false)
      case Resume => WriteRunning(p)
      case Check => CheckReason(p, true)
      case Block => WriteBlocked(p)
      case Dial(_, _, _, _) => PlaceCall(p, Unavailable)
      case Note(_, _, _, _, _) => NoteCall(p)
      case Skipping => SkipRest(p)
      case _ => EndCancel(p);
    var v := Apply(s, e);
    StepKeeps(s, e);
    if v.status != s.status {
      NoEvent(v, []);
      es := [];
    } else {
      es := Overwrites(v, p);
    }
    OneMore(s, e, es);
    es := [e] + es;
  }

  ghost predicate StaysOver(s: State) { forall es :: Legal(s, es) ==> After(s, es).status == s.status }

  /** Whatever happened before, a batch that is completed or cancelled stays so in every run exactly when no
      process is left that read an older status and can still write: a start that has counted its targets, a tick
      that resumes, checks, dials or notes an unavailable provider, or, over a completion, a cancellation. */
  lemma OverStaysExactly(s: State, es: seq<Event>)
    requires Start(s) && Legal(s, es) && Over(After(s, es).status)
    ensures StaysOver(After(s, es)) <==> NobodyOverwrites(After(s, es))
  {
    StartInv(s);
    RunKeeps(s, es);
    var t := After(s, es);
    if NobodyOverwrites(t) {
      forall more | Legal(t, more) ensures After(t, more).status == t.status { RunStaysOver(t, more); }
    } else {
      var p :| p in t.procs && MayOverwrite(t.procs[p], t.status);
      var more := Overwrites(t, p);
    }
  }

  /** A batch of one target, drafted. */
  const DRAFTED := State([Target(PENDING, 0, 0)], Draft, 1, map[], false, false)

  /** It is started, a tick begins, and it is cancelled before the tick has checked whether it can dial. */
  const CANCELLED := DRAFTED.(targets := [Target(SKIPPED, 0, 0)], status := Cancelled, procs := map[1 := Check],
                              skipped := true)

  const RUNNING := DRAFTED.(status := Running)

  lemma RunningReached()
    ensures Start(DRAFTED) && Reaches(DRAFTED, RUNNING)
  {
    var opening, counted := DRAFTED.(procs := map[0 := Opening]), DRAFTED.(procs := map[0 := Opened]);
    ReachesNothing(DRAFTED);
    ReachesNext(DRAFTED, DRAFTED, BeginStart(0), opening);
    assert 0 in Pending(DRAFTED.targets);
    ReachesNext(DRAFTED, opening, CountPending(0), counted);
    ReachesNext(DRAFTED, counted, WriteStart(0, false, false), RUNNING);
  }

  const SKIPPING := RUNNING.(procs := map[1 := Check, 2 := Skipping])

  lemma SkippingReached()
    ensures Reaches(DRAFTED, SKIPPING)
  {
    RunningReached();
    var checking := RUNNING.(procs := map[1 := Check]);
    ReachesNext(DRAFTED, RUNNING, Begin(1, true), checking);
    ReachesNext(DRAFTED, checking, BeginCancel(2), SKIPPING);
  }

  lemma CancelledReached()
    ensures Start(DRAFTED) && Reaches(DRAFTED, CANCELLED)
  {
    SkippingReached();
    var cancelling := CANCELLED.(status := Running, procs := map[1 := Check, 2 := Cancelling]);
    assert Skipped(DRAFTED.targets) == CANCELLED.targets;
    ReachesNext(DRAFTED, SKIPPING, SkipRest(2), cancelling);
    ReachesNext(DRAFTED, cancelling, EndCancel(2), CANCELLED);
  }

  lemma ReachesNext(s: State, t: State, e: Event, u: State)
    requires Reaches(s, t) && Enabled(t, e) && Apply(t, e) == u
    ensures Reaches(s, u)
  {
    ReachesOne(t, e);
    ReachesThen(s, t, u);
  }

  /** A cancelled batch can be overwritten as blocked by the tick that was under way. */
  lemma CancelledIsOverwritten()
    ensures Start(DRAFTED) && Reaches(DRAFTED, CANCELLED) && CANCELLED.status.Cancelled? && !StaysOver(CANCELLED)
  {
    CancelledReached();
    var es :| Legal(DRAFTED, es) && After(DRAFTED, es) == CANCELLED;
    assert MayOverwrite(CANCELLED.procs[1], Cancelled);
    OverStaysExactly(DRAFTED, es);
  }

  // ---- the claim loop ends ----

  /** Each turn of a claim loop has cost one pending target: its own claim, or someone else's. */
  predicate WithinBudget(pc: Pc, ts: seq<Target>) {
    match pc
    case Find(_, turns, budget) => turns + |Pending(ts)| <= budget
    case Claim(next, _, turns, budget) =>
      turns + |Pending(ts)| + (if next in Pending(ts) then 0 else 1) <= budget
    case Dial(_, _, turns, budget) => turns + |Pending(ts)| <= budget
    case Note(_, _, _, turns, budget) => turns + |Pending(ts)| <= budget
    case _ => true
  }

  predicate AllWithin(s: State) { forall p :: p in s.procs ==> WithinBudget(s.procs[p], s.targets) }

  lemma SubsetSize(a: set<nat>, b: set<nat>)
    requires a <= b
    ensures |a| <= |b|
  {
    assert b == a + (b - a);
  }

  /** A process that does not move stays within its budget: a pending target it is about to claim can only be
      lost to someone else at the price of one pending target. */
  lemma BystanderWithin(pc: Pc, ts: seq<Target>, us: seq<Target>)
    requires WithinBudget(pc, ts) && AllMove(ts, us)
    ensures WithinBudget(pc, us)
  {
    ClosedStays(ts, us);
    SubsetSize(Pending(us), Pending(ts));
    if pc.Claim? && pc.next in Pending(ts) && pc.next !in Pending(us) {
      SubsetSize(Pending(us), Pending(ts) - {pc.next});
    }
  }

  lemma ClaimWithin(s: State, p: nat)
    requires Inv(s) && p in s.procs && s.procs[p].Claim? && s.procs[p].next < |s.targets|
             && WithinBudget(s.procs[p], s.targets)
    ensures WithinBudget(ClaimStep(s, p, s.procs[p]).procs[p], ClaimStep(s, p, s.procs[p]).targets)
  {
    var next := s.procs[p].next;
    if s.targets[next].status.PENDING? {
      assert Pending(s.targets[next := Claimed(s.targets[next])]) == Pending(s.targets) - {next};
    }
  }

  lemma MoverWithin(s: State, e: Event, p: nat)
    requires Inv(s) && AllWithin(s) && Enabled(s, e) && p in Apply(s, e).procs && !e.ClaimNext?
    requires p !in s.procs || s.procs[p] != Apply(s, e).procs[p]
    ensures WithinBudget(Apply(s, e).procs[p], Apply(s, e).targets)
  {
    StepMoves(s, e);
    ClosedStays(s.targets, Apply(s, e).targets);
    SubsetSize(Pending(Apply(s, e).targets), Pending(s.targets));
    if p in s.procs { assert WithinBudget(s.procs[p], s.targets); }
  }

  lemma StepWithin(s: State, e: Event)
    requires Inv(s) && AllWithin(s) && Enabled(s, e)
    ensures AllWithin(Apply(s, e))
  {
    var v := Apply(s, e);
    StepMoves(s, e);
    forall p | p in v.procs ensures WithinBudget(v.procs[p], v.targets) {
      if p in s.procs && s.procs[p] == v.procs[p] {
        BystanderWithin(s.procs[p], s.targets, v.targets);
      } else if e.ClaimNext? {
        ClaimWithin(s, p);
      } else {
        MoverWithin(s, e, p);
      }
    }
  }

  lemma {:induction false} RunWithin(s: State, es: seq<Event>)
    requires Inv(s) && AllWithin(s) && Legal(s, es)
    ensures AllWithin(After(s, es))
    decreases |es|
  {
    if es != [] {
      StepWithin(s, es[0]);
      StepKeeps(s, es[0]);
      RunWithin(Apply(s, es[0]), es[1..]);
    }
  }

  /** Whatever the others do, a tick's claim loop makes at most as many turns as there were pending targets
      when it began. */
  lemma ClaimLoopEnds(s: State, es: seq<Event>, p: nat)
    requires Start(s) && Legal(s, es) && p in After(s, es).procs
    ensures var pc := After(s, es).procs[p]; pc.Find? || pc.Claim? || pc.Dial? || pc.Note? ==> pc.turns <= pc.budget
  {
    StartInv(s);
    RunWithin(s, es);
    assert WithinBudget(After(s, es).procs[p], After(s, es).targets);
  }

  // ---- calls in flight, when ticks do not overlap ----

  predicate Serial(s: State, es: seq<Event>)
    requires Legal(s, es)
    decreases |es|
  {
    es == []
    || ((es[0].Begin? ==> forall p :: p in s.procs ==> !IsTick(s.procs[p])) && Serial(Apply(s, es[0]), es[1..]))
  }

  predicate OneTick(procs: map<nat, Pc>) {
    forall p, q :: p in procs && q in procs && IsTick(procs[p]) && IsTick(procs[q]) ==> p == q
  }

  /** The free slots a tick still believes in are free. */
  predicate SlotsOk(pc: Pc, flying: nat, concurrency: nat) {
    pc.Find? || pc.Claim? || pc.Dial? || pc.Note? ==> flying + pc.slots <= concurrency && (pc.Claim? ==> pc.slots > 0)
  }

  predicate Limited(s: State) {
    && OneTick(s.procs)
    && |Flying(s.targets)| <= s.concurrency
    && forall p :: p in s.procs ==> SlotsOk(s.procs[p], |Flying(s.targets)|, s.concurrency)
  }

  lemma ClaimFlies(ts: seq<Target>, next: nat)
    requires next < |ts| && ts[next].status.PENDING?
    ensures |Flying(ts[next := Claimed(ts[next])])| == |Flying(ts)| + 1
  {
    assert Flying(ts[next := Claimed(ts[next])]) == Flying(ts) + {next};
  }

  lemma OthersLand(s: State, e: Event)
    requires Inv(s) && Enabled(s, e) && !e.ClaimNext?
    ensures |Flying(Apply(s, e).targets)| <= |Flying(s.targets)|
  {
    var v := Apply(s, e);
    assert |v.targets| == |s.targets|;
    SubsetSize(Flying(v.targets), Flying(s.targets));
  }

  lemma ClaimLimited(s: State, p: nat)
    requires Inv(s) && Limited(s) && Enabled(s, ClaimNext(p))
    ensures Limited(Apply(s, ClaimNext(p)))
  {
    var pc := s.procs[p];
    assert SlotsOk(pc, |Flying(s.targets)|, s.concurrency) && IsTick(pc);
    if s.targets[pc.next].status.PENDING? { ClaimFlies(s.targets, pc.next); }
  }

  lemma TickStays(s: State, e: Event, p: nat)
    requires Enabled(s, e) && !e.Begin? && p in Apply(s, e).procs && IsTick(Apply(s, e).procs[p])
    ensures p in s.procs && IsTick(s.procs[p])
  {
  }

  lemma StepOneTick(s: State, e: Event)
    requires OneTick(s.procs) && Enabled(s, e) && (e.Begin? ==> forall p :: p in s.procs ==> !IsTick(s.procs[p]))
    ensures OneTick(Apply(s, e).procs)
  {
    var v := Apply(s, e);
    if !e.Begin? {
      forall p | p in v.procs && IsTick(v.procs[p]) ensures p in s.procs && IsTick(s.procs[p]) { TickStays(s, e, p); }
    }
  }

  lemma StepLimited(s: State, e: Event)
    requires Inv(s) && Limited(s) && Enabled(s, e) && (e.Begin? ==> forall p :: p in s.procs ==> !IsTick(s.procs[p]))
    ensures Limited(Apply(s, e))
  {
    var v := Apply(s, e);
    StepOneTick(s, e);
    if e.ClaimNext? {
      ClaimLimited(s, e.p);
    } else {
      OthersLand(s, e);
      forall p | p in v.procs ensures SlotsOk(v.procs[p], |Flying(v.targets)|, v.concurrency) {
        if p in s.procs { assert SlotsOk(s.procs[p], |Flying(s.targets)|, s.concurrency); }
      }
    }
  }

  lemma {:induction false} RunLimited(s: State, es: seq<Event>)
    requires Inv(s) && Limited(s) && Legal(s, es) && Serial(s, es)
    ensures |Flying(After(s, es).targets)| <= s.concurrency
    decreases |es|
  {
    if es != [] {
      StepLimited(s, es[0]);
      StepKeeps(s, es[0]);
      RunLimited(Apply(s, es[0]), es[1..]);
    }
  }

  /** When ticks do not overlap, the calls in flight never exceed the batch's concurrency, even if ticks die
      anywhere and outcomes and cancellations come at any time. */
  lemma ConcurrencyIsKept(s: State, es: seq<Event>)
    requires Start(s) && Legal(s, es) && Serial(s, es)
    ensures |Flying(After(s, es).targets)| <= s.concurrency
  {
    StartInv(s);
    assert Flying(s.targets) == {};
    RunLimited(s, es);
  }
}
