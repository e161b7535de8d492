/** Outbound call batches in the form of the service: a batch and its rows updated in place. Each method is proved to
    be a run of the machine, taken alone. */
module DialerService {
  import opened Wrappers
  import opened Dialer

  // ---- one tick on its own ----

  /** The claim loop's result: the rows, the calls placed, and whether the provider became unavailable. */
  datatype Loop = Loop(targets: seq<Target>, dialed: nat, unavailable: bool)

  function Called(t: Target, answer: Answer): Target {
    var u := Dialed(Claimed(t));
    if answer.Placed? then u else Failed(u)
  }

  /** Dial the first pending targets, in order, while there are slots. */
  function DialAll(ts: seq<Target>, slots: nat, dialed: nat, answers: nat -> Answer): Loop
    decreases slots
  {
    var next := FirstPending(ts, 0);
    if slots == 0 || next == |ts| then Loop(ts, dialed, false)
    else
      var us := ts[next := Called(ts[next], answers(next))];
      if answers(next).Unavailable? then Loop(us, dialed, true)
      else DialAll(us, slots - 1, dialed + if answers(next).Placed? then 1 else 0, answers)
  }

  function Ticked(ts: seq<Target>, concurrency: nat, stuck: set<nat>, answers: nat -> Answer): Loop {
    var us := Unstuck(ts, stuck);
    DialAll(us, Slots(concurrency, |Flying(us)|), 0, answers)
  }

  // ---- what a tick does to each target ----

  function PendingBefore(ts: seq<Target>, i: nat): nat
    requires i <= |ts|
  {
    if i == 0 then 0 else PendingBefore(ts, i - 1) + if ts[i - 1].status.PENDING? then 1 else 0
  }

  /** The loop calls target i: it is pending, among the first `slots` of these, and none before it found the
      provider unavailable. */
  predicate Calls(ts: seq<Target>, slots: nat, answers: nat -> Answer, i: nat)
    requires i < |ts|
  {
    && ts[i].status.PENDING? && PendingBefore(ts, i) < slots
    && forall j :: 0 <= j < i && ts[j].status.PENDING? ==> !answers(j).Unavailable?
  }

  lemma {:induction false} NoneBefore(ts: seq<Target>, i: nat)
    requires i <= FirstPending(ts, 0)
    ensures PendingBefore(ts, i) == 0
  {
    if i > 0 { NoneBefore(ts, i - 1); }
  }

  /** Without its first pending target, each later one has one fewer before it. */
  lemma {:induction false} OneFewer(ts: seq<Target>, next: nat, t: Target, i: nat)
    requires next == FirstPending(ts, 0) && next < i <= |ts| && !t.status.PENDING?
    ensures PendingBefore(ts, i) == PendingBefore(ts[next := t], i) + 1
  {
    NoneBefore(ts, next);
    SameBefore(ts, next, t, next);
    if i > next + 1 { OneFewer(ts, next, t, i - 1); }
  }

  lemma {:induction false} SameBefore(ts: seq<Target>, next: nat, t: Target, i: nat)
    requires i <= next < |ts|
    ensures PendingBefore(ts, i) == PendingBefore(ts[next := t], i)
  {
    if i > 0 { SameBefore(ts, next, t, i - 1); }
  }

  /** Which targets the rest of the loop calls. */
  lemma CallsNext(ts: seq<Target>, slots: nat, answers: nat -> Answer, t: Target, i: nat)
    requires i < |ts| && slots > 0 && !t.status.PENDING?
    requires FirstPending(ts, 0) < |ts|
    ensures var next := FirstPending(ts, 0);
            Calls(ts, slots, answers, i) <==>
            i == next || (!answers(next).Unavailable? && Calls(ts[next := t], slots - 1, answers, i))
  {
    var next := FirstPending(ts, 0);
    NoneBefore(ts, next);
    if i > next {
      OneFewer(ts, next, t, i);
      var us := ts[next := t];
      assert forall j :: 0 <= j < i && j != next ==> us[j] == ts[j];
    }
  }

  /** The loop calls exactly those targets, each once: the row is claimed, and failed unless the call was placed. It
      counts the placed ones, and stops when the provider was unavailable. */
  lemma {:induction false} LoopExactly(ts: seq<Target>, slots: nat, dialed: nat, answers: nat -> Answer)
    ensures var loop := DialAll(ts, slots, dialed, answers);
            && |loop.targets| == |ts|
            && (forall i :: 0 <= i < |ts| ==>
                  loop.targets[i] == if Calls(ts, slots, answers, i)
                                     then Target(if answers(i).Placed? then DIALING else FAILED,
                                                 ts[i].attempts + 1, ts[i].dials + 1)
                                     else ts[i])
            && (loop.unavailable <==>
                  exists i :: 0 <= i < |ts| && Calls(ts, slots, answers, i) && answers(i).Unavailable?)
    decreases slots
  {
    var next := FirstPending(ts, 0);
    if slots > 0 && next < |ts| {
      var t := Called(ts[next], answers(next));
      var us := ts[next := t];
      forall i | 0 <= i < |ts|
        ensures Calls(ts, slots, answers, i) <==>
                i == next || (!answers(next).Unavailable? && Calls(us, slots - 1, answers, i))
      {
        CallsNext(ts, slots, answers, t, i);
      }
      if !answers(next).Unavailable? {
        LoopExactly(us, slots - 1, dialed + if answers(next).Placed? then 1 else 0, answers);
      }
    } else {
      forall i | 0 <= i < |ts| ensures !Calls(ts, slots, answers, i) {}
    }
  }

  /** How many calls the loop places. */
  lemma {:induction false} LoopCounts(ts: seq<Target>, slots: nat, dialed: nat, answers: nat -> Answer)
    ensures DialAll(ts, slots, dialed, answers).dialed
            == dialed + |set i: nat | i < |ts| && Calls(ts, slots, answers, i) && answers(i).Placed?|
    decreases slots
  {
    var placed := set i: nat | i < |ts| && Calls(ts, slots, answers, i) && answers(i).Placed?;
    var next := FirstPending(ts, 0);
    if slots > 0 && next < |ts| {
      var t := Called(ts[next], answers(next));
      var us := ts[next := t];
      var rest := set i: nat | i < |us| && Calls(us, slots - 1, answers, i) && answers(i).Placed?;
      forall i: nat | i < |ts|
        ensures Calls(ts, slots, answers, i) <==>
                i == next || (!answers(next).Unavailable? && Calls(us, slots - 1, answers, i))
      {
        CallsNext(ts, slots, answers, t, i);
      }
      if answers(next).Unavailable? {
        assert placed == {};
      } else {
        LoopCounts(us, slots - 1, dialed + if answers(next).Placed? then 1 else 0, answers);
        assert placed == if answers(next).Placed? then rest + {next} else rest;
      }
    } else {
      assert placed == {};
    }
  }

  /** Before the loop a tick fails the stuck targets in flight, and then has one slot for each call that fits into
      the concurrency. */
  lemma SweepExactly(ts: seq<Target>, stuck: set<nat>, concurrency: nat)
    ensures forall i :: 0 <= i < |ts| ==>
              Unstuck(ts, stuck)[i] == if i in stuck && (ts[i].status.DIALING? || ts[i].status.IN_PROGRESS?)
                                       then Target(FAILED, ts[i].attempts, ts[i].dials) else ts[i]
    ensures Flying(ts) == set i: nat | i < |ts| && (ts[i].status.DIALING? || ts[i].status.IN_PROGRESS?)
    ensures Slots(concurrency, |Flying(ts)|) + |Flying(ts)| >= concurrency
    ensures Slots(concurrency, |Flying(ts)|) > 0 ==> Slots(concurrency, |Flying(ts)|) + |Flying(ts)| == concurrency
  {
  }

  /** A cancellation skips the pending targets and no others. */
  lemma SkipExactly(ts: seq<Target>)
    ensures forall i :: 0 <= i < |ts| ==>
              Skipped(ts)[i] == if ts[i].status.PENDING? then Target(SKIPPED, ts[i].attempts, ts[i].dials) else ts[i]
  {
  }

  /** The batch and its rows in place. */
  class Batch {
    var targets: seq<Target>
    var status: BatchStatus
    const concurrency: nat

    constructor (concurrency: nat, count: nat)
      ensures this.concurrency == concurrency && status == Draft && targets == seq(count, _ => Target(PENDING, 0, 0))
    {
      this.concurrency, status, targets := concurrency, Draft, seq(count, _ => Target(PENDING, 0, 0));
    }

    /** start, with nothing else going on. */
    method Start(later: bool, blocked: bool) returns (ok: bool)
      modifies this
      ensures targets == old(targets)
      ensures ok <==> && (old(status).Draft? || old(status).Blocked? || old(status).Scheduled?)
                      && Pending(old(targets)) != {}
      ensures status == if !ok then old(status) else if blocked then Blocked else if later then Scheduled else Running
    {
      if !(status.Draft? || status.Blocked? || status.Scheduled?) {
        return false;
      }
      if FirstPending(targets, 0) == |targets| {
        return false;
      }
      assert FirstPending(targets, 0) in Pending(targets);
      status := if blocked then Blocked else if later then Scheduled else Running;
      return true;
    }

    /** tick, with nothing else going on. A scheduled batch needs to be due. */
    method Tick(due: bool, blocked: bool, stuck: set<nat>, answers: nat -> Answer) returns (dialed: nat)
      modifies this
      ensures var ready := old(status).Running? || (old(status).Scheduled? && due);
              var loop := Ticked(old(targets), concurrency, stuck, answers);
              && targets == (if ready && !blocked then loop.targets else old(targets))
              && dialed == (if ready && !blocked then loop.dialed else 0)
              && status == if !ready then old(status)
                           else if blocked || loop.unavailable then Blocked
                           else if NoneOpen(loop.targets) then Finished
                           else Running
    {
      dialed := 0;
      if !(status.Running? || status.Scheduled?) {
        return;
      }
      if status.Scheduled? {
        if !due {
          return;
        }
        status := Running;
      }
      if blocked {
        status := Blocked;
        return;
      }
      targets := Unstuck(targets, stuck);
      var unavailable;
      dialed, unavailable := DialLoop(Slots(concurrency, |Flying(targets)|), answers);
      if unavailable {
        status := Blocked;
      } else if NoneOpen(targets) {
        status := Finished;
      }
    }

    /** The claim loop of a tick: it leaves off when the slots or the pending targets run out, or when the provider
        is unavailable. */
    method DialLoop(free: nat, answers: nat -> Answer) returns (dialed: nat, unavailable: bool)
      modifies this`targets
      ensures Loop(targets, dialed, unavailable) == DialAll(old(targets), free, 0, answers)
    {
      var slots := free;
      dialed, unavailable := 0, false;
      while slots > 0
        invariant DialAll(targets, slots, dialed, answers) == DialAll(old(targets), free, 0, answers)
      {
        var next := FirstPending(targets, 0);
        if next == |targets| {
          break;
        }
        slots := slots - 1;
        Call(next, answers(next));
        if answers(next).Placed? {
          dialed := dialed + 1;
        } else if answers(next).Unavailable? {
          unavailable := true;
          return;
        }
      }
    }

    /** Claim a target, place the call and note a call that failed. */
    method Call(next: nat, answer: Answer)
      requires next < |targets|
      modifies this`targets
      ensures targets == old(targets)[next := Called(old(targets)[next], answer)]
    {
      targets := targets[next := Claimed(targets[next])];
      targets := targets[next := Dialed(targets[next])];
      if !answer.Placed? {
        targets := targets[next := Failed(targets[next])];
      }
    }

    /** cancel */
    method Cancel()
      modifies this
      ensures if old(status).Finished? || old(status).Cancelled? then targets == old(targets) && status == old(status)
              else targets == Skipped(old(targets)) && status == Cancelled
    {
      if status.Finished? || status.Cancelled? {
        return;
      }
      targets := Skipped(targets);
      status := Cancelled;
    }

    /** onCallOutcome */
    method OnCallOutcome(i: nat, outcome: Status)
      requires i < |targets|
      modifies this
      ensures status == old(status)
      ensures targets == if old(targets)[i].status.DIALING? || old(targets)[i].status.IN_PROGRESS?
                         then old(targets)[i := old(targets)[i].(status := outcome)] else old(targets)
    {
      if InFlight(targets[i]) {
        targets := targets[i := targets[i].(status := outcome)];
      }
    }
  }

  // ---- such a tick is a run of the machine ----

  /** The state with process p at pc. */
  function Put(s: State, p: nat, pc: Pc): State { s.(procs := s.procs[p := pc]) }

  /** One turn of the loop: find, claim, dial, note. */
  lemma TurnIsARun(s: State, p: nat, pc: Pc, answer: Answer)
    requires pc.Find? && pc.slots > 0 && FirstPending(s.targets, 0) < |s.targets|
    ensures var next := FirstPending(s.targets, 0);
            var us := s.targets[next := Called(s.targets[next], answer)];
            Reaches(Put(s, p, pc),
                    if answer.Unavailable? then s.(targets := us, status := Blocked, procs := s.procs - {p})
                    else Put(s.(targets := us), p, Find(pc.slots - 1, pc.turns + 1, pc.budget)))
  {
    var next := FirstPending(s.targets, 0);
    var claimed := s.targets[next := Claimed(s.targets[next])];
    var dialing := Dial(next, pc.slots - 1, pc.turns + 1, pc.budget);
    var us := s.targets[next := Called(s.targets[next], answer)];
    assert us == if answer.Placed? then claimed[next := Dialed(claimed[next])]
                 else claimed[next := Failed(Dialed(claimed[next]))];
    ClaimPhase(s, p, pc);
    CallPhase(s.(targets := claimed), p, dialing, answer);
    ReachesThen(Put(s, p, pc), Put(s.(targets := claimed), p, dialing),
                if answer.Unavailable? then s.(targets := us, status := Blocked, procs := s.procs - {p})
                else Put(s.(targets := us), p, Find(pc.slots - 1, pc.turns + 1, pc.budget)));
  }

  lemma ClaimPhase(s: State, p: nat, pc: Pc)
    requires pc.Find? && pc.slots > 0 && FirstPending(s.targets, 0) < |s.targets|
    ensures var next := FirstPending(s.targets, 0);
            Reaches(Put(s, p, pc), Put(s.(targets := s.targets[next := Claimed(s.targets[next])]), p,
                                       Dial(next, pc.slots - 1, pc.turns + 1, pc.budget)))
  {
    var next := FirstPending(s.targets, 0);
    var claiming := Claim(next, pc.slots, pc.turns, pc.budget);
    FindRuns(s, p, pc);
    ClaimRuns(s, p, claiming);
    ReachesThen(Put(s, p, pc), Put(s, p, claiming),
                Put(s.(targets := s.targets[next := Claimed(s.targets[next])]), p,
                    Dial(next, pc.slots - 1, pc.turns + 1, pc.budget)));
  }

  lemma CallPhase(s: State, p: nat, pc: Pc, answer: Answer)
    requires pc.Dial? && pc.next < |s.targets|
    ensures var dialed := Dialed(s.targets[pc.next]);
            var us := s.targets[pc.next := if answer.Placed? then dialed else Failed(dialed)];
            Reaches(Put(s, p, pc), if answer.Unavailable?
                                   then s.(targets := us, status := Blocked, procs := s.procs - {p})
                                   else Put(s.(targets := us), p, Find(pc.slots, pc.turns, pc.budget)))
  {
    var dialed := s.targets[pc.next := Dialed(s.targets[pc.next])];
    var noting := Note(pc.next, answer, pc.slots, pc.turns, pc.budget);
    var us := if answer.Placed? then dialed else dialed[pc.next := Failed(dialed[pc.next])];
    assert us == s.targets[pc.next := if answer.Placed?
                                         then Dialed(s.targets[pc.next]) else Failed(Dialed(s.targets[pc.next]))];
    DialRuns(s, p, pc, answer);
    NoteRuns(s.(targets := dialed), p, noting);
    ReachesThen(Put(s, p, pc), Put(s.(targets := dialed), p, noting),
                if answer.Unavailable? then s.(targets := us, status := Blocked, procs := s.procs - {p})
                else Put(s.(targets := us), p, Find(pc.slots, pc.turns, pc.budget)));
  }

  lemma FindRuns(s: State, p: nat, pc: Pc)
    requires pc.Find? && pc.slots > 0 && FirstPending(s.targets, 0) < |s.targets|
    ensures Reaches(Put(s, p, pc), Put(s, p, Claim(FirstPending(s.targets, 0), pc.slots, pc.turns, pc.budget)))
  {
    ReachesOne(Put(s, p, pc), FindNext(p));
    assert s.procs[p := pc][p := Claim(FirstPending(s.targets, 0), pc.slots, pc.turns, pc.budget)]
        == s.procs[p := Claim(FirstPending(s.targets, 0), pc.slots, pc.turns, pc.budget)];
  }

  lemma ClaimRuns(s: State, p: nat, pc: Pc)
    requires pc.Claim? && pc.next < |s.targets| && s.targets[pc.next].status.PENDING? && pc.slots > 0
    ensures Reaches(Put(s, p, pc), Put(s.(targets := s.targets[pc.next := Claimed(s.targets[pc.next])]), p,
                                       Dial(pc.next, pc.slots - 1, pc.turns + 1, pc.budget)))
  {
    ReachesOne(Put(s, p, pc), ClaimNext(p));
    var pc' := Dial(pc.next, pc.slots - 1, pc.turns + 1, pc.budget);
    assert s.procs[p := pc][p := pc'] == s.procs[p := pc'];
  }

  lemma DialRuns(s: State, p: nat, pc: Pc, answer: Answer)
    requires pc.Dial? && pc.next < |s.targets|
    ensures Reaches(Put(s, p, pc), Put(s.(targets := s.targets[pc.next := Dialed(s.targets[pc.next])]), p,
                                       Note(pc.next, answer, pc.slots, pc.turns, pc.budget)))
  {
    ReachesOne(Put(s, p, pc), PlaceCall(p, answer));
    var pc' := Note(pc.next, answer, pc.slots, pc.turns, pc.budget);
    assert s.procs[p := pc][p := pc'] == s.procs[p := pc'];
  }

  lemma NoteRuns(s: State, p: nat, pc: Pc)
    requires pc.Note? && pc.next < |s.targets|
    ensures var us := if pc.answer.Placed? then s.targets else s.targets[pc.next := Failed(s.targets[pc.next])];
            Reaches(Put(s, p, pc), if pc.answer.Unavailable?
                                   then s.(targets := us, status := Blocked, procs := s.procs - {p})
                                   else Put(s.(targets := us), p, Find(pc.slots, pc.turns, pc.budget)))
  {
    ReachesOne(Put(s, p, pc), NoteCall(p));
    var us := if pc.answer.Placed? then s.targets else s.targets[pc.next := Failed(s.targets[pc.next])];
    var pc' := if pc.answer.Unavailable? then Block else Find(pc.slots, pc.turns, pc.budget);
    assert s.procs[p := pc][p := pc'] == s.procs[p := pc'];
    if pc.answer.Unavailable? {
      var blocking := Put(s.(targets := us), p, Block);
      ReachesOne(blocking, WriteBlocked(p));
      assert s.procs[p := Block] - {p} == s.procs - {p};
      ReachesThen(Put(s, p, pc), blocking, s.(targets := us, status := Blocked, procs := s.procs - {p}));
    }
  }

  /** A tick that is not cut short uses all its slots or leaves nothing pending. */
  lemma {:induction false} LoopFills(ts: seq<Target>, slots: nat, dialed: nat, answers: nat -> Answer)
    ensures var loop := DialAll(ts, slots, dialed, answers);
            !loop.unavailable ==> Pending(loop.targets) == {} || |Pending(loop.targets)| + slots == |Pending(ts)|
    decreases slots
  {
    var next := FirstPending(ts, 0);
    if slots > 0 && next < |ts| {
      var us := ts[next := Called(ts[next], answers(next))];
      assert Pending(us) == Pending(ts) - {next};
      if !answers(next).Unavailable? {
        LoopFills(us, slots - 1, dialed + if answers(next).Placed? then 1 else 0, answers);
      }
    }
  }

  // ---- the methods are runs of the machine ----

  /** The claim loop as a run, with where it ends. */
  lemma {:induction false} LoopRuns(s: State, p: nat, pc: Pc, dialed: nat, answers: nat -> Answer) returns (pc': Pc)
    requires pc.Find? && p !in s.procs
    ensures var loop := DialAll(s.targets, pc.slots, dialed, answers);
            if loop.unavailable
            then Reaches(Put(s, p, pc), s.(targets := loop.targets, status := Blocked, procs := s.procs - {p}))
            else && pc'.Find? && (pc'.slots == 0 || FirstPending(loop.targets, 0) == |loop.targets|)
                 && Reaches(Put(s, p, pc), Put(s.(targets := loop.targets), p, pc'))
    decreases pc.slots
  {
    var next := FirstPending(s.targets, 0);
    pc' := pc;
    if pc.slots == 0 || next == |s.targets| {
      ReachesNothing(Put(s, p, pc));
      assert s.(targets := s.targets) == s;
    } else {
      var us := s.targets[next := Called(s.targets[next], answers(next))];
      TurnIsARun(s, p, pc, answers(next));
      if !answers(next).Unavailable? {
        var found := Find(pc.slots - 1, pc.turns + 1, pc.budget);
        var more := dialed + if answers(next).Placed? then 1 else 0;
        pc' := LoopRuns(s.(targets := us), p, found, more, answers);
        var loop := DialAll(us, found.slots, more, answers);
        ReachesThen(Put(s, p, pc), Put(s.(targets := us), p, found),
                    if loop.unavailable then s.(targets := loop.targets, status := Blocked, procs := s.procs - {p})
                    else Put(s.(targets := loop.targets), p, pc'));
      }
    }
  }

  /** The claim loop on its own is a run of the machine, so all that holds over runs holds of it. */
  lemma LoopIsARun(s: State, p: nat, pc: Pc, dialed: nat, answers: nat -> Answer)
    requires pc.Find? && p !in s.procs
    ensures exists t ::
              && Reaches(Put(s, p, pc), t)
              && t.targets == DialAll(s.targets, pc.slots, dialed, answers).targets
              && (DialAll(s.targets, pc.slots, dialed, answers).unavailable ==> t.status == Blocked)
  {
    var pc' := LoopRuns(s, p, pc, dialed, answers);
    var loop := DialAll(s.targets, pc.slots, dialed, answers);
    var blocked := s.(targets := loop.targets, status := Blocked, procs := s.procs - {p});
    var t := if loop.unavailable then blocked else Put(s.(targets := loop.targets), p, pc');
    assert Reaches(Put(s, p, pc), t) && t.targets == loop.targets;
  }

  /** Process p alone moves from pc to pc'. */
  lemma Moves1(s: State, p: nat, pc: Pc, e: Event, t: State, pc': Pc)
    requires p !in s.procs && Enabled(Put(s, p, pc), e) && t.procs == s.procs
    requires Apply(Put(s, p, pc), e) == Put(t, p, pc').(procs := s.procs[p := pc][p := pc'])
    ensures Reaches(Put(s, p, pc), Put(t, p, pc'))
  {
    assert s.procs[p := pc][p := pc'] == s.procs[p := pc'];
    ReachesOne(Put(s, p, pc), e);
  }

  lemma Leaves(s: State, p: nat, pc: Pc, e: Event, t: State)
    requires p !in s.procs && Enabled(Put(s, p, pc), e) && t.procs == s.procs
    requires Apply(Put(s, p, pc), e) == t.(procs := s.procs[p := pc] - {p})
    ensures Reaches(Put(s, p, pc), t)
  {
    assert s.procs[p := pc] - {p} == s.procs;
    ReachesOne(Put(s, p, pc), e);
  }

  /** From the loop's end to the end of the tick. */
  lemma TickEnds(s: State, p: nat, pc: Pc) returns (reported: bool)
    requires pc.Find? && p !in s.procs && (pc.slots == 0 || FirstPending(s.targets, 0) == |s.targets|)
    requires s.status.Running?
    ensures Reaches(Put(s, p, pc),
                    s.(status := if NoneOpen(s.targets) then Finished else Running, reported := reported))
  {
    reported := s.reported || NoneOpen(s.targets);
    Moves1(s, p, pc, FindNext(p), s, Remaining);
    if NoneOpen(s.targets) {
      var done := s.(reported := true);
      Moves1(s, p, Remaining, CountRemaining(p), done, Finish);
      ReachesThen(Put(s, p, pc), Put(s, p, Remaining), Put(done, p, Finish));
      Leaves(done, p, Finish, FinishBatch(p), done.(status := Finished));
      ReachesThen(Put(s, p, pc), Put(done, p, Finish), done.(status := Finished));
      assert done.(status := Finished) == s.(status := Finished, reported := true);
    } else {
      Leaves(s, p, Remaining, CountRemaining(p), s);
      ReachesThen(Put(s, p, pc), Put(s, p, Remaining), s);
      assert s == s.(status := Running, reported := s.reported);
    }
  }

  /** From the check of the reason to the loop. */
  lemma TickSweeps(s: State, p: nat, stuck: set<nat>) returns (pc: Pc)
    requires p !in s.procs
    ensures var us := Unstuck(s.targets, stuck);
            pc.Find? && pc.slots == Slots(s.concurrency, |Flying(us)|)
            && Reaches(Put(s, p, Check), Put(s.(targets := us), p, pc))
  {
    var us := Unstuck(s.targets, stuck);
    var swept := s.(targets := us);
    Moves1(s, p, Check, CheckReason(p, false), s, Sweep);
    Moves1(s, p, Sweep, SweepStuck(p, stuck), swept, Count);
    ReachesThen(Put(s, p, Check), Put(s, p, Sweep), Put(swept, p, Count));
    pc := Find(Slots(s.concurrency, |Flying(us)|), 0, |Pending(us)|);
    Moves1(swept, p, Count, CountSlots(p), swept, pc);
    ReachesThen(Put(s, p, Check), Put(swept, p, Count), Put(swept, p, pc));
  }

  lemma TickBegins(s: State, p: nat, due: bool)
    requires p !in s.procs && (s.status.Running? || (s.status.Scheduled? && due))
    ensures Reaches(s, Put(s.(status := Running), p, Check))
  {
    ReachesOne(s, Begin(p, due));
    if s.status.Scheduled? {
      Moves1(s, p, Resume, WriteRunning(p), s.(status := Running), Check);
      ReachesThen(s, Put(s, p, Resume), Put(s.(status := Running), p, Check));
    } else {
      assert s.(status := Running) == s;
    }
  }

  /** What a tick alone leaves behind, as `Batch.Tick` has it. */
  ghost predicate Ticks(s: State, t: State, due: bool, blocked: bool, stuck: set<nat>, answers: nat -> Answer) {
    var ready := s.status.Running? || (s.status.Scheduled? && due);
    var loop := Ticked(s.targets, s.concurrency, stuck, answers);
    && t.procs == s.procs && t.targets == (if ready && !blocked then loop.targets else s.targets)
    && t.status == if !ready then s.status
                   else if blocked || loop.unavailable then Blocked
                   else if NoneOpen(loop.targets) then Finished
                   else Running
  }

  lemma ReadyTickIsARun(s: State, p: nat, stuck: set<nat>, answers: nat -> Answer)
    requires p !in s.procs && s.status.Running?
    ensures exists t :: Reaches(Put(s, p, Check), t) && Ticks(s, t, true, false, stuck, answers)
  {
    var swept := s.(targets := Unstuck(s.targets, stuck));
    var pc := TickSweeps(s, p, stuck);
    var pc' := LoopRuns(swept, p, pc, 0, answers);
    var loop := Ticked(s.targets, s.concurrency, stuck, answers);
    var looped := s.(targets := loop.targets);
    assert s.procs - {p} == s.procs;
    if loop.unavailable {
      var t := looped.(status := Blocked);
      assert t == swept.(targets := loop.targets, status := Blocked, procs := s.procs - {p});
      ReachesThen(Put(s, p, Check), Put(swept, p, pc), t);
      assert Ticks(s, t, true, false, stuck, answers);
    } else {
      assert swept.(targets := loop.targets) == looped;
      ReachesThen(Put(s, p, Check), Put(swept, p, pc), Put(looped, p, pc'));
      var reported := TickEnds(looped, p, pc');
      var t := looped.(status := if NoneOpen(looped.targets) then Finished else Running, reported := reported);
      ReachesThen(Put(s, p, Check), Put(looped, p, pc'), t);
      assert Ticks(s, t, true, false, stuck, answers);
    }
  }

  /** A tick with nothing else going on is a run of the machine that ends as `Batch.Tick` does. */
  lemma TickIsARun(s: State, p: nat, due: bool, blocked: bool, stuck: set<nat>, answers: nat -> Answer)
    requires p !in s.procs
    ensures exists t :: Reaches(s, t) && Ticks(s, t, due, blocked, stuck, answers)
  {
    var ready := s.status.Running? || (s.status.Scheduled? && due);
    var running := s.(status := Running);
    if !ready {
      ReachesNothing(s);
      assert Ticks(s, s, due, blocked, stuck, answers);
    } else {
      TickBegins(s, p, due);
      if blocked {
        Moves1(running, p, Check, CheckReason(p, true), running, Block);
        Leaves(running, p, Block, WriteBlocked(p), running.(status := Blocked));
        ReachesThen(Put(running, p, Check), Put(running, p, Block), running.(status := Blocked));
        ReachesThen(s, Put(running, p, Check), running.(status := Blocked));
        assert Ticks(s, running.(status := Blocked), due, blocked, stuck, answers);
      } else {
        ReadyTickIsARun(running, p, stuck, answers);
        var t :| Reaches(Put(running, p, Check), t) && Ticks(running, t, true, false, stuck, answers);
        ReachesThen(s, Put(running, p, Check), t);
        assert Ticks(s, t, due, blocked, stuck, answers);
      }
    }
  }

  /** So are a start and a cancellation. */
  lemma StartIsARun(s: State, p: nat, later: bool, blocked: bool)
    requires p !in s.procs
    ensures var ok := (s.status.Draft? || s.status.Blocked? || s.status.Scheduled?) && Pending(s.targets) != {};
            Reaches(s, if !ok then s
                       else s.(status := if blocked then Blocked else if later then Scheduled else Running))
  {
    if s.status.Draft? || s.status.Blocked? || s.status.Scheduled? {
      ReachesOne(s, BeginStart(p));
      if Pending(s.targets) == {} {
        Leaves(s, p, Opening, CountPending(p), s);
        ReachesThen(s, Put(s, p, Opening), s);
      } else {
        var t := s.(status := if blocked then Blocked else if later then Scheduled else Running);
        Moves1(s, p, Opening, CountPending(p), s, Opened);
        ReachesThen(s, Put(s, p, Opening), Put(s, p, Opened));
        Leaves(s, p, Opened, WriteStart(p, later, blocked), t);
        ReachesThen(s, Put(s, p, Opened), t);
      }
    } else {
      ReachesNothing(s);
    }
  }

  lemma CancelIsARun(s: State, p: nat)
    requires p !in s.procs
    ensures Reaches(s, if s.status.Finished? || s.status.Cancelled? then s
                       else s.(targets := Skipped(s.targets), status := Cancelled, skipped := true))
  {
    if s.status.Finished? || s.status.Cancelled? {
      ReachesNothing(s);
    } else {
      var rest := s.(targets := Skipped(s.targets), skipped := true);
      ReachesOne(s, BeginCancel(p));
      Moves1(s, p, Skipping, SkipRest(p), rest, Cancelling);
      ReachesThen(s, Put(s, p, Skipping), Put(rest, p, Cancelling));
      Leaves(rest, p, Cancelling, EndCancel(p), rest.(status := Cancelled));
      ReachesThen(s, Put(rest, p, Cancelling), rest.(status := Cancelled));
    }
  }

  /** An outcome is one step of the machine: it closes a target in flight and no other. */
  lemma OutcomeIsAStep(s: State, i: nat, outcome: Status)
    requires Enabled(s, Outcome(i, outcome))
    ensures Apply(s, Outcome(i, outcome)).targets
            == if s.targets[i].status.DIALING? || s.targets[i].status.IN_PROGRESS?
               then s.targets[i := s.targets[i].(status := outcome)] else s.targets
  {
  }
}
