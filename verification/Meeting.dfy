/** Meeting sessions: any number of callers move one row along the session state machine by
    compare-and-set, hop by hop. */
module Meeting {
  import opened Wrappers

  datatype SessionState =
    | CREATED | READY | CONNECTING | ACTIVE | PAUSED | RECONNECTING | ENDING
    | COMPLETED | FAILED | CANCELLED | EXPIRED | ABANDONED

  predicate IsTerminal(s: SessionState) {
    s.COMPLETED? || s.FAILED? || s.CANCELLED? || s.EXPIRED? || s.ABANDONED?
  }

  /** SESSION_TRANSITIONS */
  function Transitions(s: SessionState): set<SessionState> {
    match s
    case CREATED => {READY, CANCELLED, EXPIRED, FAILED}
    case READY => {CONNECTING, CANCELLED, EXPIRED, FAILED}
    case CONNECTING => {ACTIVE, RECONNECTING, FAILED, CANCELLED, ENDING}
    case ACTIVE => {PAUSED, RECONNECTING, ENDING, FAILED}
    case PAUSED => {ACTIVE, ENDING, RECONNECTING, FAILED, ABANDONED}
    case RECONNECTING => {ACTIVE, PAUSED, ENDING, FAILED, ABANDONED}
    case ENDING => {COMPLETED, FAILED}
    case _ => {}
  }

  predicate CanTransition(from: SessionState, to: SessionState) { to in Transitions(from) }

  /** pathTo */
  function PathTo(from: SessionState, to: SessionState): Option<seq<SessionState>> {
    if from == to then Some([])
    else if to.ACTIVE? then
      if from.CREATED? then Some([READY, CONNECTING, ACTIVE])
      else if from.READY? then Some([CONNECTING, ACTIVE])
      else if from.CONNECTING? then Some([ACTIVE])
      else None
    else if to.COMPLETED? then
      if from.ACTIVE? || from.CONNECTING? then Some([ENDING, COMPLETED])
      else if from.ENDING? then Some([COMPLETED])
      else None
    else if to.CANCELLED? then
      if from.CREATED? || from.READY? || from.CONNECTING? then Some([CANCELLED]) else None
    else if to.FAILED? then
      if from.CREATED? || from.READY? || from.CONNECTING? || from.ACTIVE? || from.ENDING? then Some([FAILED]) else None
    else None
  }

  /** How far along the meeting lifecycle a state is. */
  function Rank(s: SessionState): nat {
    match s
    case CREATED => 0
    case READY => 1
    case CONNECTING => 2
    case ACTIVE => 3
    case PAUSED => 3
    case RECONNECTING => 3
    case ENDING => 4
    case _ => 5
  }

  /** Every path is legal in the table, climbs in rank, ends at its goal, and its rest is the path from its
      first state: so no hop is ever refused as illegal. */
  lemma PathIsLegal(from: SessionState, to: SessionState)
    requires PathTo(from, to).Some? && from != to
    ensures var path := PathTo(from, to).value;
            && path != [] && CanTransition(from, path[0]) && Rank(from) < Rank(path[0])
            && PathTo(path[0], to) == Some(path[1..])
            && path[|path| - 1] == to
  {
    var path := PathTo(from, to).value;
    if |path| == 1 {
      assert path[1..] == [];
    } else if |path| == 2 {
      assert path[1..] == [path[1]];
    } else {
      assert path[1..] == [path[1], path[2]];
    }
  }

  /** From which states each goal can be reached. */
  predicate HasRoute(from: SessionState, to: SessionState) {
    || from == to
    || ((to.ACTIVE? || to.CANCELLED?) && (from.CREATED? || from.READY? || from.CONNECTING?))
    || (to.COMPLETED? && (from.CONNECTING? || from.ACTIVE? || from.ENDING?))
    || (to.FAILED? && (from.CREATED? || from.READY? || from.CONNECTING? || from.ACTIVE? || from.ENDING?))
  }

  lemma RouteExactly(from: SessionState, to: SessionState)
    ensures PathTo(from, to).Some? <==> HasRoute(from, to)
  {
  }

  /** The states of q can be entered one after the other, the first from `from`, the last being `to`. */
  predicate IsPath(from: SessionState, q: seq<SessionState>, to: SessionState)
    decreases |q|
  {
    if q == [] then from == to else CanTransition(from, q[0]) && IsPath(q[0], q[1..], to)
  }

  /** The route is a path of the table, and every other path of the table to the same goal is longer. */
  ghost predicate IsShortest(from: SessionState, path: seq<SessionState>, to: SessionState) {
    IsPath(from, path, to) && forall q :: IsPath(from, q, to) ==> q == path || |q| > |path|
  }

  lemma {:induction false} PathIsPath(from: SessionState, to: SessionState)
    requires PathTo(from, to).Some?
    ensures IsPath(from, PathTo(from, to).value, to)
    decreases |PathTo(from, to).value|
  {
    if from != to {
      PathIsLegal(from, to);
      PathIsPath(PathTo(from, to).value[0], to);
    }
  }

  lemma FirstHop(from: SessionState, q: seq<SessionState>, to: SessionState)
    requires IsPath(from, q, to) && q != []
    ensures CanTransition(from, q[0]) && IsPath(q[0], q[1..], to)
  {
  }

  /** Paths of at most three hops. */
  lemma ShortPaths(from: SessionState, q: seq<SessionState>, to: SessionState)
    requires IsPath(from, q, to)
    ensures |q| == 0 ==> from == to
    ensures |q| == 1 ==> q == [to] && CanTransition(from, to)
    ensures |q| == 2 ==> q == [q[0], to] && CanTransition(from, q[0]) && CanTransition(q[0], to)
    ensures |q| == 3 ==> q == [q[0], q[1], to] && CanTransition(from, q[0]) && CanTransition(q[0], q[1])
                         && CanTransition(q[1], to)
  {
    if |q| >= 1 {
      FirstHop(from, q, to);
      if |q| >= 2 {
        FirstHop(q[0], q[1..], to);
        assert q[1..][0] == q[1] && q[1..][1..] == q[2..];
        if |q| >= 3 {
          FirstHop(q[1], q[2..], to);
          assert q[2..][0] == q[2] && q[2..][1..] == q[3..];
        }
      }
    }
  }

  /** Every route is the one shortest path of the table. */
  lemma PathIsShortest(from: SessionState, to: SessionState)
    requires PathTo(from, to).Some?
    ensures IsShortest(from, PathTo(from, to).value, to)
  {
    var path := PathTo(from, to).value;
    PathIsPath(from, to);
    forall q | IsPath(from, q, to) ensures q == path || |q| > |path| {
      ShortPaths(from, q, to);
      if |q| <= |path| { assert |q| <= 3; }
    }
  }

  datatype Hop = Hop(from: SessionState, to: SessionState)

  /** What a caller tells the world. */
  datatype Emitted = Started | Ended(state: SessionState)

  /** The row in place, with the winning hops of its history. */
  class Session {
    var state: SessionState
    var startedAt: bool
    var endedAt: bool
    var history: seq<Hop>

    /** transitionMeetingSession, with no other caller about: it reaches its goal by the shortest legal path, or
        there is no route and nothing changes. */
    method Transition(to: SessionState) returns (moved: bool, events: seq<Emitted>)
      modifies this
      ensures moved <==> HasRoute(old(state), to)
      ensures moved ==>
                state == to && exists path :: IsShortest(old(state), path, to)
                                              && history == old(history) + HopsAlong(old(state), path)
      ensures startedAt == (old(startedAt) || (moved && old(state) != to && to.ACTIVE?))
      ensures endedAt == (old(endedAt) || (moved && old(state) != to && IsTerminal(to)))
      ensures events == if !moved || old(state) == to then []
                        else if to.ACTIVE? then (if old(startedAt) then [] else [Started])
                        else [Ended(to)]
      ensures !moved ==> state == old(state) && history == old(history)
    {
      RouteExactly(state, to);
      var path := PathTo(state, to);
      if path.None? {
        return false, [];
      }
      PathIsShortest(state, to);
      events := Follow(path.value, to);
      return true, events;
    }

    /** The loop over the hops of the route. */
    method Follow(path: seq<SessionState>, to: SessionState) returns (events: seq<Emitted>)
      requires PathTo(state, to) == Some(path)
      modifies this
      ensures state == to && history == old(history) + HopsAlong(old(state), path)
      ensures startedAt == (old(startedAt) || (path != [] && to.ACTIVE?))
      ensures endedAt == (old(endedAt) || (path != [] && IsTerminal(to)))
      ensures events == if path == [] then []
                        else if to.ACTIVE? then (if old(startedAt) then [] else [Started])
                        else [Ended(to)]
    {
      events := [];
      var rest, sawStarted := path, startedAt;
      while rest != []
        invariant PathTo(state, to) == Some(rest) && sawStarted == old(startedAt)
        invariant history + HopsAlong(state, rest) == old(history) + HopsAlong(old(state), path)
        invariant startedAt == (old(startedAt) || (rest == [] && path != [] && to.ACTIVE?))
        invariant endedAt == (old(endedAt) || (rest == [] && path != [] && IsTerminal(to)))
        invariant events == if rest != [] || path == [] then []
                            else if to.ACTIVE? then (if old(startedAt) then [] else [Started])
                            else [Ended(to)]
        decreases |rest|
      {
        PathIsLegal(state, to);
        OnlyTheLast(state, to);
        HopsFirst(state, rest);
        var next := rest[0];
        assert CanTransition(state, next);
        var told := Enter(state, next, sawStarted);
        events := events + told;
        rest := rest[1..];
      }
    }

    /** One hop: the update of the row and the events that follow. */
    method Enter(current: SessionState, next: SessionState, sawStarted: bool) returns (told: seq<Emitted>)
      modifies this
      ensures state == next && history == old(history) + [Hop(current, next)]
      ensures startedAt == (old(startedAt) || (next.ACTIVE? && !sawStarted))
      ensures endedAt == (old(endedAt) || next.COMPLETED? || next.FAILED? || next.CANCELLED?)
      ensures told == (if next.ACTIVE? && !sawStarted then [Started] else [])
                      + if next.COMPLETED? || next.FAILED? || next.CANCELLED? then [Ended(next)] else []
    {
      told := [];
      if next == ACTIVE && !sawStarted {
        startedAt := true;
        told := told + [Started];
      }
      if next == COMPLETED || next == FAILED || next == CANCELLED {
        endedAt := true;
        told := told + [Ended(next)];
      }
      state := next;
      history := history + [Hop(current, next)];
    }
  }

  /** Only the last hop of a route enters ACTIVE or a terminal state, and it enters one of them. */
  lemma OnlyTheLast(from: SessionState, to: SessionState)
    requires PathTo(from, to).Some? && from != to
    ensures var path := PathTo(from, to).value;
            && path != [] && (path[0].ACTIVE? || IsTerminal(path[0]) <==> |path| == 1)
            && (|path| == 1 ==> path[0] == to && (to.ACTIVE? || to.COMPLETED? || to.FAILED? || to.CANCELLED?))
  {
  }

  function HopsAlong(from: SessionState, path: seq<SessionState>): seq<Hop>
    decreases |path|
  {
    if path == [] then [] else [Hop(from, path[0])] + HopsAlong(path[0], path[1..])
  }

  lemma HopsFirst(from: SessionState, path: seq<SessionState>)
    requires path != []
    ensures HopsAlong(from, path) == [Hop(from, path[0])] + HopsAlong(path[0], path[1..])
  {
  }

  // ---- all interleavings ----

  /** A caller before its next compare-and-set, or between a won one and its events. */
  datatype Caller =
    | Hopping(current: SessionState, to: SessionState, sawStarted: bool)
    | Telling(won: SessionState, to: SessionState, sawStarted: bool)

  datatype Db = Db(state: SessionState, startedAt: bool)

  /** The row, the callers, the winning hops in order, and the events emitted. */
  datatype World = World(row: Db, callers: map<nat, Caller>, history: seq<Hop>, started: nat, terminal: nat)

  const NEW := World(Db(CREATED, false), map[], [], 0, 0)

  datatype Event = Begin(p: nat, to: SessionState) | Cas(p: nat) | Tell(p: nat) | Die(p: nat)

  predicate Enabled(w: World, e: Event) {
    match e
    case Begin(p, _) => p !in w.callers
    case Cas(p) => p in w.callers && w.callers[p].Hopping?
    case Tell(p) => p in w.callers && w.callers[p].Telling?
    case Die(p) => p in w.callers
  }

  function Next(c: Caller): (next: SessionState)
    requires c.Hopping?
  {
    var path := PathTo(c.current, c.to);
    if path.Some? && path.value != [] then path.value[0] else c.to
  }

  /** The compare-and-set of one hop; the loser leaves. */
  function TryHop(w: World, p: nat): World
    requires p in w.callers && w.callers[p].Hopping?
  {
    var c := w.callers[p];
    var next := Next(c);
    if w.row.state == c.current then
      w.(row := Db(next, w.row.startedAt || (next.ACTIVE? && !c.sawStarted)),
         callers := w.callers[p := Telling(next, c.to, c.sawStarted)],
         history := w.history + [Hop(c.current, next)])
    else w.(callers := w.callers - {p})
  }

  /** The events of a won hop, and on to the next hop if there is one. */
  function TellHop(w: World, p: nat): World
    requires p in w.callers && w.callers[p].Telling?
  {
    var c := w.callers[p];
    w.(started := w.started + (if c.won.ACTIVE? && !c.sawStarted then 1 else 0),
       terminal := w.terminal + (if IsTerminal(c.won) then 1 else 0),
       callers := if c.won == c.to then w.callers - {p} else w.callers[p := Hopping(c.won, c.to, c.sawStarted)])
  }

  function Apply(w: World, e: Event): World
    requires Enabled(w, e)
  {
    match e
    case Begin(p, to) =>
      var path := PathTo(w.row.state, to);
      if path.Some? && path.value != []
      then w.(callers := w.callers[p := Hopping(w.row.state, to, w.row.startedAt)])
      else w
    case Cas(p) => TryHop(w, p)
    case Tell(p) => TellHop(w, p)
    case Die(p) => w.(callers := w.callers - {p})
  }

  predicate Legal(w: World, es: seq<Event>)
    decreases |es|
  {
    es == [] || (Enabled(w, es[0]) && Legal(Apply(w, es[0]), es[1..]))
  }

  function After(w: World, es: seq<Event>): World
    requires Legal(w, es)
    decreases |es|
  {
    if es == [] then w else After(Apply(w, es[0]), es[1..])
  }

  // ---- the invariant ----

  /** The hops form one legal path from CREATED to s, climbing in rank. */
  predicate Climbs(history: seq<Hop>, s: SessionState) {
    && (forall i :: 0 <= i < |history| ==>
          CanTransition(history[i].from, history[i].to) && Rank(history[i].from) < Rank(history[i].to))
    && (forall i :: 0 < i < |history| ==> history[i].from == history[i - 1].to)
    && (if history == [] then s == CREATED else history[0].from == CREATED && history[|history| - 1].to == s)
  }

  /** A caller is on a path of the table; one still below ACTIVE saw no start. */
  predicate OnPath(c: Caller) {
    match c
    case Hopping(current, to, saw) => current != to && PathTo(current, to).Some? && (Rank(current) < 3 ==> !saw)
    case Telling(won, to, saw) => PathTo(won, to).Some? && (Rank(won) <= 3 ==> !saw)
  }

  /** The won hop of a caller with events to emit is one the row has made. */
  predicate Behind(c: Caller, s: SessionState) { c.Telling? ==> Rank(c.won) <= Rank(s) }

  /** Callers that will emit "started", or a terminal event. */
  predicate TellsStart(c: Caller) { c.Telling? && c.won.ACTIVE? }

  predicate TellsEnd(c: Caller) { c.Telling? && IsTerminal(c.won) }

  predicate CallersOk(w: World) {
    forall p :: p in w.callers ==> OnPath(w.callers[p]) && Behind(w.callers[p], w.row.state)
  }

  predicate StartOk(w: World) {
    && w.started <= 1
    && (Rank(w.row.state) < 3 ==> w.started == 0 && !w.row.startedAt)
    && (forall p :: p in w.callers && TellsStart(w.callers[p]) ==> w.started == 0)
    && (forall p, q :: p in w.callers && q in w.callers ==>
                         TellsStart(w.callers[p]) && TellsStart(w.callers[q]) ==> p == q)
  }

  predicate EndOk(w: World) {
    && w.terminal <= 1
    && (Rank(w.row.state) < 5 ==> w.terminal == 0)
    && (forall p :: p in w.callers && TellsEnd(w.callers[p]) ==> w.terminal == 0)
    && (forall p, q :: p in w.callers && q in w.callers && TellsEnd(w.callers[p]) && TellsEnd(w.callers[q]) ==> p == q)
  }

  predicate Inv(w: World) { Climbs(w.history, w.row.state) && CallersOk(w) && StartOk(w) && EndOk(w) }

  // ---- every step keeps it ----

  lemma HopClimbs(c: Caller)
    requires c.Hopping? && OnPath(c)
    ensures CanTransition(c.current, Next(c)) && Rank(c.current) < Rank(Next(c))
    ensures PathTo(Next(c), c.to).Some?
    ensures Next(c).ACTIVE? ==> Rank(c.current) < 3
    ensures IsTerminal(Next(c)) ==> Rank(Next(c)) == 5
  {
  }

  lemma TerminalRank(s: SessionState)
    ensures IsTerminal(s) <==> Rank(s) == 5
  {
  }

  lemma LostKeeps(w: World, p: nat)
    requires Inv(w) && p in w.callers
    ensures Inv(w.(callers := w.callers - {p}))
  {
  }

  lemma BeginKeeps(w: World, p: nat, to: SessionState)
    requires Inv(w) && p !in w.callers && PathTo(w.row.state, to).Some? && w.row.state != to
    ensures Inv(w.(callers := w.callers[p := Hopping(w.row.state, to, w.row.startedAt)]))
  {
  }

  lemma WonKeeps(w: World, p: nat)
    requires Inv(w) && p in w.callers && w.callers[p].Hopping? && w.row.state == w.callers[p].current
    ensures Inv(TryHop(w, p))
  {
    HopClimbs(w.callers[p]);
    WonClimbs(w, p);
    WonStart(w, p);
    WonEnd(w, p);
  }

  lemma WonClimbs(w: World, p: nat)
    requires Climbs(w.history, w.row.state) && p in w.callers && w.callers[p].Hopping? && OnPath(w.callers[p])
    requires w.row.state == w.callers[p].current
    ensures Climbs(TryHop(w, p).history, TryHop(w, p).row.state)
  {
    HopClimbs(w.callers[p]);
  }

  lemma WonStart(w: World, p: nat)
    requires CallersOk(w) && StartOk(w) && p in w.callers && w.callers[p].Hopping?
             && w.row.state == w.callers[p].current
    ensures StartOk(TryHop(w, p))
  {
  }

  lemma WonEnd(w: World, p: nat)
    requires CallersOk(w) && EndOk(w) && p in w.callers && w.callers[p].Hopping? && w.row.state == w.callers[p].current
    ensures EndOk(TryHop(w, p))
  {
    HopClimbs(w.callers[p]);
    if IsTerminal(Next(w.callers[p])) {
      TerminalRank(w.row.state);
      forall q | q in w.callers ensures !TellsEnd(w.callers[q]) {
        if w.callers[q].Telling? { TerminalRank(w.callers[q].won); }
      }
    }
  }

  lemma TellKeeps(w: World, p: nat)
    requires Inv(w) && p in w.callers && w.callers[p].Telling?
    ensures Inv(TellHop(w, p))
  {
    var c := w.callers[p];
    if IsTerminal(c.won) { TerminalRank(c.won); }
  }

  lemma ApplyKeeps(w: World, e: Event)
    requires Inv(w) && Enabled(w, e)
    ensures Inv(Apply(w, e))
  {
    match e
    case Begin(p, to) => if PathTo(w.row.state, to).Some? && w.row.state != to { BeginKeeps(w, p, to); }
    case Cas(p) => if w.row.state == w.callers[p].current { WonKeeps(w, p); } else { LostKeeps(w, p); }
    case Tell(p) => TellKeeps(w, p);
    case Die(p) => LostKeeps(w, p);
  }

  lemma {:induction false} RunKeeps(w: World, es: seq<Event>)
    requires Inv(w) && Legal(w, es)
    ensures Inv(After(w, es))
    decreases |es|
  {
    if es != [] {
      ApplyKeeps(w, es[0]);
      RunKeeps(Apply(w, es[0]), es[1..]);
    }
  }

  // ---- main results ----

  lemma {:induction false} RanksRise(history: seq<Hop>, s: SessionState, i: nat, j: nat)
    requires Climbs(history, s) && i < j < |history|
    ensures Rank(history[i].to) < Rank(history[j].to)
    decreases j - i
  {
    assert history[j].from == history[j - 1].to;
    if i < j - 1 { RanksRise(history, s, i, j - 1); }
  }

  /** In every interleaving the winning hops are one path of the table from CREATED to the row's state; no
      state is entered twice, so ACTIVE is entered at most once; a hop into a terminal state is the last; and
      "started" and the terminal event are each emitted at most once. */
  lemma MeetingHistory(es: seq<Event>)
    requires Legal(NEW, es)
    ensures var w := After(NEW, es);
            && Climbs(w.history, w.row.state)
            && (forall i, j :: 0 <= i < j < |w.history| ==> w.history[i].to != w.history[j].to)
            && (forall i :: 0 <= i < |w.history| && IsTerminal(w.history[i].to) ==> i == |w.history| - 1)
            && w.started <= 1 && w.terminal <= 1
  {
    RunKeeps(NEW, es);
    var w := After(NEW, es);
    forall i, j | 0 <= i < j < |w.history|
      ensures w.history[i].to != w.history[j].to && !IsTerminal(w.history[i].to)
    {
      RanksRise(w.history, w.row.state, i, j);
      TerminalRank(w.history[i].to);
      TerminalRank(w.history[j].to);
    }
  }

  /** Once the row is terminal nothing moves it. */
  lemma {:induction false} NothingAfterwards(w: World, es: seq<Event>)
    requires Inv(w) && IsTerminal(w.row.state) && Legal(w, es)
    ensures After(w, es).row == w.row && After(w, es).history == w.history
    decreases |es|
  {
    if es != [] {
      var v := Apply(w, es[0]);
      ApplyKeeps(w, es[0]);
      if es[0].Cas? { HopClimbs(w.callers[es[0].p]); TerminalRank(w.row.state); }
      NothingAfterwards(v, es[1..]);
    }
  }

  // ---- nothing is left untold ----

  predicate NobodyDies(es: seq<Event>) { forall i :: 0 <= i < |es| ==> !es[i].Die? }

  predicate Entered(history: seq<Hop>, s: SessionState) { exists i :: 0 <= i < |history| && history[i].to == s }

  /** What has happened is told, or somebody is about to tell it; and nothing else is. */
  predicate Tells(w: World) {
    && (Entered(w.history, ACTIVE) ==>
          w.row.startedAt && (w.started == 1 || exists p :: p in w.callers && TellsStart(w.callers[p])))
    && (IsTerminal(w.row.state) ==> w.terminal == 1 || exists p :: p in w.callers && TellsEnd(w.callers[p]))
    && (w.started == 1 || w.row.startedAt ==> Entered(w.history, ACTIVE))
    && (forall p :: p in w.callers && TellsStart(w.callers[p]) ==> Entered(w.history, ACTIVE))
  }

  lemma EnteredStays(history: seq<Hop>, hop: Hop, s: SessionState)
    ensures Entered(history + [hop], s) <==> Entered(history, s) || hop.to == s
  {
    if Entered(history, s) {
      var i :| 0 <= i < |history| && history[i].to == s;
      assert (history + [hop])[i].to == s;
    }
    assert (history + [hop])[|history|] == hop;
  }

  lemma HopTells(w: World, p: nat)
    requires Inv(w) && Tells(w) && p in w.callers && w.callers[p].Hopping? && w.row.state == w.callers[p].current
    ensures Tells(TryHop(w, p))
  {
    var v, c := TryHop(w, p), w.callers[p];
    HopClimbs(c);
    TerminalRank(w.row.state);
    EnteredStays(w.history, Hop(c.current, Next(c)), ACTIVE);
    if Next(c).ACTIVE? { assert TellsStart(v.callers[p]); }
    if q :| q in w.callers && TellsStart(w.callers[q]) { assert TellsStart(v.callers[q]); }
    if IsTerminal(v.row.state) { assert TellsEnd(v.callers[p]); }
  }

  lemma LossTells(w: World, p: nat)
    requires Tells(w) && p in w.callers && w.callers[p].Hopping?
    ensures Tells(w.(callers := w.callers - {p}))
  {
    var v := w.(callers := w.callers - {p});
    if q :| q in w.callers && TellsStart(w.callers[q]) { assert TellsStart(v.callers[q]); }
    if q :| q in w.callers && TellsEnd(w.callers[q]) { assert TellsEnd(v.callers[q]); }
  }

  lemma TellTells(w: World, p: nat)
    requires Inv(w) && Tells(w) && p in w.callers && w.callers[p].Telling?
    ensures Tells(TellHop(w, p))
  {
    var v := TellHop(w, p);
    assert OnPath(w.callers[p]);
    if !TellsStart(w.callers[p]) {
      if q :| q in w.callers && TellsStart(w.callers[q]) { assert TellsStart(v.callers[q]); }
    }
    if !TellsEnd(w.callers[p]) {
      if q :| q in w.callers && TellsEnd(w.callers[q]) { assert TellsEnd(v.callers[q]); }
    }
  }

  lemma BeginTells(w: World, p: nat, to: SessionState)
    requires Tells(w) && p !in w.callers
    ensures Tells(w.(callers := w.callers[p := Hopping(w.row.state, to, w.row.startedAt)]))
  {
    var v := w.(callers := w.callers[p := Hopping(w.row.state, to, w.row.startedAt)]);
    if q :| q in w.callers && TellsStart(w.callers[q]) { assert TellsStart(v.callers[q]); }
    if q :| q in w.callers && TellsEnd(w.callers[q]) { assert TellsEnd(v.callers[q]); }
  }

  lemma ApplyTells(w: World, e: Event)
    requires Inv(w) && Tells(w) && Enabled(w, e) && !e.Die?
    ensures Tells(Apply(w, e))
  {
    match e
    case Begin(p, to) => BeginTells(w, p, to);
    case Cas(p) => if w.row.state == w.callers[p].current { HopTells(w, p); } else { LossTells(w, p); }
    case Tell(p) => TellTells(w, p);
  }

  lemma {:induction false} RunTells(w: World, es: seq<Event>)
    requires Inv(w) && Tells(w) && Legal(w, es) && NobodyDies(es)
    ensures Tells(After(w, es))
    decreases |es|
  {
    if es != [] {
      assert NobodyDies(es[1..]) by { assert forall i :: 0 <= i < |es[1..]| ==> es[1..][i] == es[i + 1]; }
      ApplyTells(w, es[0]);
      ApplyKeeps(w, es[0]);
      RunTells(Apply(w, es[0]), es[1..]);
    }
  }

  /** If no caller dies, then once all have left, "started" has been emitted exactly if ACTIVE was entered, and
      the terminal event exactly if the row is terminal. */
  lemma EventsExactly(es: seq<Event>)
    requires Legal(NEW, es) && NobodyDies(es) && After(NEW, es).callers == map[]
    ensures var w := After(NEW, es);
            && w.started == (if Entered(w.history, ACTIVE) then 1 else 0)
            && w.terminal == (if IsTerminal(w.row.state) then 1 else 0)
            && (w.row.startedAt <==> Entered(w.history, ACTIVE))
  {
    RunKeeps(NEW, es);
    RunTells(NEW, es);
    TerminalRank(After(NEW, es).row.state);
  }

  // ---- the method is a run of the machine ----

  /** The world in which p alone has reached `current` on its way to `to`. */
  function Alone(w: World, p: nat, to: SessionState, saw: bool): World {
    w.(callers := if w.row.state == to then map[] else map[p := Hopping(w.row.state, to, saw)])
  }

  /** A caller on its own goes along its route. */
  lemma {:induction false} RouteIsARun(w: World, p: nat, to: SessionState, saw: bool) returns (es: seq<Event>)
    requires PathTo(w.row.state, to).Some?
    ensures Legal(Alone(w, p, to, saw), es)
    ensures var v := After(Alone(w, p, to, saw), es);
            && v.row.state == to && v.callers == map[]
            && v.history == w.history + HopsAlong(w.row.state, PathTo(w.row.state, to).value)
    decreases |PathTo(w.row.state, to).value|
  {
    var from := w.row.state;
    if from == to {
      es := [];
    } else {
      PathIsLegal(from, to);
      var next := PathTo(from, to).value[0];
      HopsFirst(from, PathTo(from, to).value);
      var start := Alone(w, p, to, saw);
      var won := Apply(start, Cas(p));
      var told := Apply(won, Tell(p));
      assert told.callers == if next == to then map[] else map[p := Hopping(next, to, saw)];
      var more := RouteIsARun(told, p, to, saw);
      assert Alone(told, p, to, saw) == told;
      es := [Cas(p), Tell(p)] + more;
      TwoMore(start, Cas(p), Tell(p), more);
    }
  }

  lemma TwoMore(w: World, a: Event, b: Event, es: seq<Event>)
    requires Enabled(w, a) && Enabled(Apply(w, a), b) && Legal(Apply(Apply(w, a), b), es)
    ensures Legal(w, [a, b] + es) && After(w, [a, b] + es) == After(Apply(Apply(w, a), b), es)
  {
    var es' := [a, b] + es;
    assert es'[1..] == [b] + es && es'[1..][1..] == es;
  }

  /** So with no other caller a transition is a run of the machine that does what `Session.Transition` does. */
  lemma TransitionIsARun(w: World, p: nat, to: SessionState) returns (es: seq<Event>)
    requires w.callers == map[] && HasRoute(w.row.state, to)
    ensures Legal(w, es)
    ensures var v := After(w, es);
            v.row.state == to && v.callers == map[] &&
            exists path :: IsShortest(w.row.state, path, to) && v.history == w.history + HopsAlong(w.row.state, path)
  {
    RouteExactly(w.row.state, to);
    PathIsShortest(w.row.state, to);
    var begun := Apply(w, Begin(p, to));
    var more := RouteIsARun(w, p, to, w.row.startedAt);
    assert begun == Alone(w, p, to, w.row.startedAt);
    es := [Begin(p, to)] + more;
    assert es[1..] == more;
  }
}
