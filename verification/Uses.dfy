/** Links and tokens with a limited number of uses: a use is taken before a session is created and given
    back when the creation fails. The creation writes the session row and then an event, outside any
    transaction, so it can fail with its row standing. Any number of callers, updates and revocations
    interleave. */
module Uses {
  import opened Wrappers

  datatype Mode = MultiUse | OneTime

  /** The row of a link or a token. A token has no updates and always an expiry. */
  datatype Row = Row(useCount: int, mode: Mode, maxUses: Option<nat>, expiresAt: Option<int>, revokedAt: Option<int>)

  datatype Status = Active | Revoked | Expired | Exhausted

  /** linkStatus, and tokenStatus on the rows of tokens. */
  function StatusOf(r: Row, now: int): Status {
    if r.revokedAt.Some? then Revoked
    else if r.expiresAt.Some? && r.expiresAt.value <= now then Expired
    else if r.maxUses.Some? && r.useCount >= r.maxUses.value then Exhausted
    else Active
  }

  /** A use can be taken: not revoked, not expired, and below the limit if there is one. */
  predicate Usable(r: Row, now: int) {
    && r.revokedAt == None
    && (r.expiresAt == None || now < r.expiresAt.value)
    && (r.maxUses == None || r.useCount < r.maxUses.value)
  }

  /** Each status, on the fields of the row: a revocation comes before an expiry, and that before the limit. */
  lemma StatusExactly(r: Row, now: int)
    ensures StatusOf(r, now).Revoked? <==> r.revokedAt != None
    ensures StatusOf(r, now).Expired? <==> r.revokedAt == None && r.expiresAt != None && r.expiresAt.value <= now
    ensures StatusOf(r, now).Exhausted? <==> && r.revokedAt == None && (r.expiresAt == None || now < r.expiresAt.value)
                                             && r.maxUses != None && r.maxUses.value <= r.useCount
    ensures StatusOf(r, now).Active? <==> Usable(r, now)
  {
  }

  /** The fields of an update that were given. */
  datatype Body = Body(mode: Option<Mode>, maxUses: Option<Option<nat>>, expiresAt: Option<Option<int>>)

  function NewMode(cur: Row, body: Body): Mode { if body.mode.Some? then body.mode.value else cur.mode }

  /** The limit an update writes, from the row it read. */
  function NewMax(cur: Row, body: Body): Option<nat> {
    if NewMode(cur, body) == OneTime then Some(1)
    else if body.maxUses.Some? then body.maxUses.value
    else if cur.mode == OneTime then None
    else cur.maxUses
  }

  /** The atomic row operations, each with its WHERE evaluated at the same instant. */

  function Take(r: Row, now: int): Row {
    if StatusOf(r, now) == Active then r.(useCount := r.useCount + 1) else r
  }

  function PutBack(r: Row): Row { if r.useCount > 0 then r.(useCount := r.useCount - 1) else r }

  function Revoking(r: Row, now: int): Row { r.(revokedAt := Some(now)) }

  function Written(r: Row, cur: Row, body: Body): Row {
    r.(mode := NewMode(cur, body), maxUses := NewMax(cur, body),
       expiresAt := if body.expiresAt.Some? then body.expiresAt.value else cur.expiresAt)
  }

  /** How createSession ends: both writes made, none, or the session row without its event. */
  datatype Creation = Whole | NoRow | RowOnly

  /** The row in place, with the queries the services run on it. */
  class Link {
    var useCount: int
    var mode: Mode
    var maxUses: Option<nat>
    var expiresAt: Option<int>
    var revokedAt: Option<int>

    function Model(): Row
      reads this
    {
      Row(useCount, mode, maxUses, expiresAt, revokedAt)
    }

    constructor Create(mode: Mode, maxUses: Option<nat>, expiresAt: Option<int>)
      ensures Model() == Row(0, mode, if mode == OneTime then Some(1) else maxUses, expiresAt, None)
    {
      useCount, revokedAt := 0, None;
      this.mode, this.expiresAt := mode, expiresAt;
      this.maxUses := if mode == OneTime then Some(1) else maxUses;
    }

    /** The conditional increment: it succeeds exactly when the status is active. */
    method Consume(now: int) returns (consumed: bool)
      modifies this
      ensures consumed <==> Usable(old(Model()), now)
      ensures Model() == old(Model()).(useCount := old(useCount) + if consumed then 1 else 0)
    {
      consumed :=
        && revokedAt == None
        && (expiresAt == None || expiresAt.value > now)
        && (maxUses == None || useCount < maxUses.value);
      if consumed {
        useCount := useCount + 1;
      }
    }

    method GiveBack()
      modifies this
      ensures Model() == old(Model()).(useCount := if old(useCount) > 0 then old(useCount) - 1 else old(useCount))
    {
      if useCount > 0 {
        useCount := useCount - 1;
      }
    }

    method Revoke(now: int)
      modifies this
      ensures Model() == old(Model()).(revokedAt := if old(revokedAt) != None then old(revokedAt) else Some(now))
    {
      if revokedAt.Some? {
        return;
      }
      revokedAt := Some(now);
    }

    /** An update refuses a revoked link; here the row read and the row written are the same. */
    method Update(body: Body) returns (ok: bool)
      modifies this
      ensures ok <==> old(revokedAt) == None
      ensures useCount == old(useCount) && revokedAt == old(revokedAt)
      ensures !ok ==> Model() == old(Model())
      ensures ok ==> mode == if body.mode.Some? then body.mode.value else old(mode)
      ensures ok ==> expiresAt == if body.expiresAt.Some? then body.expiresAt.value else old(expiresAt)
      ensures ok && mode == OneTime ==> maxUses == Some(1)
      ensures ok && mode == MultiUse && body.maxUses.Some? ==> maxUses == body.maxUses.value
      ensures ok && mode == MultiUse && body.maxUses.None? ==>
                maxUses == if old(mode) == OneTime then None else old(maxUses)
      ensures ok ==> Model() == Written(old(Model()), old(Model()), body)
    {
      if revokedAt.Some? {
        return false;
      }
      var newMode := if body.mode.Some? then body.mode.value else mode;
      var oneTime := mode == OneTime;
      expiresAt := if body.expiresAt.Some? then body.expiresAt.value else expiresAt;
      maxUses :=
        if newMode == OneTime then Some(1)
        else if body.maxUses.Some? then body.maxUses.value
        else if oneTime then None
        else maxUses;
      mode := newMode;
      return true;
    }

    /** A start with nothing else going on. `given` says whether the give-back of a failed one went through.
        The row is as before after a failed start, unless its give-back is lost; whether a session row stands
        is another matter. */
    method Start(now: int, creation: Creation, given: bool) returns (started: bool, rowStands: bool)
      requires useCount >= 0
      modifies this
      ensures started <==> Usable(old(Model()), now) && creation.Whole?
      ensures rowStands <==> Usable(old(Model()), now) && !creation.NoRow?
      ensures Model() == if Usable(old(Model()), now) && (creation.Whole? || !given)
                         then old(Model()).(useCount := old(useCount) + 1) else old(Model())
    {
      var consumed := Consume(now);
      if !consumed {
        return false, false;
      }
      rowStands := !creation.NoRow?;
      started := creation.Whole?;
      if !started && given {
        GiveBack();
      }
    }
  }

  // ---- all interleavings ----

  /** The row; the callers that have consumed a use and written no session row, and those that have written one
      and not finished; the updates that have read the row and not written it; and what was counted. `handed`
      sessions reached their caller. Of the failed starts, `refunded` left a session row and gave the use back,
      `stranded` left one and lost the use, `bare` left none and lost the use. `consumed` counts all uses ever
      taken; `highest` is the largest limit ever in force, and `unlimited` whether there ever was none. */
  datatype State = State(row: Row, inflight: set<nat>, written: set<nat>, updates: map<nat, Row>,
                         handed: nat, refunded: nat, stranded: nat, bare: nat, consumed: nat,
                         highest: nat, unlimited: bool)

  /** The session rows there are. */
  function Rows(s: State): nat { s.handed + |s.written| + s.refunded + s.stranded }

  datatype Event =
    | Consume(p: nat, now: int)
    | WriteRow(p: nat)
    | Hand(p: nat)
    | Fail(p: nat, given: bool)
    | Revoke(now: int)
    | UpdateRead(u: nat)
    | UpdateWrite(u: nat, body: Body)

  predicate Enabled(s: State, e: Event) {
    match e
    case Consume(p, _) => p !in s.inflight && p !in s.written
    case WriteRow(p) => p in s.inflight && p !in s.written
    case Hand(p) => p in s.written
    case Fail(p, _) => p in s.inflight || p in s.written
    case Revoke(_) => true
    case UpdateRead(u) => u !in s.updates && s.row.revokedAt.None?
    case UpdateWrite(u, _) => u in s.updates
  }

  /** A start that fails, with or without its session row; a give-back that is lost, or a caller that dies,
      gives nothing back. */
  function FailStep(s: State, p: nat, given: bool): State {
    var row := if given then PutBack(s.row) else s.row;
    if p in s.written then
      s.(row := row, written := s.written - {p},
         refunded := s.refunded + (if given then 1 else 0), stranded := s.stranded + if given then 0 else 1)
    else s.(row := row, inflight := s.inflight - {p}, bare := s.bare + if given then 0 else 1)
  }

  function UpdateStep(s: State, u: nat, body: Body): State
    requires u in s.updates
  {
    var row := Written(s.row, s.updates[u], body);
    s.(row := row, updates := s.updates - {u},
       highest := if row.maxUses.Some? && row.maxUses.value > s.highest then row.maxUses.value else s.highest,
       unlimited := s.unlimited || row.maxUses.None?)
  }

  function Apply(s: State, e: Event): State
    requires Enabled(s, e)
  {
    match e
    case Consume(p, now) =>
      if StatusOf(s.row, now) == Active
      then s.(row := Take(s.row, now), inflight := s.inflight + {p}, consumed := s.consumed + 1)
      else s
    case WriteRow(p) => s.(inflight := s.inflight - {p}, written := s.written + {p})
    case Hand(p) => s.(written := s.written - {p}, handed := s.handed + 1)
    case Fail(p, given) => FailStep(s, p, given)
    case Revoke(now) => s.(row := Revoking(s.row, now))
    case UpdateRead(u) => s.(updates := s.updates[u := s.row])
    case UpdateWrite(u, body) => UpdateStep(s, u, body)
  }

  function Fresh(row: Row): State {
    State(row, {}, {}, map[], 0, 0, 0, 0, 0, if row.maxUses.Some? then row.maxUses.value else 0, row.maxUses.None?)
  }

  predicate Legal(s: State, es: seq<Event>)
    decreases |es|
  {
    es == [] || (Enabled(s, es[0]) && Legal(Apply(s, es[0]), es[1..]))
  }

  function After(s: State, es: seq<Event>): State
    requires Legal(s, es)
    decreases |es|
  {
    if es == [] then s else After(Apply(s, es[0]), es[1..])
  }

  // ---- nobody is refused without a reason ----

  predicate OnlyStarts(es: seq<Event>) {
    forall i :: 0 <= i < |es| ==> es[i].Consume? || es[i].WriteRow? || es[i].Hand? || es[i].Fail?
  }

  predicate AllBefore(es: seq<Event>, expiry: Option<int>) {
    expiry.Some? ==> forall i :: 0 <= i < |es| && es[i].Consume? ==> es[i].now < expiry.value
  }

  /** How many callers ask for a use. */
  function Asks(es: seq<Event>): nat {
    if es == [] then 0 else (if es[0].Consume? then 1 else 0) + Asks(es[1..])
  }

  /** A row without a limit that is not revoked serves everybody who comes before its expiry, in every
      interleaving of starts that succeed and fail. */
  lemma {:induction false} UnlimitedServesAll(s: State, es: seq<Event>)
    requires s.row.maxUses == None && s.row.revokedAt == None
    requires Legal(s, es) && OnlyStarts(es) && AllBefore(es, s.row.expiresAt)
    ensures After(s, es).consumed == s.consumed + Asks(es)
    decreases |es|
  {
    if es != [] {
      TailOf(es);
      StatusExactly(s.row, if es[0].Consume? then es[0].now else 0);
      UnlimitedServesAll(Apply(s, es[0]), es[1..]);
    }
  }

  /** A row with a limit serves everybody as long as the uses taken leave room. */
  lemma {:induction false} LimitServes(s: State, es: seq<Event>, limit: nat)
    requires s.row.maxUses == Some(limit) && s.row.revokedAt == None && s.row.useCount + Asks(es) <= limit
    requires Legal(s, es) && OnlyStarts(es) && AllBefore(es, s.row.expiresAt)
    ensures After(s, es).consumed == s.consumed + Asks(es)
    decreases |es|
  {
    if es != [] {
      TailOf(es);
      StatusExactly(s.row, if es[0].Consume? then es[0].now else 0);
      LimitServes(Apply(s, es[0]), es[1..], limit);
    }
  }

  lemma TailOf(es: seq<Event>)
    requires es != []
    ensures forall i :: 0 <= i < |es[1..]| ==> es[1..][i] == es[i + 1]
  {
  }

  // ---- what updates keep ----

  /** A row for one use has the limit one. */
  predicate OneMeansOne(r: Row) { r.mode == OneTime ==> r.maxUses == Some(1) }

  /** In every interleaving of updates, a one-time row has the limit one. */
  lemma {:induction false} OneTimeHasLimitOne(s: State, es: seq<Event>)
    requires OneMeansOne(s.row) && Legal(s, es)
    ensures OneMeansOne(After(s, es).row)
    decreases |es|
  {
    if es != [] { OneTimeHasLimitOne(Apply(s, es[0]), es[1..]); }
  }

  /** An update that gives nothing changes nothing; one that gives a limit to a row for many uses sets it; and one
      that turns a one-time row into one for many uses without giving a limit takes the limit away. */
  lemma UpdatesSetLimits(r: Row, limit: Option<nat>, body: Body)
    ensures OneMeansOne(r) && body == Body(None, None, None) ==> Written(r, r, body) == r
    ensures Written(r, r, body.(mode := Some(MultiUse), maxUses := Some(limit))).maxUses == limit
    ensures r.mode == OneTime ==> Written(r, r, body.(mode := Some(MultiUse), maxUses := None)).maxUses == None
    ensures Written(r, r, body.(mode := Some(OneTime))).maxUses == Some(1)
  {
  }

  /** An update that writes late overwrites mode, limit and expiry with what it read, unless it was given others,
      and leaves the count and a revocation alone. */
  lemma LateUpdate(r: Row, cur: Row)
    ensures Written(r, cur, Body(None, None, None)) ==
            Row(r.useCount, cur.mode, if cur.mode == OneTime then Some(1) else cur.maxUses, cur.expiresAt, r.revokedAt)
  {
  }

  /** Every use is accounted for, and the count stays within some limit that was in force. */
  predicate Inv(s: State) {
    && s.inflight !! s.written
    && s.row.useCount == s.handed + |s.inflight| + |s.written| + s.stranded + s.bare
    && (!s.unlimited ==> s.row.maxUses.Some? && s.row.maxUses.value <= s.highest && s.row.useCount <= s.highest)
  }

  lemma Sizes(s: set<nat>, p: nat)
    ensures p !in s ==> |s + {p}| == |s| + 1
    ensures p in s ==> |s - {p}| == |s| - 1
  {
  }

  lemma ApplyKeeps(s: State, e: Event)
    requires Inv(s) && Enabled(s, e)
    ensures Inv(Apply(s, e))
  {
    if e.Consume? || e.WriteRow? || e.Hand? || e.Fail? {
      Sizes(s.inflight, e.p);
      Sizes(s.written, e.p);
    }
  }

  lemma {:induction false} RunKeeps(s: State, es: seq<Event>)
    requires Inv(s) && Legal(s, es)
    ensures Inv(After(s, es))
    decreases |es|
  {
    if es != [] {
      ApplyKeeps(s, es[0]);
      RunKeeps(Apply(s, es[0]), es[1..]);
    }
  }

  /** In every interleaving the use count is the sessions handed to a caller, the starts under way, and the
      failed starts whose give-back was lost; it and the sessions handed never exceed the largest limit that was
      ever in force; and a start under way always finds something to give back. */
  lemma UsesAreConserved(row: Row, es: seq<Event>)
    requires row.useCount == 0 && Legal(Fresh(row), es)
    ensures var s := After(Fresh(row), es);
            && s.row.useCount == s.handed + |s.inflight| + |s.written| + s.stranded + s.bare
            && (!s.unlimited ==> s.handed <= s.row.useCount <= s.highest)
            && (s.inflight + s.written != {} ==> PutBack(s.row).useCount == s.row.useCount - 1)
  {
    RunKeeps(Fresh(row), es);
    var s := After(Fresh(row), es);
    if s.inflight != {} { assert |s.inflight| > 0; }
    if s.written != {} { assert |s.written| > 0; }
  }

  /** The session rows are the uses counted, less those that have no row, plus the refunds that have one. */
  lemma RowsAccounted(row: Row, es: seq<Event>)
    requires row.useCount == 0 && Legal(Fresh(row), es)
    ensures var s := After(Fresh(row), es); Rows(s) == s.row.useCount - |s.inflight| - s.bare + s.refunded
  {
    RunKeeps(Fresh(row), es);
  }

  predicate NoUpdate(es: seq<Event>) { forall i :: 0 <= i < |es| ==> !es[i].UpdateWrite? }

  lemma {:induction false} LimitsStay(s: State, es: seq<Event>)
    requires Legal(s, es) && NoUpdate(es)
    ensures var t := After(s, es);
            && t.row.maxUses == s.row.maxUses && t.row.expiresAt == s.row.expiresAt
            && t.highest == s.highest && t.unlimited == s.unlimited
    decreases |es|
  {
    if es != [] {
      assert NoUpdate(es[1..]) by { assert forall i :: 0 <= i < |es[1..]| ==> es[1..][i] == es[i + 1]; }
      LimitsStay(Apply(s, es[0]), es[1..]);
    }
  }

  /** A token, which has no updates: the sessions handed to callers, with the starts under way and the uses lost,
      never exceed its limit. */
  lemma TokenWithinLimit(row: Row, es: seq<Event>)
    requires row.useCount == 0 && row.maxUses.Some? && Legal(Fresh(row), es) && NoUpdate(es)
    ensures var s := After(Fresh(row), es);
            s.handed + |s.inflight| + |s.written| + s.stranded + s.bare <= row.maxUses.value
  {
    RunKeeps(Fresh(row), es);
    LimitsStay(Fresh(row), es);
  }

  // ---- session rows can exceed the limit ----

  const ONE_USE := Row(0, OneTime, Some(1), Some(10), None)

  /** A one-time token, two callers: the first writes its session row, fails at the event and gives the use back;
      the second starts as well. */
  const TWICE := FIRST + SECOND

  const FIRST := [Consume(0, 0), WriteRow(0), Fail(0, true)]

  const SECOND := [Consume(1, 0), WriteRow(1), Hand(1)]

  lemma SecondStart(s: State)
    requires s.row == ONE_USE && s.inflight == {} && s.written == {}
    ensures Legal(s, SECOND)
    ensures var t := After(s, SECOND);
            && t.handed == s.handed + 1 && t.row.useCount == 1 && t.written == {}
            && t.refunded == s.refunded && t.stranded == s.stranded
  {
    var s1 := Apply(s, Consume(1, 0));
    var s2 := Apply(s1, WriteRow(1));
    assert s1.inflight == {1} && s2.written == {1} && s2.written - {1} == {};
    ThreeSteps(s, Consume(1, 0), WriteRow(1), Hand(1));
  }

  lemma ThreeSteps(s: State, a: Event, b: Event, c: Event)
    requires Enabled(s, a) && Enabled(Apply(s, a), b) && Enabled(Apply(Apply(s, a), b), c)
    ensures Legal(s, [a, b, c]) && After(s, [a, b, c]) == Apply(Apply(Apply(s, a), b), c)
  {
    var t := Apply(Apply(s, a), b);
    NoStep(Apply(t, c), []);
    Unroll(t, c, []);
    Unroll(Apply(s, a), b, [c]);
    Unroll(s, a, [b, c]);
    assert [a] + [b, c] == [a, b, c] && [b] + [c] == [b, c] && [c] + [] == [c];
  }

  lemma NoStep(s: State, es: seq<Event>)
    requires es == []
    ensures Legal(s, es) && After(s, es) == s
  {
  }

  lemma Unroll(s: State, e: Event, es: seq<Event>)
    requires Enabled(s, e) && Legal(Apply(s, e), es)
    ensures Legal(s, [e] + es) && After(s, [e] + es) == After(Apply(s, e), es)
  {
    assert ([e] + es)[1..] == es;
  }

  lemma FirstStart(s: State)
    requires s == Fresh(ONE_USE)
    ensures Legal(s, FIRST)
    ensures var t := After(s, FIRST);
            t.row == ONE_USE && t.inflight == {} && t.written == {}
            && t.refunded == 1 && t.handed == 0 && t.stranded == 0
  {
    var s1 := Apply(s, Consume(0, 0));
    var s2 := Apply(s1, WriteRow(0));
    assert s1.inflight == {0} && s2.inflight == {} && s2.written == {0} && s2.written - {0} == {};
    ThreeSteps(s, Consume(0, 0), WriteRow(0), Fail(0, true));
  }

  lemma TwoRowsOnOneUse()
    ensures Legal(Fresh(ONE_USE), TWICE) && NoUpdate(TWICE)
    ensures Rows(After(Fresh(ONE_USE), TWICE)) == 2 && After(Fresh(ONE_USE), TWICE).row.useCount == 1
  {
    var s := Fresh(ONE_USE);
    FirstStart(s);
    var t := After(s, FIRST);
    SecondStart(t);
    AfterAppend(s, FIRST, SECOND);
    TwiceIsPlain();
  }

  lemma TwiceIsPlain()
    ensures NoUpdate(TWICE)
  {
  }

  lemma {:induction false} AfterAppend(s: State, es: seq<Event>, more: seq<Event>)
    requires Legal(s, es) && Legal(After(s, es), more)
    ensures Legal(s, es + more) && After(s, es + more) == After(After(s, es), more)
    decreases |es|
  {
    if es == [] {
      assert es + more == more;
    } else {
      assert (es + more)[1..] == es[1..] + more;
      AfterAppend(Apply(s, es[0]), es[1..], more);
    }
  }

  /** No session row is left behind with its use given back. */
  predicate NoRefund(s: State, es: seq<Event>)
    requires Legal(s, es)
    decreases |es|
  {
    es == [] || (Apply(s, es[0]).refunded == s.refunded && NoRefund(Apply(s, es[0]), es[1..]))
  }

  lemma {:induction false} RefundsStay(s: State, es: seq<Event>)
    requires Legal(s, es) && NoRefund(s, es)
    ensures After(s, es).refunded == s.refunded && After(s, es).bare >= s.bare
    decreases |es|
  {
    if es != [] { RefundsStay(Apply(s, es[0]), es[1..]); }
  }

  /** Whatever follows without updates and without another such refund, the session rows stay within the limit. */
  ghost predicate RowsStayWithin(s: State, limit: nat) {
    forall es :: Legal(s, es) && NoUpdate(es) && NoRefund(s, es) ==> Rows(After(s, es)) <= limit
  }

  /** Fill the limit: every start under way writes its row, and every use left is taken for one more. */
  lemma {:induction false} Fill(s: State, now: int, limit: nat) returns (es: seq<Event>)
    requires Inv(s) && s.row.maxUses == Some(limit) && s.row.useCount <= limit
    requires s.row.revokedAt.None? && (s.row.expiresAt.Some? ==> s.row.expiresAt.value > now)
    ensures Legal(s, es) && NoUpdate(es) && NoRefund(s, es)
    ensures var t := After(s, es);
            t.inflight == {} && t.row.useCount == limit && t.bare == s.bare && t.refunded == s.refunded && Inv(t)
    decreases limit - s.row.useCount, |s.inflight|
  {
    if s.inflight == {} && s.row.useCount == limit {
      es := [];
    } else {
      var e := NextToFill(s, now, limit);
      var t := Apply(s, e);
      var rest := Fill(t, now, limit);
      es := [e] + rest;
      Unroll(s, e, rest);
      assert es[1..] == rest;
    }
  }

  lemma NextToFill(s: State, now: int, limit: nat) returns (e: Event)
    requires Inv(s) && s.row.maxUses == Some(limit) && s.row.useCount <= limit
    requires s.row.revokedAt.None? && (s.row.expiresAt.Some? ==> s.row.expiresAt.value > now)
    requires s.inflight != {} || s.row.useCount < limit
    ensures Enabled(s, e) && !e.UpdateWrite?
    ensures var t := Apply(s, e);
            && Inv(t) && t.row == s.row.(useCount := t.row.useCount) && t.row.useCount <= limit
            && t.bare == s.bare && t.refunded == s.refunded
            && (t.row.useCount > s.row.useCount || (t.row.useCount == s.row.useCount && |t.inflight| < |s.inflight|))
  {
    if p :| p in s.inflight {
      e := WriteRow(p);
      Sizes(s.inflight, p);
    } else {
      var p := Newcomer(s.inflight + s.written);
      e := Consume(p, now);
    }
    ApplyKeeps(s, e);
  }

  lemma Newcomer(s: set<nat>) returns (p: nat)
    ensures p !in s
  {
    p := Bound(s);
  }

  lemma {:induction false} Bound(s: set<nat>) returns (b: nat)
    ensures forall x :: x in s ==> x < b
    decreases |s|
  {
    if s == {} {
      b := 0;
    } else {
      var x :| x in s;
      Sizes(s, x);
      var c := Bound(s - {x});
      b := if x < c then c else x + 1;
      forall y | y in s ensures y < b {
        if y != x { assert y in s - {x}; }
      }
    }
  }

  /** On a token still usable the session rows stay within the limit, as long as no start fails with its row
      standing and gives the use back again, exactly when such refunds so far do not outnumber the uses lost
      without a row. */
  lemma RowsWithinLimitExactly(row: Row, es: seq<Event>, now: int)
    requires row.useCount == 0 && row.maxUses.Some? && Legal(Fresh(row), es) && NoUpdate(es)
    requires var r := After(Fresh(row), es).row;
             r.revokedAt.None? && (r.expiresAt.Some? ==> r.expiresAt.value > now)
    ensures var s := After(Fresh(row), es); RowsStayWithin(s, row.maxUses.value) <==> s.refunded <= s.bare
  {
    RunKeeps(Fresh(row), es);
    LimitsStay(Fresh(row), es);
    var s, limit := After(Fresh(row), es), row.maxUses.value;
    if s.refunded <= s.bare {
      forall more | Legal(s, more) && NoUpdate(more) && NoRefund(s, more) ensures Rows(After(s, more)) <= limit {
        RunKeeps(s, more);
        LimitsStay(s, more);
        RefundsStay(s, more);
      }
    } else {
      var more := Fill(s, now, limit);
      assert Rows(After(s, more)) > limit;
    }
  }

  /** In particular they do when no start ever fails with its row standing and gives the use back. */
  lemma RowsWithinLimitWithoutRefunds(row: Row, es: seq<Event>)
    requires row.useCount == 0 && row.maxUses.Some? && Legal(Fresh(row), es) && NoUpdate(es)
    requires NoRefund(Fresh(row), es)
    ensures Rows(After(Fresh(row), es)) <= row.maxUses.value
  {
    RunKeeps(Fresh(row), es);
    LimitsStay(Fresh(row), es);
    RefundsStay(Fresh(row), es);
  }

  // ---- revocation and expiry ----

  /** After a revocation nothing is consumed, whatever updates were under way. */
  lemma {:induction false} NothingAfterRevocation(s: State, es: seq<Event>)
    requires s.row.revokedAt.Some? && s.inflight !! s.written && Legal(s, es)
    ensures After(s, es).consumed == s.consumed && After(s, es).row.revokedAt.Some?
    ensures After(s, es).inflight + After(s, es).written <= s.inflight + s.written
    ensures Rows(After(s, es)) <= Rows(s) + |s.inflight|
    decreases |es|
  {
    if es != [] {
      RevokedStep(s, es[0]);
      RevokedRows(s, es[0]);
      NothingAfterRevocation(Apply(s, es[0]), es[1..]);
    }
  }

  lemma RevokedStep(s: State, e: Event)
    requires s.row.revokedAt.Some? && s.inflight !! s.written && Enabled(s, e)
    ensures var t := Apply(s, e);
            && t.consumed == s.consumed && t.row.revokedAt.Some? && t.inflight !! t.written
            && t.inflight + t.written <= s.inflight + s.written
  {
  }

  lemma RevokedRows(s: State, e: Event)
    requires s.row.revokedAt.Some? && Enabled(s, e)
    ensures Rows(Apply(s, e)) + |Apply(s, e).inflight| <= Rows(s) + |s.inflight|
  {
    if e.WriteRow? {
      Sizes(s.inflight, e.p);
      Sizes(s.written, e.p);
    } else if e.Hand? {
      Sizes(s.written, e.p);
    } else if e.Fail? {
      if e.p in s.written { Sizes(s.written, e.p); } else { Sizes(s.inflight, e.p); }
    }
  }

  /** No caller at or past the expiry. */
  predicate AllPast(es: seq<Event>, expiry: int) { forall i :: 0 <= i < |es| && es[i].Consume? ==> es[i].now >= expiry }

  /** No update of the run moves the expiry. */
  predicate ExpiryStays(s: State, es: seq<Event>)
    requires Legal(s, es)
    decreases |es|
  {
    es == [] || (Apply(s, es[0]).row.expiresAt == s.row.expiresAt && ExpiryStays(Apply(s, es[0]), es[1..]))
  }

  /** After the expiry nothing is consumed, as long as no update moves it. */
  lemma {:induction false} NothingAfterExpiry(s: State, es: seq<Event>)
    requires s.row.expiresAt.Some? && Legal(s, es) && AllPast(es, s.row.expiresAt.value) && ExpiryStays(s, es)
    ensures After(s, es).consumed == s.consumed
    ensures After(s, es).inflight + After(s, es).written <= s.inflight + s.written
    decreases |es|
  {
    if es != [] {
      assert AllPast(es[1..], s.row.expiresAt.value) by {
        assert forall i :: 0 <= i < |es[1..]| ==> es[1..][i] == es[i + 1];
      }
      NothingAfterExpiry(Apply(s, es[0]), es[1..]);
    }
  }

  // ---- the method is a run of the machine ----

  /** With nothing else going on a start is a run of the machine: it ends with the row that `Link.Start` leaves,
      hands over a session exactly when that does, and leaves a session row exactly when that does. */
  lemma StartIsARun(row: Row, now: int, creation: Creation, given: bool) returns (es: seq<Event>)
    requires row.useCount >= 0
    ensures Legal(Fresh(row), es)
    ensures var s := After(Fresh(row), es);
            && s.row == (if Usable(row, now) && (creation.Whole? || !given)
                         then row.(useCount := row.useCount + 1) else row)
            && s.handed == (if Usable(row, now) && creation.Whole? then 1 else 0)
            && Rows(s) == (if Usable(row, now) && !creation.NoRow? then 1 else 0)
            && s.inflight == {} && s.written == {}
  {
    var s := Fresh(row);
    StatusExactly(row, now);
    var s1 := Apply(s, Consume(0, now));
    if !Usable(row, now) {
      es := [Consume(0, now)] + [];
      NoStep(s1, []);
      Unroll(s, Consume(0, now), []);
    } else {
      assert s1.inflight == {0};
      var rest := StartEnds(s1, creation, given);
      es := [Consume(0, now)] + rest;
      Unroll(s, Consume(0, now), rest);
    }
  }

  lemma StartEnds(s: State, creation: Creation, given: bool) returns (es: seq<Event>)
    requires s.inflight == {0} && s.written == {} && s.row.useCount > 0
    requires s.handed == 0 && s.refunded == 0 && s.stranded == 0
    ensures Legal(s, es)
    ensures var t := After(s, es);
            && t.row == (if creation.Whole? || !given then s.row else s.row.(useCount := s.row.useCount - 1))
            && t.handed == (if creation.Whole? then 1 else 0)
            && Rows(t) == (if creation.NoRow? then 0 else 1)
            && t.inflight == {} && t.written == {}
  {
    if creation.NoRow? {
      var t := Apply(s, Fail(0, given));
      assert t.inflight == {};
      NoStep(t, []);
      es := [Fail(0, given)] + [];
      Unroll(s, Fail(0, given), []);
    } else {
      var s1 := Apply(s, WriteRow(0));
      assert s1.inflight == {} && s1.written == {0};
      var e := if creation.Whole? then Hand(0) else Fail(0, given);
      var t := Apply(s1, e);
      assert t.written == {};
      NoStep(t, []);
      Unroll(s1, e, []);
      es := [WriteRow(0)] + ([e] + []);
      Unroll(s, WriteRow(0), [e] + []);
    }
  }
}
