/** The static check on author-supplied regular expressions: a one-pass scanner with a stack. */
module SafeRegex {
  import opened Wrappers

  const MAX_PATTERN_LENGTH: nat := 200
  const MAX_UNBOUNDED: nat := 4

  datatype Frame = Frame(quantifiedInside: bool, alternation: bool)

  const FRESH := Frame(false, false)

  datatype Risk = NoRisk | TooLong | Backreference | RepeatedGroup | TooManyUnbounded

  /** What the quantifier reader returns. */
  datatype Quantifier = Quantifier(len: nat, repeats: bool, unbounded: bool)

  predicate IsDigit(c: char) { '0' <= c <= '9' }

  /** The first index from i on that holds no digit. */
  function DigitsEnd(p: string, i: nat): (e: nat)
    requires i <= |p|
    ensures i <= e <= |p|
    ensures forall j :: i <= j < e ==> IsDigit(p[j])
    ensures e < |p| ==> !IsDigit(p[e])
    decreases |p| - i
  {
    if i < |p| && IsDigit(p[i]) then DigitsEnd(p, i + 1) else i
  }

  /** Number(...) of a run of digits. */
  function Value(digits: string): nat
    requires forall j :: 0 <= j < |digits| ==> IsDigit(digits[j])
  {
    if digits == [] then 0
    else
      assert IsDigit(digits[|digits| - 1]);
      10 * Value(digits[..|digits| - 1]) + (digits[|digits| - 1] as int - '0' as int)
  }

  /** A braced quantifier with minimum digits `min` and, after a comma, `max` if any. */
  function Braced(len: nat, min: string, comma: bool, max: string): Quantifier
    requires forall j :: 0 <= j < |min| ==> IsDigit(min[j])
    requires forall j :: 0 <= j < |max| ==> IsDigit(max[j])
  {
    if comma && max == [] then Quantifier(len, true, true)
    else
      var top := if comma then Value(max) else Value(min);
      Quantifier(len, top > 1, top > 1000)
  }

  /** quantifierAt. */
  function QuantifierAt(p: string, i: nat): (q: Option<Quantifier>)
    requires i < |p|
    ensures q.Some? ==> q.value.len > 0 && i + q.value.len <= |p|
  {
    if p[i] == '*' || p[i] == '+' then Some(Quantifier(1, true, true))
    else if p[i] == '?' then Some(Quantifier(1, false, false))
    else if p[i] == '{' then
      var d := DigitsEnd(p, i + 1);
      if d == i + 1 || d == |p| then None
      else if p[d] == '}' then Some(Braced(d + 1 - i, p[i + 1..d], false, []))
      else if p[d] == ',' then
        var e := DigitsEnd(p, d + 1);
        if e < |p| && p[e] == '}' then Some(Braced(e + 1 - i, p[i + 1..d], true, p[d + 1..e])) else None
      else None
    else None
  }

  /** The locals of the loop. */
  datatype Scan = Scan(i: nat, stack: seq<Frame>, unbounded: nat, inClass: bool, lastGroup: Option<Frame>)

  const BEGIN := Scan(0, [FRESH], 0, false, None)

  function SetTop(stack: seq<Frame>, f: Frame): seq<Frame>
    requires stack != []
  {
    stack[|stack| - 1 := f]
  }

  function Top(stack: seq<Frame>): Frame
    requires stack != []
  {
    stack[|stack| - 1]
  }

  function Quantified(stack: seq<Frame>): seq<Frame>
    requires stack != []
  {
    SetTop(stack, Top(stack).(quantifiedInside := true))
  }

  predicate Dangerous(lastGroup: Option<Frame>) {
    lastGroup.Some? && (lastGroup.value.quantifiedInside || lastGroup.value.alternation)
  }

  predicate BackrefChar(c: char) { '1' <= c <= '9' || c == 'k' }

  /** One turn of the loop: the risk it reports at once, or the locals it leaves. */
  datatype Turn = Stop(risk: Risk) | Go(s: Scan)

  function OneTurn(p: string, s: Scan): (t: Turn)
    requires s.i < |p| && s.stack != []
    ensures t.Go? ==> t.s.i > s.i && t.s.stack != []
    ensures t.Stop? ==> t.risk.Backreference? || t.risk.RepeatedGroup?
  {
    var c := p[s.i];
    var next := s.(i := s.i + 1, lastGroup := None);
    if c == '\\' then
      if !s.inClass && s.i + 1 < |p| && BackrefChar(p[s.i + 1]) then Stop(Backreference)
      else Go(next.(i := s.i + 2))
    else if s.inClass then Go(s.(i := s.i + 1, inClass := c != ']'))
    else if c == '[' then Go(next.(inClass := true))
    else if c == '(' then Go(next.(stack := s.stack + [FRESH]))
    else if c == ')' then
      var frame := if |s.stack| > 1 then Top(s.stack) else FRESH;
      var rest := if |s.stack| > 1 then s.stack[..|s.stack| - 1] else s.stack;
      Go(next.(stack := if frame.quantifiedInside then Quantified(rest) else rest, lastGroup := Some(frame)))
    else if c == '|' then Go(next.(stack := SetTop(s.stack, Top(s.stack).(alternation := true))))
    else
      match QuantifierAt(p, s.i)
      case None => Go(next)
      case Some(q) =>
        if q.repeats && Dangerous(s.lastGroup) then Stop(RepeatedGroup)
        else
          var after := s.i + q.len;
          var lazy := after < |p| && p[after] == '?';
          Go(next.(i := if lazy then after + 1 else after,
                   unbounded := s.unbounded + if q.unbounded then 1 else 0,
                   stack := if q.repeats then Quantified(s.stack) else s.stack))
  }

  /** The loop from the given locals on. */
  function Loop(p: string, s: Scan): Risk
    requires s.stack != []
    decreases if s.i < |p| then |p| - s.i else 0
  {
    if s.i >= |p| then if s.unbounded > MAX_UNBOUNDED then TooManyUnbounded else NoRisk
    else
      match OneTurn(p, s)
      case Stop(risk) => risk
      case Go(s') => Loop(p, s')
  }

  function Verdict(p: string): Risk {
    if |p| > MAX_PATTERN_LENGTH then TooLong else Loop(p, BEGIN)
  }

  /** The branch of the loop for a possible quantifier. */
  method Quantify(pattern: string, s: Scan) returns (t: Turn)
    requires s.i < |pattern| && s.stack != [] && !s.inClass && pattern[s.i] !in "\\[()|"
    ensures t == OneTurn(pattern, s)
  {
    var q := QuantifierAt(pattern, s.i);
    if q.None? {
      return Go(s.(i := s.i + 1, lastGroup := None));
    }
    var i, stack, unbounded := s.i + q.value.len, s.stack, s.unbounded;
    if q.value.unbounded {
      unbounded := unbounded + 1;
    }
    if q.value.repeats {
      if s.lastGroup.Some? && (s.lastGroup.value.quantifiedInside || s.lastGroup.value.alternation) {
        return Stop(RepeatedGroup);
      }
      stack := stack[|stack| - 1 := stack[|stack| - 1].(quantifiedInside := true)];
    }
    // Lazy suffix.
    if i < |pattern| && pattern[i] == '?' {
      i := i + 1;
    }
    return Go(Scan(i, stack, unbounded, false, None));
  }

  /** The branch for a closing parenthesis: the group is popped, and a quantifier in it is one in its
      parent too. */
  method CloseGroup(stack: seq<Frame>) returns (frame: Frame, rest: seq<Frame>)
    requires stack != []
    ensures frame == if |stack| > 1 then Top(stack) else FRESH
    ensures var left := if |stack| > 1 then stack[..|stack| - 1] else stack;
            rest == if frame.quantifiedInside then Quantified(left) else left
  {
    frame, rest := FRESH, stack;
    if |stack| > 1 {
      frame, rest := stack[|stack| - 1], stack[..|stack| - 1];
    }
    if frame.quantifiedInside {
      rest := rest[|rest| - 1 := rest[|rest| - 1].(quantifiedInside := true)];
    }
  }

  lemma LoopNext(p: string, s: Scan, t: Turn)
    requires s.i < |p| && s.stack != [] && OneTurn(p, s) == t
    ensures Loop(p, s) == if t.Stop? then t.risk else Loop(p, t.s)
  {
  }

  /** regexPatternRisk. */
  method RegexPatternRisk(pattern: string) returns (risk: Risk)
    ensures risk == Verdict(pattern)
  {
    if |pattern| > MAX_PATTERN_LENGTH {
      return TooLong;
    }
    var stack := [FRESH];
    var unbounded: nat := 0;
    var inClass := false;
    var lastGroup: Option<Frame> := None;
    var i: nat := 0;
    while i < |pattern|
      invariant stack != []
      invariant Loop(pattern, BEGIN) == Loop(pattern, Scan(i, stack, unbounded, inClass, lastGroup))
      decreases if i < |pattern| then |pattern| - i else 0
    {
      ghost var s := Scan(i, stack, unbounded, inClass, lastGroup);
      LoopNext(pattern, s, OneTurn(pattern, s));
      var c := pattern[i];
      if c == '\\' {
        if !inClass && i + 1 < |pattern| && BackrefChar(pattern[i + 1]) {
          return Backreference;
        }
        i, lastGroup := i + 2, None;
      } else if inClass {
        if c == ']' {
          inClass := false;
        }
        i := i + 1;
      } else if c == '[' {
        inClass, lastGroup, i := true, None, i + 1;
      } else if c == '(' {
        stack, lastGroup, i := stack + [FRESH], None, i + 1;
      } else if c == ')' {
        var frame;
        frame, stack := CloseGroup(stack);
        lastGroup, i := Some(frame), i + 1;
      } else if c == '|' {
        stack := stack[|stack| - 1 := stack[|stack| - 1].(alternation := true)];
        lastGroup, i := None, i + 1;
      } else {
        var t := Quantify(pattern, Scan(i, stack, unbounded, inClass, lastGroup));
        if t.Stop? {
          return t.risk;
        }
        i, stack, unbounded, lastGroup := t.s.i, t.s.stack, t.s.unbounded, None;
      }
      assert OneTurn(pattern, s) == Go(Scan(i, stack, unbounded, inClass, lastGroup));
    }
    if unbounded > MAX_UNBOUNDED {
      return TooManyUnbounded;
    }
    return NoRisk;
  }
}
