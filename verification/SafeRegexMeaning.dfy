/** What the scanner's verdict means on the syntax tree of the pattern. */
module SafeRegexMeaning {
  import opened Wrappers
  import opened SafeRegex

  // The grammar of patterns: alternatives of sequences of atoms, each with or without a quantifier.
  datatype Alternatives = Single(only: Sequence) | Or(first: Sequence, others: Alternatives)
  datatype Sequence = Empty | Then(head: Term, tail: Sequence)
  datatype Term = Plain(atom: Atom) | Repeat(atom: Atom, q: Quant, lazy: bool)
  datatype Atom =
    | Literal(c: char)
    | Escape(c: char)
    | Brace
    | Class(items: seq<ClassItem>)
    | Group(prefix: string, body: Alternatives)
  datatype ClassItem = ClassChar(c: char) | ClassEscape(c: char)
  datatype Quant = Star | Plus | Opt | Exactly(min: string) | AtLeast(min: string) | Between(min: string, max: string)

  // ---- well-formed trees and their text ----

  /** A character that stands for itself. */
  predicate PlainChar(c: char) { c !in "\\[(){*+?|" }

  predicate Digits(s: string) { s != [] && forall j :: 0 <= j < |s| ==> IsDigit(s[j]) }

  /** "", or the marks of a non-capturing, named or look-around group: ?: ?= ?! ?<= ?<! ?<name> */
  predicate PrefixOk(s: string) {
    s == [] || (s[0] == '?' && |s| >= 2 && forall j :: 1 <= j < |s| ==> PlainChar(s[j]))
  }

  predicate QuantOk(q: Quant) {
    match q
    case Exactly(min) => Digits(min)
    case AtLeast(min) => Digits(min)
    case Between(min, max) => Digits(min) && Digits(max)
    case _ => true
  }

  predicate AtomOk(a: Atom) {
    match a
    case Literal(c) => PlainChar(c)
    case Escape(_) => true
    case Brace => true
    case Class(items) =>
      forall j :: 0 <= j < |items| && items[j].ClassChar? ==> items[j].c != ']' && items[j].c != '\\'
    case Group(prefix, body) => PrefixOk(prefix) && AlternativesOk(body)
  }

  predicate TermOk(t: Term) { AtomOk(t.atom) && (t.Repeat? ==> QuantOk(t.q)) }

  predicate SequenceOk(s: Sequence) { s.Then? ==> TermOk(s.head) && SequenceOk(s.tail) }

  predicate AlternativesOk(a: Alternatives) {
    match a
    case Single(only) => SequenceOk(only)
    case Or(first, others) => SequenceOk(first) && AlternativesOk(others)
  }

  function QuantText(q: Quant): string {
    match q
    case Star => "*"
    case Plus => "+"
    case Opt => "?"
    case Exactly(min) => "{" + min + "}"
    case AtLeast(min) => "{" + min + ",}"
    case Between(min, max) => "{" + min + "," + max + "}"
  }

  function ItemText(item: ClassItem): string { if item.ClassEscape? then ['\\', item.c] else [item.c] }

  function ItemsText(items: seq<ClassItem>): string {
    if items == [] then ""
    else ItemText(items[0]) + ItemsText(items[1..])
  }

  function AtomText(a: Atom): string {
    match a
    case Literal(c) => [c]
    case Escape(c) => ['\\', c]
    case Brace => "{"
    case Class(items) => "[" + ItemsText(items) + "]"
    case Group(prefix, body) => "(" + prefix + Text(body) + ")"
  }

  function TermText(t: Term): string {
    match t
    case Plain(a) => AtomText(a)
    case Repeat(a, q, lazy) => AtomText(a) + QuantText(q) + if lazy then "?" else ""
  }

  function SequenceText(s: Sequence): string {
    match s
    case Empty => ""
    case Then(t, tail) => TermText(t) + SequenceText(tail)
  }

  function Text(a: Alternatives): string {
    match a
    case Single(only) => SequenceText(only)
    case Or(first, others) => SequenceText(first) + "|" + Text(others)
  }

  // ---- meanings ----

  /** The greatest number of repetitions exceeds one (none means there is no greatest number). */
  predicate Repeats(q: Quant)
    requires QuantOk(q)
  {
    match q
    case Star => true
    case Plus => true
    case Opt => false
    case Exactly(min) => Value(min) > 1
    case AtLeast(_) => true
    case Between(_, max) => Value(max) > 1
  }

  predicate Unbounded(q: Quant)
    requires QuantOk(q)
  {
    match q
    case Star => true
    case Plus => true
    case Opt => false
    case Exactly(min) => Value(min) > 1000
    case AtLeast(_) => true
    case Between(_, max) => Value(max) > 1000
  }

  /** The nesting depth of repeating quantifiers: 2 for (a+)+, 1 for a+b+, 0 for (a)?. */
  function AtomDepth(a: Atom): nat
    requires AtomOk(a)
  {
    if a.Group? then Depth(a.body) else 0
  }

  function TermDepth(t: Term): nat
    requires TermOk(t)
  {
    AtomDepth(t.atom) + if t.Repeat? && Repeats(t.q) then 1 else 0
  }

  function Max(a: nat, b: nat): nat { if a < b then b else a }

  function SequenceDepth(s: Sequence): nat
    requires SequenceOk(s)
  {
    match s
    case Empty => 0
    case Then(t, tail) => Max(TermDepth(t), SequenceDepth(tail))
  }

  function Depth(a: Alternatives): nat
    requires AlternativesOk(a)
  {
    match a
    case Single(only) => SequenceDepth(only)
    case Or(first, others) => Max(SequenceDepth(first), Depth(others))
  }

  /** The number of unbounded quantifiers (or with more than 1000 repetitions). */
  function AtomUnbounded(a: Atom): nat
    requires AtomOk(a)
  {
    if a.Group? then UnboundedIn(a.body) else 0
  }

  function TermUnbounded(t: Term): nat
    requires TermOk(t)
  {
    AtomUnbounded(t.atom) + if t.Repeat? && Unbounded(t.q) then 1 else 0
  }

  function SequenceUnbounded(s: Sequence): nat
    requires SequenceOk(s)
  {
    match s
    case Empty => 0
    case Then(t, tail) => TermUnbounded(t) + SequenceUnbounded(tail)
  }

  function UnboundedIn(a: Alternatives): nat
    requires AlternativesOk(a)
  {
    match a
    case Single(only) => SequenceUnbounded(only)
    case Or(first, others) => SequenceUnbounded(first) + UnboundedIn(others)
  }

  /** No backreference, and no repeating quantifier on a group that alternates directly or contains
      a repeating quantifier at any depth. */
  predicate AtomSafe(a: Atom)
    requires AtomOk(a)
  {
    match a
    case Escape(c) => !BackrefChar(c)
    case Group(_, body) => Safe(body)
    case _ => true
  }

  predicate TermSafe(t: Term)
    requires TermOk(t)
  {
    AtomSafe(t.atom) && (t.Repeat? && Repeats(t.q) && t.atom.Group? ==> !t.atom.body.Or? && Depth(t.atom.body) == 0)
  }

  predicate SequenceSafe(s: Sequence)
    requires SequenceOk(s)
  {
    s.Then? ==> TermSafe(s.head) && SequenceSafe(s.tail)
  }

  predicate Safe(a: Alternatives)
    requires AlternativesOk(a)
  {
    match a
    case Single(only) => SequenceSafe(only)
    case Or(first, others) => SequenceSafe(first) && Safe(others)
  }

  // ---- the scanner on the text of a tree ----

  /** The text t stands at position i of p. */
  ghost predicate At(p: string, i: nat, t: string) { i + |t| <= |p| && p[i..i + |t|] == t }

  // A brace stands for itself only where no quantifier is printed; what follows it decides.

  ghost predicate NoQuantifier(p: string, i: nat) { !exists q :: QuantOk(q) && At(p, i, QuantText(q)) }

  ghost predicate AtomStands(p: string, i: nat, a: Atom)
    decreases a, 0
  {
    match a
    case Brace => NoQuantifier(p, i)
    case Group(prefix, body) => Stands(p, i + 1 + |prefix|, body)
    case _ => true
  }

  ghost predicate SequenceStands(p: string, i: nat, s: Sequence)
    decreases s, 1
  {
    s.Then? ==> AtomStands(p, i, s.head.atom) && SequenceStands(p, i + |TermText(s.head)|, s.tail)
  }

  /** Every brace in the alternatives, printed at i, stands for itself. */
  ghost predicate Stands(p: string, i: nat, a: Alternatives)
    decreases a, 2
  {
    match a
    case Single(only) => SequenceStands(p, i, only)
    case Or(first, others) => SequenceStands(p, i, first) && Stands(p, i + |SequenceText(first)| + 1, others)
  }

  /** A tree that its text is read as. */
  ghost predicate WellFormed(a: Alternatives) { AlternativesOk(a) && Stands(Text(a), 0, a) }

  // Trees without bare braces are among them.

  predicate AtomPlain(a: Atom) { !a.Brace? && (a.Group? ==> BraceFree(a.body)) }

  predicate SequencePlain(s: Sequence) { s.Then? ==> AtomPlain(s.head.atom) && SequencePlain(s.tail) }

  predicate BraceFree(a: Alternatives) {
    match a
    case Single(only) => SequencePlain(only)
    case Or(first, others) => SequencePlain(first) && BraceFree(others)
  }

  lemma {:induction false} AtomPlainStands(p: string, i: nat, a: Atom)
    requires AtomPlain(a)
    ensures AtomStands(p, i, a)
    decreases a, 0
  {
    if a.Group? { BraceFreeStands(p, i + 1 + |a.prefix|, a.body); }
  }

  lemma {:induction false} SequencePlainStands(p: string, i: nat, s: Sequence)
    requires SequencePlain(s)
    ensures SequenceStands(p, i, s)
    decreases s, 1
  {
    if s.Then? {
      AtomPlainStands(p, i, s.head.atom);
      SequencePlainStands(p, i + |TermText(s.head)|, s.tail);
    }
  }

  lemma {:induction false} BraceFreeStands(p: string, i: nat, a: Alternatives)
    requires BraceFree(a)
    ensures Stands(p, i, a)
    decreases a, 2
  {
    match a
    case Single(only) => SequencePlainStands(p, i, only);
    case Or(first, others) =>
      SequencePlainStands(p, i, first);
      BraceFreeStands(p, i + |SequenceText(first)| + 1, others);
  }

  lemma AtParts(p: string, i: nat, t: string, u: string)
    requires At(p, i, t + u)
    ensures At(p, i, t) && At(p, i + |t|, u)
  {
    assert p[i..i + |t|] == (t + u)[..|t|];
    assert p[i + |t|..i + |t| + |u|] == (t + u)[|t|..];
  }

  lemma AtIndex(p: string, i: nat, t: string, j: nat)
    requires At(p, i, t) && j < |t|
    ensures p[i + j] == t[j]
  {
  }

  /** What a group leaves behind. */
  function FrameOf(a: Alternatives): Frame
    requires AlternativesOk(a)
  {
    Frame(Depth(a) > 0, a.Or?)
  }

  function Mark(stack: seq<Frame>, repeats: bool): seq<Frame>
    requires stack != []
  {
    if repeats then Quantified(stack) else stack
  }

  /** The scanner stands at i, outside a class. */
  function Outside(i: nat, stack: seq<Frame>, unbounded: nat, lastGroup: Option<Frame>): Scan {
    Scan(i, stack, unbounded, false, lastGroup)
  }

  /** What n turns of the loop (or fewer, at the end of the pattern) lead to. */
  function Turns(p: string, s: Scan, n: nat): (t: Turn)
    requires s.stack != []
    ensures t.Go? ==> t.s.stack != []
    decreases n
  {
    if n == 0 || s.i >= |p| then Go(s)
    else
      match OneTurn(p, s)
      case Stop(risk) => Stop(risk)
      case Go(s') => Turns(p, s', n - 1)
  }

  ghost predicate Goes(p: string, s: Scan, t: Turn)
    requires s.stack != []
  {
    exists n: nat :: Turns(p, s, n) == t
  }

  lemma {:induction false} TurnsAdd(p: string, s: Scan, n: nat, s': Scan, k: nat)
    requires s.stack != [] && Turns(p, s, n) == Go(s')
    ensures Turns(p, s, n + k) == Turns(p, s', k)
    decreases n
  {
    if n > 0 && s.i < |p| {
      var t := OneTurn(p, s).s;
      TurnsFirst(p, s, n, t);
      TurnsAdd(p, t, n - 1, s', k);
      TurnsFirst(p, s, n + k, t);
    }
  }

  lemma TurnsFirst(p: string, s: Scan, n: nat, t: Scan)
    requires s.i < |p| && s.stack != [] && n > 0 && OneTurn(p, s) == Go(t)
    ensures Turns(p, s, n) == Turns(p, t, n - 1)
  {
  }

  lemma GoesNowhere(p: string, s: Scan)
    requires s.stack != []
    ensures Goes(p, s, Go(s))
  {
    assert Turns(p, s, 0) == Go(s);
  }

  lemma GoesOne(p: string, s: Scan, t: Turn)
    requires s.i < |p| && s.stack != [] && OneTurn(p, s) == t
    ensures Goes(p, s, t)
  {
    if t.Go? { assert Turns(p, t.s, 0) == t; }
    assert Turns(p, s, 1) == t;
  }

  lemma GoesThen(p: string, s: Scan, s': Scan, t: Turn)
    requires s.stack != [] && s'.stack != [] && Goes(p, s, Go(s')) && Goes(p, s', t)
    ensures Goes(p, s, t)
  {
    var n: nat :| Turns(p, s, n) == Go(s');
    var k: nat :| Turns(p, s', k) == t;
    TurnsAdd(p, s, n, s', k);
  }

  lemma {:induction false} TurnsLoop(p: string, s: Scan, n: nat)
    requires s.stack != []
    ensures var t := Turns(p, s, n); Loop(p, s) == if t.Stop? then t.risk else Loop(p, t.s)
    decreases n
  {
    if n > 0 && s.i < |p| && OneTurn(p, s).Go? { TurnsLoop(p, OneTurn(p, s).s, n - 1); }
  }

  lemma GoesLoop(p: string, s: Scan, t: Turn)
    requires s.stack != [] && Goes(p, s, t)
    ensures t.Go? ==> t.s.stack != []
    ensures Loop(p, s) == if t.Stop? then t.risk else Loop(p, t.s)
  {
    var n: nat :| Turns(p, s, n) == t;
    TurnsLoop(p, s, n);
  }

  /** The risk found on the way, or the state reached. */
  function Found(r: Risk, s: Scan): Turn { if r != NoRisk then Stop(r) else Go(s) }

  lemma ScanPlainRun(p: string, i: nat, t: string, stack: seq<Frame>, unbounded: nat)
    requires At(p, i, t) && stack != [] && forall j :: 0 <= j < |t| ==> PlainChar(t[j])
    ensures Goes(p, Outside(i, stack, unbounded, None), Go(Outside(i + |t|, stack, unbounded, None)))
    decreases |t|
  {
    var s := Outside(i, stack, unbounded, None);
    if t == [] {
      GoesNowhere(p, s);
    } else {
      AtIndex(p, i, t, 0);
      assert t == [t[0]] + t[1..];
      AtParts(p, i, [t[0]], t[1..]);
      var s' := Outside(i + 1, stack, unbounded, None);
      TurnPlain(p, i, stack, unbounded, None);
      ScanPlainRun(p, i + 1, t[1..], stack, unbounded);
      GoesThen(p, s, s', Go(Outside(i + |t|, stack, unbounded, None)));
    }
  }

  lemma TurnPlain(p: string, i: nat, stack: seq<Frame>, unbounded: nat, lastGroup: Option<Frame>)
    requires i < |p| && PlainChar(p[i]) && stack != []
    ensures Goes(p, Outside(i, stack, unbounded, lastGroup), Go(Outside(i + 1, stack, unbounded, None)))
  {
    GoesOne(p, Outside(i, stack, unbounded, lastGroup), Go(Outside(i + 1, stack, unbounded, None)));
  }

  lemma ScanItem(p: string, i: nat, item: ClassItem, stack: seq<Frame>, unbounded: nat)
    requires At(p, i, ItemText(item)) && stack != []
    requires item.ClassChar? ==> item.c != ']' && item.c != '\\'
    ensures Goes(p, Scan(i, stack, unbounded, true, None), Go(Scan(i + |ItemText(item)|, stack, unbounded, true, None)))
  {
    AtIndex(p, i, ItemText(item), 0);
    GoesOne(p, Scan(i, stack, unbounded, true, None), Go(Scan(i + |ItemText(item)|, stack, unbounded, true, None)));
  }

  lemma FirstItem(p: string, i: nat, items: seq<ClassItem>)
    requires AtomOk(Class(items)) && At(p, i, ItemsText(items) + "]") && items != []
    ensures AtomOk(Class(items[1..])) && At(p, i, ItemText(items[0]))
    ensures At(p, i + |ItemText(items[0])|, ItemsText(items[1..]) + "]")
  {
    assert ItemsText(items) + "]" == ItemText(items[0]) + (ItemsText(items[1..]) + "]");
    AtParts(p, i, ItemText(items[0]), ItemsText(items[1..]) + "]");
    assert forall j :: 0 <= j < |items[1..]| ==> items[1..][j] == items[j + 1];
  }

  lemma ScanClass(p: string, i: nat, items: seq<ClassItem>, stack: seq<Frame>, unbounded: nat)
    requires AtomOk(Class(items)) && At(p, i, ItemsText(items) + "]") && stack != []
    ensures Goes(p, Scan(i, stack, unbounded, true, None),
                 Go(Outside(i + |ItemsText(items)| + 1, stack, unbounded, None)))
    decreases |items|
  {
    var s := Scan(i, stack, unbounded, true, None);
    if items == [] {
      AtIndex(p, i, "]", 0);
      GoesOne(p, s, Go(Outside(i + 1, stack, unbounded, None)));
    } else {
      FirstItem(p, i, items);
      ScanItem(p, i, items[0], stack, unbounded);
      var i' := i + |ItemText(items[0])|;
      ScanClass(p, i', items[1..], stack, unbounded);
      GoesThen(p, s, Scan(i', stack, unbounded, true, None),
               Go(Outside(i + |ItemsText(items)| + 1, stack, unbounded, None)));
    }
  }

  lemma DigitsEndAt(p: string, i: nat, t: string)
    requires At(p, i, t) && (forall j :: 0 <= j < |t| ==> IsDigit(t[j])) && i + |t| < |p| && !IsDigit(p[i + |t|])
    ensures DigitsEnd(p, i) == i + |t|
  {
  }

  lemma ReadExactly(p: string, i: nat, min: string)
    requires Digits(min) && At(p, i, "{" + min + "}")
    ensures QuantifierAt(p, i) == Some(Braced(|min| + 2, min, false, []))
  {
    assert "{" + min + "}" == "{" + (min + "}");
    AtParts(p, i, "{", min + "}");
    AtIndex(p, i, "{", 0);
    AtParts(p, i + 1, min, "}");
    AtIndex(p, i + 1 + |min|, "}", 0);
    DigitsEndAt(p, i + 1, min);
  }

  lemma AtLeastParts(p: string, i: nat, min: string)
    requires At(p, i, "{" + min + ",}")
    ensures var d := i + 1 + |min|;
            p[i] == '{' && At(p, i + 1, min) && p[d] == ',' && d + 1 < |p| && p[d + 1] == '}'
  {
    assert "{" + min + ",}" == "{" + (min + ",}");
    AtParts(p, i, "{", min + ",}");
    AtIndex(p, i, "{", 0);
    AtParts(p, i + 1, min, ",}");
    AtIndex(p, i + 1 + |min|, ",}", 0);
    AtIndex(p, i + 1 + |min|, ",}", 1);
  }

  lemma ReadAtLeast(p: string, i: nat, min: string)
    requires Digits(min) && At(p, i, "{" + min + ",}")
    ensures QuantifierAt(p, i) == Some(Braced(|min| + 3, min, true, []))
  {
    AtLeastParts(p, i, min);
    DigitsEndAt(p, i + 1, min);
    assert DigitsEnd(p, i + 2 + |min|) == i + 2 + |min|;
  }

  lemma BetweenParts(p: string, i: nat, min: string, max: string)
    requires At(p, i, "{" + min + "," + max + "}")
    ensures var d, e := i + 1 + |min|, i + 2 + |min| + |max|;
            && p[i] == '{' && At(p, i + 1, min) && p[d] == ',' && At(p, d + 1, max) && e < |p| && p[e] == '}'
  {
    assert "{" + min + "," + max + "}" == "{" + (min + ("," + (max + "}")));
    AtParts(p, i, "{", min + ("," + (max + "}")));
    AtIndex(p, i, "{", 0);
    AtParts(p, i + 1, min, "," + (max + "}"));
    var d := i + 1 + |min|;
    AtParts(p, d, ",", max + "}");
    AtIndex(p, d, ",", 0);
    AtParts(p, d + 1, max, "}");
    AtIndex(p, d + 1 + |max|, "}", 0);
  }

  lemma ReadBetween(p: string, i: nat, min: string, max: string)
    requires Digits(min) && Digits(max) && At(p, i, "{" + min + "," + max + "}")
    ensures QuantifierAt(p, i) == Some(Braced(|min| + |max| + 3, min, true, max))
  {
    BetweenParts(p, i, min, max);
    DigitsEndAt(p, i + 1, min);
    DigitsEndAt(p, i + 2 + |min|, max);
  }

  /** The quantifier reader reads back every printed quantifier. */
  lemma QuantifierRead(p: string, i: nat, q: Quant)
    requires QuantOk(q) && At(p, i, QuantText(q))
    ensures QuantifierAt(p, i) == Some(Quantifier(|QuantText(q)|, Repeats(q), Unbounded(q)))
  {
    match q
    case Exactly(min) => ReadExactly(p, i, min);
    case AtLeast(min) => ReadAtLeast(p, i, min);
    case Between(min, max) => ReadBetween(p, i, min, max);
    case _ => AtIndex(p, i, QuantText(q), 0);
  }

  lemma AtJoins(p: string, i: nat, t: string, u: string)
    requires At(p, i, t) && At(p, i + |t|, u)
    ensures At(p, i, t + u)
  {
    assert p[i..i + |t| + |u|] == p[i..i + |t|] + p[i + |t|..i + |t| + |u|];
  }

  lemma AtSlice(p: string, i: nat, e: nat)
    requires i <= e <= |p|
    ensures At(p, i, p[i..e])
  {
  }

  lemma AtChar(p: string, i: nat, c: char)
    requires i < |p| && p[i] == c
    ensures At(p, i, [c])
  {
  }

  lemma MinPrinted(p: string, i: nat, d: nat)
    requires i + 1 <= d < |p| && p[i] == '{'
    ensures At(p, i, "{" + p[i + 1..d])
  {
    AtChar(p, i, '{');
    AtSlice(p, i + 1, d);
    AtJoins(p, i, "{", p[i + 1..d]);
  }

  lemma MaxPrinted(p: string, i: nat, d: nat, e: nat)
    requires i + 1 <= d < |p| && p[i] == '{' && p[d] == ',' && d + 1 <= e < |p| && p[e] == '}'
    ensures At(p, i, "{" + p[i + 1..d] + "," + p[d + 1..e] + "}")
  {
    var open, max := "{" + p[i + 1..d], p[d + 1..e];
    MinPrinted(p, i, d);
    AtChar(p, d, ',');
    AtJoins(p, i, open, ",");
    AtSlice(p, d + 1, e);
    AtJoins(p, i, open + ",", max);
    AtChar(p, e, '}');
    AtJoins(p, i, open + "," + max, "}");
  }

  lemma BracedPrinted(p: string, i: nat)
    requires i < |p| && p[i] == '{' && QuantifierAt(p, i).Some?
    ensures exists q :: QuantOk(q) && At(p, i, QuantText(q))
  {
    var d := DigitsEnd(p, i + 1);
    var min := p[i + 1..d];
    MinPrinted(p, i, d);
    if p[d] == '}' {
      AtChar(p, d, '}');
      AtJoins(p, i, "{" + min, "}");
      assert QuantOk(Exactly(min)) && At(p, i, QuantText(Exactly(min)));
    } else {
      var e := DigitsEnd(p, d + 1);
      var max := p[d + 1..e];
      MaxPrinted(p, i, d, e);
      if max == [] {
        assert "{" + min + "," + max + "}" == "{" + min + ",}";
        assert QuantOk(AtLeast(min)) && At(p, i, QuantText(AtLeast(min)));
      } else {
        assert QuantOk(Between(min, max)) && At(p, i, QuantText(Between(min, max)));
      }
    }
  }

  /** The quantifier reader finds a quantifier exactly where one is printed. */
  lemma QuantifierExactly(p: string, i: nat)
    requires i < |p|
    ensures QuantifierAt(p, i).Some? <==> exists q :: QuantOk(q) && At(p, i, QuantText(q))
  {
    if QuantifierAt(p, i).Some? {
      if p[i] == '{' {
        BracedPrinted(p, i);
      } else {
        var q := if p[i] == '*' then Star else if p[i] == '+' then Plus else Opt;
        assert QuantOk(q) && At(p, i, QuantText(q));
      }
    }
    if q :| QuantOk(q) && At(p, i, QuantText(q)) {
      QuantifierRead(p, i, q);
    }
  }

  /** The next character is not a lazy mark. */
  ghost predicate NoMark(p: string, i: nat) { i >= |p| || p[i] != '?' }

  /** A quantifier on the atom just scanned: reported, or counted and skipped with its lazy mark. */
  lemma ScanQuantifier(p: string, i: nat, q: Quant, lazy: bool, stack: seq<Frame>,
                       unbounded: nat, lastGroup: Option<Frame>)
    requires QuantOk(q) && At(p, i, QuantText(q) + if lazy then "?" else "") && stack != []
    requires NoMark(p, i + |QuantText(q)|) || lazy
    ensures var e := i + |QuantText(q)| + if lazy then 1 else 0;
            Goes(p, Outside(i, stack, unbounded, lastGroup),
                 Found(if Repeats(q) && Dangerous(lastGroup) then RepeatedGroup else NoRisk,
                       Outside(e, Mark(stack, Repeats(q)), unbounded + (if Unbounded(q) then 1 else 0), None)))
  {
    AtParts(p, i, QuantText(q), if lazy then "?" else "");
    QuantifierRead(p, i, q);
    if lazy { AtIndex(p, i + |QuantText(q)|, "?", 0); }
    TurnQuantifier(p, i, Quantifier(|QuantText(q)|, Repeats(q), Unbounded(q)), stack, unbounded, lastGroup);
  }

  lemma TurnQuantifier(p: string, i: nat, q: Quantifier, stack: seq<Frame>, unbounded: nat, lastGroup: Option<Frame>)
    requires i < |p| && stack != [] && QuantifierAt(p, i) == Some(q)
    ensures var e := i + q.len + if NoMark(p, i + q.len) then 0 else 1;
            Goes(p, Outside(i, stack, unbounded, lastGroup),
                 Found(if q.repeats && Dangerous(lastGroup) then RepeatedGroup else NoRisk,
                       Outside(e, Mark(stack, q.repeats), unbounded + (if q.unbounded then 1 else 0), None)))
  {
    GoesOne(p, Outside(i, stack, unbounded, lastGroup), OneTurn(p, Outside(i, stack, unbounded, lastGroup)));
  }

  // ---- the first risk in reading order ----

  function AtomRisk(a: Atom): Risk
    requires AtomOk(a)
  {
    match a
    case Escape(c) => if BackrefChar(c) then Backreference else NoRisk
    case Group(_, body) => RiskIn(body)
    case _ => NoRisk
  }

  function LastGroup(a: Atom): Option<Frame>
    requires AtomOk(a)
  {
    if a.Group? then Some(FrameOf(a.body)) else None
  }

  function TermRisk(t: Term): Risk
    requires TermOk(t)
  {
    if AtomRisk(t.atom) != NoRisk then AtomRisk(t.atom)
    else if t.Repeat? && Repeats(t.q) && Dangerous(LastGroup(t.atom)) then RepeatedGroup
    else NoRisk
  }

  function SequenceRisk(s: Sequence): Risk
    requires SequenceOk(s)
  {
    match s
    case Empty => NoRisk
    case Then(t, tail) => if TermRisk(t) != NoRisk then TermRisk(t) else SequenceRisk(tail)
  }

  function RiskIn(a: Alternatives): Risk
    requires AlternativesOk(a)
  {
    match a
    case Single(only) => SequenceRisk(only)
    case Or(first, others) => if SequenceRisk(first) != NoRisk then SequenceRisk(first) else RiskIn(others)
  }

  function AfterTerm(t: Term): Option<Frame>
    requires TermOk(t)
  {
    if t.Plain? then LastGroup(t.atom) else None
  }

  /** The group just scanned at the end of a sequence, if it ends with one. */
  function LastOf(s: Sequence, before: Option<Frame>): Option<Frame>
    requires SequenceOk(s)
  {
    match s
    case Empty => before
    case Then(t, tail) => LastOf(tail, AfterTerm(t))
  }

  function LastIn(a: Alternatives, before: Option<Frame>): Option<Frame>
    requires AlternativesOk(a)
  {
    match a
    case Single(only) => LastOf(only, before)
    case Or(_, others) => LastIn(others, None)
  }

  /** The stack after scanning alternatives: the frame on top records what was seen. */
  function Seen(stack: seq<Frame>, a: Alternatives): seq<Frame>
    requires stack != [] && AlternativesOk(a)
  {
    SetTop(stack, Frame(Top(stack).quantifiedInside || Depth(a) > 0, Top(stack).alternation || a.Or?))
  }

  lemma FirstCharIsNoMark(t: Term)
    requires TermOk(t)
    ensures |TermText(t)| > 0 && TermText(t)[0] != '?'
  {
  }

  lemma NoMarkBefore(p: string, i: nat, s: Sequence)
    requires SequenceOk(s) && At(p, i, SequenceText(s)) && NoMark(p, i + |SequenceText(s)|)
    ensures NoMark(p, i)
  {
    if s.Then? {
      FirstCharIsNoMark(s.head);
      AtIndex(p, i, SequenceText(s), 0);
    }
  }

  // ---- the scanner follows the tree ----

  lemma ScanOpen(p: string, i: nat, prefix: string, stack: seq<Frame>, unbounded: nat, lastGroup: Option<Frame>)
    requires PrefixOk(prefix) && At(p, i, "(" + prefix) && stack != []
    ensures Goes(p, Outside(i, stack, unbounded, lastGroup),
                 Go(Outside(i + 1 + |prefix|, stack + [FRESH], unbounded, None)))
  {
    AtParts(p, i, "(", prefix);
    AtIndex(p, i, "(", 0);
    var s := Outside(i + 1, stack + [FRESH], unbounded, None);
    GoesOne(p, Outside(i, stack, unbounded, lastGroup), Go(s));
    if prefix != [] {
      ScanPrefix(p, i + 1, prefix, stack + [FRESH], unbounded);
      GoesThen(p, Outside(i, stack, unbounded, lastGroup), s,
               Go(Outside(i + 1 + |prefix|, stack + [FRESH], unbounded, None)));
    }
  }

  /** The mark after an opening parenthesis reads as a quantifier on nothing: never repeating. */
  lemma ScanPrefix(p: string, i: nat, prefix: string, stack: seq<Frame>, unbounded: nat)
    requires PrefixOk(prefix) && prefix != [] && At(p, i, prefix) && stack != []
    ensures Goes(p, Outside(i, stack, unbounded, None), Go(Outside(i + |prefix|, stack, unbounded, None)))
  {
    assert prefix == [prefix[0]] + prefix[1..];
    AtParts(p, i, [prefix[0]], prefix[1..]);
    AtIndex(p, i, prefix, 0);
    AtIndex(p, i, prefix, 1);
    TurnQuantifier(p, i, Quantifier(1, false, false), stack, unbounded, None);
    ScanPlainRun(p, i + 1, prefix[1..], stack, unbounded);
    GoesThen(p, Outside(i, stack, unbounded, None), Outside(i + 1, stack, unbounded, None),
             Go(Outside(i + |prefix|, stack, unbounded, None)));
  }

  lemma ScanClose(p: string, i: nat, stack: seq<Frame>, frame: Frame, unbounded: nat, lastGroup: Option<Frame>)
    requires i < |p| && p[i] == ')' && stack != []
    ensures Goes(p, Outside(i, stack + [frame], unbounded, lastGroup),
                 Go(Outside(i + 1, Mark(stack, frame.quantifiedInside), unbounded, Some(frame))))
  {
    assert (stack + [frame])[..|stack|] == stack;
    GoesOne(p, Outside(i, stack + [frame], unbounded, lastGroup),
            Go(Outside(i + 1, Mark(stack, frame.quantifiedInside), unbounded, Some(frame))));
  }

  function Barred(stack: seq<Frame>): seq<Frame>
    requires stack != []
  {
    SetTop(stack, Top(stack).(alternation := true))
  }

  lemma ScanBar(p: string, i: nat, stack: seq<Frame>, unbounded: nat, lastGroup: Option<Frame>)
    requires i < |p| && p[i] == '|' && stack != []
    ensures Goes(p, Outside(i, stack, unbounded, lastGroup), Go(Outside(i + 1, Barred(stack), unbounded, None)))
  {
    GoesOne(p, Outside(i, stack, unbounded, lastGroup), Go(Outside(i + 1, Barred(stack), unbounded, None)));
  }

  lemma ScanLeaf(p: string, i: nat, a: Atom, stack: seq<Frame>, unbounded: nat, lastGroup: Option<Frame>)
    requires AtomOk(a) && !a.Group? && At(p, i, AtomText(a)) && AtomStands(p, i, a) && stack != []
    ensures Goes(p, Outside(i, stack, unbounded, lastGroup),
                 Found(AtomRisk(a), Outside(i + |AtomText(a)|, stack, unbounded, None)))
  {
    AtIndex(p, i, AtomText(a), 0);
    var s := Outside(i, stack, unbounded, lastGroup);
    match a
    case Literal(_) => TurnPlain(p, i, stack, unbounded, lastGroup);
    case Escape(c) =>
      AtIndex(p, i, AtomText(a), 1);
      GoesOne(p, s, if BackrefChar(c) then Stop(Backreference) else Go(Outside(i + 2, stack, unbounded, None)));
    case Brace =>
      QuantifierExactly(p, i);
      GoesOne(p, s, Go(Outside(i + 1, stack, unbounded, None)));
    case Class(items) =>
      assert AtomText(a) == "[" + (ItemsText(items) + "]");
      AtParts(p, i, "[", ItemsText(items) + "]");
      GoesOne(p, s, Go(Scan(i + 1, stack, unbounded, true, None)));
      ScanClass(p, i + 1, items, stack, unbounded);
      GoesThen(p, s, Scan(i + 1, stack, unbounded, true, None), Go(Outside(i + |AtomText(a)|, stack, unbounded, None)));
  }

  // Where the scanner stands after each kind of tree, when it found no risk there.

  ghost predicate OutsideClass(s: Scan) { s.stack != [] && !s.inClass }

  function PastAtom(s: Scan, a: Atom): Scan
    requires AtomOk(a) && s.stack != []
  {
    Outside(s.i + |AtomText(a)|, Mark(s.stack, AtomDepth(a) > 0), s.unbounded + AtomUnbounded(a), LastGroup(a))
  }

  function PastTerm(s: Scan, t: Term): Scan
    requires TermOk(t) && s.stack != []
  {
    Outside(s.i + |TermText(t)|, Mark(s.stack, TermDepth(t) > 0), s.unbounded + TermUnbounded(t), AfterTerm(t))
  }

  function PastSequence(s: Scan, ts: Sequence): Scan
    requires SequenceOk(ts) && s.stack != []
  {
    Outside(s.i + |SequenceText(ts)|, Mark(s.stack, SequenceDepth(ts) > 0), s.unbounded + SequenceUnbounded(ts),
            LastOf(ts, s.lastGroup))
  }

  function Past(s: Scan, a: Alternatives): Scan
    requires AlternativesOk(a) && s.stack != []
  {
    Outside(s.i + |Text(a)|, Seen(s.stack, a), s.unbounded + UnboundedIn(a), LastIn(a, s.lastGroup))
  }

  function PastBar(s: Scan): Scan
    requires s.stack != []
  {
    Outside(s.i + 1, Barred(s.stack), s.unbounded, None)
  }

  lemma PastThen(s: Scan, ts: Sequence)
    requires SequenceOk(ts) && ts.Then? && s.stack != []
    ensures PastSequence(PastTerm(s, ts.head), ts.tail) == PastSequence(s, ts)
  {
  }

  lemma PastOnly(s: Scan, a: Alternatives)
    requires AlternativesOk(a) && a.Single? && s.stack != []
    ensures PastSequence(s, a.only) == Past(s, a)
  {
  }

  lemma PastOr(s: Scan, a: Alternatives)
    requires AlternativesOk(a) && a.Or? && s.stack != []
    ensures Past(PastBar(PastSequence(s, a.first)), a.others) == Past(s, a)
  {
  }

  lemma PastGroup(s: Scan, inner: Scan, a: Atom)
    requires AtomOk(a) && a.Group? && s.stack != []
    requires inner == Outside(s.i + 1 + |a.prefix|, s.stack + [FRESH], s.unbounded, None)
    ensures |AtomText(a)| == 2 + |a.prefix| + |Text(a.body)|
    ensures Past(inner, a.body) == Outside(s.i + |AtomText(a)| - 1, s.stack + [FrameOf(a.body)],
                                           s.unbounded + UnboundedIn(a.body), LastIn(a.body, None))
  {
  }

  /** From inside a group to behind it. */
  lemma LeaveGroup(p: string, s: Scan, inner: Scan, a: Atom)
    requires AtomOk(a) && a.Group? && s.stack != []
    requires inner == Outside(s.i + 1 + |a.prefix|, s.stack + [FRESH], s.unbounded, None)
    requires s.i + |AtomText(a)| <= |p| && p[s.i + |AtomText(a)| - 1] == ')'
    ensures Goes(p, Past(inner, a.body), Go(PastAtom(s, a)))
  {
    PastGroup(s, inner, a);
    ScanClose(p, s.i + |AtomText(a)| - 1, s.stack, FrameOf(a.body), s.unbounded + UnboundedIn(a.body),
              LastIn(a.body, None));
  }

  lemma GroupAt(p: string, i: nat, a: Atom)
    requires a.Group? && At(p, i, AtomText(a))
    ensures At(p, i, "(" + a.prefix) && At(p, i + 1 + |a.prefix|, Text(a.body))
    ensures p[i + 1 + |a.prefix| + |Text(a.body)|] == ')' && |AtomText(a)| == 2 + |a.prefix| + |Text(a.body)|
  {
    var open, body := "(" + a.prefix, Text(a.body);
    assert AtomText(a) == open + (body + ")");
    AtParts(p, i, open, body + ")");
    AtParts(p, i + |open|, body, ")");
    AtIndex(p, i + |open| + |body|, ")", 0);
  }

  lemma {:induction false} ScanAtom(p: string, s: Scan, a: Atom)
    requires AtomOk(a) && At(p, s.i, AtomText(a)) && AtomStands(p, s.i, a) && OutsideClass(s)
    ensures Goes(p, s, Found(AtomRisk(a), PastAtom(s, a)))
    decreases a, 0
  {
    if a.Group? {
      var inner := Outside(s.i + 1 + |a.prefix|, s.stack + [FRESH], s.unbounded, None);
      GroupAt(p, s.i, a);
      ScanOpen(p, s.i, a.prefix, s.stack, s.unbounded, s.lastGroup);
      ScanAlternatives(p, inner, a.body);
      GoesThen(p, s, inner, Found(RiskIn(a.body), Past(inner, a.body)));
      if RiskIn(a.body) == NoRisk {
        LeaveGroup(p, s, inner, a);
        GoesThen(p, s, Past(inner, a.body), Go(PastAtom(s, a)));
      }
    } else {
      ScanLeaf(p, s.i, a, s.stack, s.unbounded, s.lastGroup);
    }
  }

  lemma RepeatAt(p: string, i: nat, t: Term)
    requires t.Repeat? && At(p, i, TermText(t))
    ensures At(p, i, AtomText(t.atom)) && At(p, i + |AtomText(t.atom)|, QuantText(t.q) + if t.lazy then "?" else "")
  {
    var tail := QuantText(t.q) + if t.lazy then "?" else "";
    assert TermText(t) == AtomText(t.atom) + tail;
    AtParts(p, i, AtomText(t.atom), tail);
  }

  lemma PlainTerm(s: Scan, t: Term)
    requires TermOk(t) && t.Plain? && s.stack != []
    ensures TermRisk(t) == AtomRisk(t.atom) && PastTerm(s, t) == PastAtom(s, t.atom)
  {
  }

  lemma {:induction false} ScanTerm(p: string, s: Scan, t: Term)
    requires TermOk(t) && At(p, s.i, TermText(t)) && AtomStands(p, s.i, t.atom)
    requires OutsideClass(s) && NoMark(p, s.i + |TermText(t)|)
    ensures Goes(p, s, Found(TermRisk(t), PastTerm(s, t)))
    decreases t, 1
  {
    if t.Plain? {
      PlainTerm(s, t);
      ScanAtom(p, s, t.atom);
    } else {
      RepeatAt(p, s.i, t);
      ScanAtom(p, s, t.atom);
      if AtomRisk(t.atom) == NoRisk {
        PassQuantifier(p, s, t);
        GoesThen(p, s, PastAtom(s, t.atom), Found(TermRisk(t), PastTerm(s, t)));
      }
    }
  }

  lemma PassQuantifier(p: string, s: Scan, t: Term)
    requires TermOk(t) && t.Repeat? && OutsideClass(s) && AtomRisk(t.atom) == NoRisk && NoMark(p, s.i + |TermText(t)|)
    requires At(p, s.i + |AtomText(t.atom)|, QuantText(t.q) + if t.lazy then "?" else "")
    ensures Goes(p, PastAtom(s, t.atom), Found(TermRisk(t), PastTerm(s, t)))
  {
    var marked := Mark(s.stack, AtomDepth(t.atom) > 0);
    ScanQuantifier(p, s.i + |AtomText(t.atom)|, t.q, t.lazy, marked, s.unbounded + AtomUnbounded(t.atom),
                   LastGroup(t.atom));
    assert Mark(marked, Repeats(t.q)) == Mark(s.stack, TermDepth(t) > 0);
  }

  lemma ThenParts(p: string, i: nat, ts: Sequence)
    requires ts.Then? && At(p, i, SequenceText(ts))
    ensures var e := i + |TermText(ts.head)|;
            && At(p, i, TermText(ts.head)) && At(p, e, SequenceText(ts.tail))
            && i + |SequenceText(ts)| == e + |SequenceText(ts.tail)|
  {
    var head, tail := TermText(ts.head), SequenceText(ts.tail);
    assert SequenceText(ts) == head + tail;
    AtParts(p, i, head, tail);
  }

  lemma ThenAt(p: string, i: nat, ts: Sequence)
    requires SequenceOk(ts) && ts.Then? && At(p, i, SequenceText(ts)) && NoMark(p, i + |SequenceText(ts)|)
    ensures var e := i + |TermText(ts.head)|;
            && At(p, i, TermText(ts.head)) && NoMark(p, e)
            && At(p, e, SequenceText(ts.tail)) && NoMark(p, e + |SequenceText(ts.tail)|)
  {
    ThenParts(p, i, ts);
    NoMarkBefore(p, i + |TermText(ts.head)|, ts.tail);
  }

  /** Behind its first term the rest of a sequence is ready to be scanned. */
  lemma RestReady(p: string, s: Scan, ts: Sequence)
    requires SequenceOk(ts) && ts.Then? && SequenceStands(p, s.i, ts) && OutsideClass(s)
    requires At(p, s.i + |TermText(ts.head)|, SequenceText(ts.tail))
    requires NoMark(p, s.i + |TermText(ts.head)| + |SequenceText(ts.tail)|)
    ensures var s' := PastTerm(s, ts.head);
            && SequenceOk(ts.tail) && At(p, s'.i, SequenceText(ts.tail)) && SequenceStands(p, s'.i, ts.tail)
            && OutsideClass(s') && NoMark(p, s'.i + |SequenceText(ts.tail)|)
  {
  }

  lemma {:induction false} ScanSequence(p: string, s: Scan, ts: Sequence)
    requires SequenceOk(ts) && At(p, s.i, SequenceText(ts)) && SequenceStands(p, s.i, ts)
    requires OutsideClass(s) && NoMark(p, s.i + |SequenceText(ts)|)
    ensures Goes(p, s, Found(SequenceRisk(ts), PastSequence(s, ts)))
    decreases ts, 2
  {
    if ts.Empty? {
      GoesNowhere(p, s);
    } else {
      ThenAt(p, s.i, ts);
      ScanTerm(p, s, ts.head);
      if TermRisk(ts.head) != NoRisk {
        StopTerm(p, s, ts);
      } else {
        RestReady(p, s, ts);
        ScanSequence(p, PastTerm(s, ts.head), ts.tail);
        PassTerm(p, s, ts);
      }
    }
  }

  lemma StopTerm(p: string, s: Scan, ts: Sequence)
    requires SequenceOk(ts) && ts.Then? && s.stack != [] && TermRisk(ts.head) != NoRisk
    requires Goes(p, s, Found(TermRisk(ts.head), PastTerm(s, ts.head)))
    ensures Goes(p, s, Found(SequenceRisk(ts), PastSequence(s, ts)))
  {
    assert SequenceRisk(ts) == TermRisk(ts.head);
  }

  lemma PassTerm(p: string, s: Scan, ts: Sequence)
    requires SequenceOk(ts) && ts.Then? && s.stack != [] && TermRisk(ts.head) == NoRisk
    requires Goes(p, s, Go(PastTerm(s, ts.head)))
    requires var s' := PastTerm(s, ts.head); Goes(p, s', Found(SequenceRisk(ts.tail), PastSequence(s', ts.tail)))
    ensures Goes(p, s, Found(SequenceRisk(ts), PastSequence(s, ts)))
  {
    PastThen(s, ts);
    GoesThen(p, s, PastTerm(s, ts.head), Found(SequenceRisk(ts), PastSequence(s, ts)));
  }

  lemma OrText(a: Alternatives)
    requires a.Or?
    ensures Text(a) == SequenceText(a.first) + ("|" + Text(a.others))
  {
  }

  lemma BarAt(p: string, i: nat, first: string, others: string)
    requires At(p, i, first + ("|" + others))
    ensures var bar := i + |first|;
            At(p, i, first) && bar < |p| && p[bar] == '|' && At(p, bar + 1, others)
  {
    AtParts(p, i, first, "|" + others);
    AtParts(p, i + |first|, "|", others);
    AtIndex(p, i + |first|, "|", 0);
  }

  lemma OrAt(p: string, i: nat, a: Alternatives)
    requires a.Or? && At(p, i, Text(a))
    ensures var bar := i + |SequenceText(a.first)|;
            && At(p, i, SequenceText(a.first)) && bar < |p| && p[bar] == '|' && At(p, bar + 1, Text(a.others))
            && bar + 1 + |Text(a.others)| == i + |Text(a)|
  {
    OrText(a);
    BarAt(p, i, SequenceText(a.first), Text(a.others));
  }

  lemma {:induction false} ScanAlternatives(p: string, s: Scan, a: Alternatives)
    requires AlternativesOk(a) && At(p, s.i, Text(a)) && Stands(p, s.i, a)
    requires OutsideClass(s) && NoMark(p, s.i + |Text(a)|)
    ensures Goes(p, s, Found(RiskIn(a), Past(s, a)))
    decreases a, 3
  {
    if a.Single? {
      ScanSequence(p, s, a.only);
      PastOnly(s, a);
    } else {
      OrAt(p, s.i, a);
      ScanSequence(p, s, a.first);
      if SequenceRisk(a.first) == NoRisk {
        var bar := PastSequence(s, a.first);
        ScanBar(p, bar.i, bar.stack, bar.unbounded, bar.lastGroup);
        ScanAlternatives(p, PastBar(bar), a.others);
        PastOr(s, a);
        GoesThen(p, bar, PastBar(bar), Found(RiskIn(a), Past(s, a)));
        GoesThen(p, s, bar, Found(RiskIn(a), Past(s, a)));
      }
    }
  }

  // ---- main results ----

  lemma {:induction false} AtomRiskIffUnsafe(a: Atom)
    requires AtomOk(a)
    ensures AtomRisk(a) == NoRisk <==> AtomSafe(a)
    decreases a, 0
  {
    if a.Group? { RiskIffUnsafe(a.body); }
  }

  lemma {:induction false} SequenceRiskIffUnsafe(s: Sequence)
    requires SequenceOk(s)
    ensures SequenceRisk(s) == NoRisk <==> SequenceSafe(s)
    decreases s, 1
  {
    if s.Then? {
      AtomRiskIffUnsafe(s.head.atom);
      SequenceRiskIffUnsafe(s.tail);
    }
  }

  lemma {:induction false} RiskIffUnsafe(a: Alternatives)
    requires AlternativesOk(a)
    ensures RiskIn(a) == NoRisk <==> Safe(a)
    decreases a, 2
  {
    match a
    case Single(only) => SequenceRiskIffUnsafe(only);
    case Or(first, others) => SequenceRiskIffUnsafe(first); RiskIffUnsafe(others);
  }

  /** The scanner accepts the text of a pattern exactly when the text is at most 200 characters long,
      the tree has at most four unbounded quantifiers, no backreference, and no repeating quantifier
      on a group that alternates directly or contains a repeating quantifier at any depth. */
  lemma AcceptsExactly(a: Alternatives)
    requires WellFormed(a)
    ensures Verdict(Text(a)) == NoRisk
            <==> |Text(a)| <= 200 && UnboundedIn(a) <= 4 && Safe(a)
  {
    var p := Text(a);
    ScanAlternatives(p, BEGIN, a);
    GoesLoop(p, BEGIN, Found(RiskIn(a), Past(BEGIN, a)));
    RiskIffUnsafe(a);
  }

  /** Which risk is reported: the length first, then the first backreference or repeated group in reading order, and
      the number of unbounded quantifiers at the end. */
  lemma VerdictExactly(a: Alternatives)
    requires WellFormed(a)
    ensures Verdict(Text(a)) == if |Text(a)| > 200 then TooLong
                                else if RiskIn(a) != NoRisk then RiskIn(a)
                                else if UnboundedIn(a) > 4 then TooManyUnbounded
                                else NoRisk
  {
    ScanAlternatives(Text(a), BEGIN, a);
    GoesLoop(Text(a), BEGIN, Found(RiskIn(a), Past(BEGIN, a)));
  }

  /** The number that digits stand for. */
  lemma ValueOfDigit(c: char)
    requires IsDigit(c)
    ensures Value([c]) == c as int - '0' as int
  {
    assert [c][..0] == [];
  }

  lemma ValueOfMore(ds: string, c: char)
    requires IsDigit(c) && forall j :: 0 <= j < |ds| ==> IsDigit(ds[j])
    ensures Value(ds + [c]) == 10 * Value(ds) + Value([c])
  {
    ValueOfDigit(c);
    assert (ds + [c])[..|ds|] == ds;
  }

  /** What each quantifier allows: * + and {n,} any number of repetitions, ? at most one, {n} n and {n,m} m; it repeats
      if it allows more than one, and counts as unbounded if it allows more than 1000. */
  lemma QuantifierMeans(q: Quant)
    requires QuantOk(q)
    ensures q.Star? || q.Plus? || q.AtLeast? ==> Repeats(q) && Unbounded(q)
    ensures q.Opt? ==> !Repeats(q) && !Unbounded(q)
    ensures q.Exactly? ==> (Repeats(q) <==> Value(q.min) >= 2) && (Unbounded(q) <==> Value(q.min) >= 1001)
    ensures q.Between? ==> (Repeats(q) <==> Value(q.max) >= 2) && (Unbounded(q) <==> Value(q.max) >= 1001)
  {
  }

  lemma {:induction false} SafeAtomIsShallow(a: Atom)
    requires AtomOk(a) && AtomSafe(a)
    ensures AtomDepth(a) <= 1
    decreases a, 0
  {
    if a.Group? { SafeIsShallow(a.body); }
  }

  lemma {:induction false} SafeSequenceIsShallow(s: Sequence)
    requires SequenceOk(s) && SequenceSafe(s)
    ensures SequenceDepth(s) <= 1
    decreases s, 1
  {
    if s.Then? {
      SafeAtomIsShallow(s.head.atom);
      SafeSequenceIsShallow(s.tail);
    }
  }

  lemma {:induction false} SafeIsShallow(a: Alternatives)
    requires AlternativesOk(a) && Safe(a)
    ensures Depth(a) <= 1
    decreases a, 2
  {
    match a
    case Single(only) => SafeSequenceIsShallow(only);
    case Or(first, others) => SafeSequenceIsShallow(first); SafeIsShallow(others);
  }

  /** An accepted pattern never nests repeating quantifiers. */
  lemma AcceptedNeverNests(a: Alternatives)
    requires WellFormed(a) && Verdict(Text(a)) == NoRisk
    ensures Depth(a) <= 1
  {
    AcceptsExactly(a);
    SafeIsShallow(a);
  }
}
