/** What accepted patterns hold inside their repeated groups, at any depth, said of all terms of the tree at once. */
module SafeRegexNesting {
  import opened SafeRegex
  import opened SafeRegexMeaning

  // ---- the terms of a tree ----

  function AtomTerms(a: Atom): set<Term> { if a.Group? then TermsIn(a.body) else {} }

  function SequenceTerms(s: Sequence): set<Term> {
    if s.Empty? then {} else {s.head} + AtomTerms(s.head.atom) + SequenceTerms(s.tail)
  }

  /** All terms, at any depth. */
  function TermsIn(a: Alternatives): set<Term> {
    match a
    case Single(only) => SequenceTerms(only)
    case Or(first, others) => SequenceTerms(first) + TermsIn(others)
  }

  lemma SequenceParts(s: Sequence)
    requires s.Then?
    ensures s.head in SequenceTerms(s)
    ensures forall t :: t in AtomTerms(s.head.atom) || t in SequenceTerms(s.tail) ==> t in SequenceTerms(s)
    ensures forall t :: t in SequenceTerms(s) ==>
                          t == s.head || t in AtomTerms(s.head.atom) || t in SequenceTerms(s.tail)
  {
  }

  /** The term has a quantifier that repeats. */
  predicate Repeating(t: Term) { t.Repeat? && QuantOk(t.q) && Repeats(t.q) }

  predicate RepeatedGroup(t: Term) { Repeating(t) && t.atom.Group? }

  predicate Alternating(t: Term) { t.atom.Group? && t.atom.body.Or? }

  predicate Backreference(t: Term) { t.atom.Escape? && BackrefChar(t.atom.c) }

  // ---- the scanner's rule, term by term ----

  lemma AlternativesParts(a: Alternatives)
    requires a.Or?
    ensures forall t :: t in TermsIn(a) <==> t in SequenceTerms(a.first) || t in TermsIn(a.others)
  {
  }

  lemma {:induction false} AtomDepthZero(a: Atom)
    requires AtomOk(a)
    ensures AtomDepth(a) == 0 <==> forall u :: u in AtomTerms(a) ==> !Repeating(u)
    decreases a, 0
  {
    if a.Group? { DepthZero(a.body); }
  }

  lemma {:induction false} SequenceDepthZero(s: Sequence)
    requires SequenceOk(s)
    ensures SequenceDepth(s) == 0 <==> forall u :: u in SequenceTerms(s) ==> !Repeating(u)
    decreases s, 1
  {
    if s.Then? {
      AtomDepthZero(s.head.atom);
      SequenceDepthZero(s.tail);
      SequenceParts(s);
    }
  }

  /** Nothing repeats exactly when no term does. */
  lemma {:induction false} DepthZero(a: Alternatives)
    requires AlternativesOk(a)
    ensures Depth(a) == 0 <==> forall u :: u in TermsIn(a) ==> !Repeating(u)
    decreases a, 2
  {
    match a
    case Single(only) => SequenceDepthZero(only);
    case Or(first, others) => SequenceDepthZero(first); DepthZero(others); AlternativesParts(a);
  }

  /** The term itself respects the rule. */
  predicate Respects(t: Term) {
    && !Backreference(t)
    && (RepeatedGroup(t) ==> !Alternating(t) && forall u :: u in TermsIn(t.atom.body) ==> !Repeating(u))
  }

  lemma {:induction false} AtomSafeExactly(a: Atom)
    requires AtomOk(a)
    ensures AtomSafe(a) <==> (a.Escape? ==> !BackrefChar(a.c)) && forall t :: t in AtomTerms(a) ==> Respects(t)
    decreases a, 0
  {
    if a.Group? { SafeExactly(a.body); }
  }

  lemma {:induction false} SequenceSafeExactly(s: Sequence)
    requires SequenceOk(s)
    ensures SequenceSafe(s) <==> forall t :: t in SequenceTerms(s) ==> Respects(t)
    decreases s, 1
  {
    if s.Then? {
      AtomSafeExactly(s.head.atom);
      SequenceSafeExactly(s.tail);
      if s.head.atom.Group? { DepthZero(s.head.atom.body); }
      SequenceParts(s);
    }
  }

  /** A tree is safe exactly when every term in it, at any depth, respects the rule. */
  lemma {:induction false} SafeExactly(a: Alternatives)
    requires AlternativesOk(a)
    ensures Safe(a) <==> forall t :: t in TermsIn(a) ==> Respects(t)
    decreases a, 2
  {
    match a
    case Single(only) => SequenceSafeExactly(only);
    case Or(first, others) => SequenceSafeExactly(first); SafeExactly(others); AlternativesParts(a);
  }

  /** The limits on length and on unbounded quantifiers. */
  predicate WithinLimits(a: Alternatives)
    requires AlternativesOk(a)
  {
    |Text(a)| <= 200 && UnboundedIn(a) <= 4
  }

  /** A pattern is accepted exactly when it is within the limits, holds no backreference, and no repeated group in
      it alternates itself or holds, at any depth, another repeating quantifier. */
  lemma AcceptsByTerms(a: Alternatives)
    requires WellFormed(a)
    ensures Verdict(Text(a)) == NoRisk <==> WithinLimits(a) && forall t :: t in TermsIn(a) ==> Respects(t)
  {
    AcceptsExactly(a);
    SafeExactly(a);
  }

  // ---- what the header promises ----

  /** A repeated group holds, at any depth, a quantifier of any kind. */
  predicate HoldsQuantifier(a: Alternatives) {
    exists t, u :: t in TermsIn(a) && RepeatedGroup(t) && u in TermsIn(t.atom.body) && u.Repeat?
  }

  /** A repeated group alternates, or holds, at any depth, a group that does. */
  predicate HoldsAlternation(a: Alternatives) {
    exists t :: t in TermsIn(a) && RepeatedGroup(t) &&
                (Alternating(t) || exists u :: u in TermsIn(t.atom.body) && Alternating(u))
  }

  /** Inside a repeated group, at any depth: a quantifier that does not repeat. */
  predicate HoldsOptional(a: Alternatives) {
    exists t, u :: t in TermsIn(a) && RepeatedGroup(t) && u in TermsIn(t.atom.body) && u.Repeat? && !Repeating(u)
  }

  /** Inside a repeated group, at any depth: a group that alternates and that nothing repeats on its own. */
  predicate HidesAlternation(a: Alternatives) {
    exists t, u :: t in TermsIn(a) && RepeatedGroup(t) && u in TermsIn(t.atom.body) && Alternating(u) && !Repeating(u)
  }

  /** An accepted pattern holds a quantifier inside a repeated group exactly when one of them holds one that does
      not repeat. */
  lemma AcceptedQuantifierExactly(a: Alternatives)
    requires WellFormed(a) && Verdict(Text(a)) == NoRisk
    ensures HoldsQuantifier(a) <==> HoldsOptional(a)
  {
    AcceptsByTerms(a);
    if HoldsQuantifier(a) {
      var t, u :| t in TermsIn(a) && RepeatedGroup(t) && u in TermsIn(t.atom.body) && u.Repeat?;
      assert Respects(t);
    }
  }

  /** An accepted pattern repeats an alternation, at whatever depth, exactly when a repeated group holds an
      alternating group that has no repeating quantifier of its own. */
  lemma AcceptedAlternationExactly(a: Alternatives)
    requires WellFormed(a) && Verdict(Text(a)) == NoRisk
    ensures HoldsAlternation(a) <==> HidesAlternation(a)
  {
    AcceptsByTerms(a);
    if HoldsAlternation(a) {
      var t :| t in TermsIn(a) && RepeatedGroup(t) &&
               (Alternating(t) || exists u :: u in TermsIn(t.atom.body) && Alternating(u));
      assert Respects(t);
    }
  }

  /** The inside of a repeated group as the header promises it. */
  predicate Flat(body: Alternatives) {
    body.Single? && forall u :: u in TermsIn(body) ==> u.Plain? && !Alternating(u)
  }

  /** A pattern is accepted and keeps both promises exactly when it is within the limits, holds no backreference,
      and every repeated group in it, at any depth, holds a single sequence without quantifiers or alternatives. */
  lemma PromisesKeptExactly(a: Alternatives)
    requires WellFormed(a)
    ensures Verdict(Text(a)) == NoRisk && !HoldsQuantifier(a) && !HoldsAlternation(a)
            <==> && WithinLimits(a)
                 && forall t :: t in TermsIn(a) ==> !Backreference(t) && (RepeatedGroup(t) ==> Flat(t.atom.body))
  {
    AcceptsByTerms(a);
    if Verdict(Text(a)) == NoRisk && !HoldsQuantifier(a) && !HoldsAlternation(a) {
      forall t | t in TermsIn(a) ensures !Backreference(t) && (RepeatedGroup(t) ==> Flat(t.atom.body)) {
        assert Respects(t);
      }
    } else if forall t :: t in TermsIn(a) ==> !Backreference(t) && (RepeatedGroup(t) ==> Flat(t.atom.body)) {
      forall t | t in TermsIn(a) ensures Respects(t) {}
    }
  }

  // ---- examples ----

  function One(t: Term): Alternatives { Single(Then(t, Empty)) }

  const A_OR_A := Or(Then(Plain(Literal('a')), Empty), One(Plain(Literal('a'))))

  const NESTED := One(Repeat(Group("", One(Plain(Group("", A_OR_A)))), Star, false))

  /** ((a|a))* is accepted, and repeats an alternation. */
  lemma NestedAlternationAccepted()
    ensures WellFormed(NESTED) && Text(NESTED) == "((a|a))*"
    ensures Verdict("((a|a))*") == NoRisk && HoldsAlternation(NESTED)
  {
    NestedText();
    NestedIsSafe();
    BraceFreeStands(Text(NESTED), 0, NESTED);
    AcceptsExactly(NESTED);
    var t, u := NESTED.only.head, Plain(Group("", A_OR_A));
    assert TermsIn(t.atom.body) == {u} + AtomTerms(u.atom);
    assert t in TermsIn(NESTED) && RepeatedGroup(t) && u in TermsIn(t.atom.body) && Alternating(u);
  }

  lemma NestedIsSafe()
    ensures AlternativesOk(NESTED) && BraceFree(NESTED) && Safe(NESTED) && UnboundedIn(NESTED) == 1
  {
    var inner := One(Plain(Group("", A_OR_A)));
    assert AlternativesOk(A_OR_A) && BraceFree(A_OR_A) && Safe(A_OR_A)
           && Depth(A_OR_A) == 0 && UnboundedIn(A_OR_A) == 0;
    assert AlternativesOk(inner) && BraceFree(inner) && Safe(inner) && Depth(inner) == 0 && UnboundedIn(inner) == 0;
  }

  lemma NestedText()
    ensures Text(NESTED) == "((a|a))*"
  {
    var inner := One(Plain(Group("", A_OR_A)));
    assert Text(A_OR_A) == "a|a";
    assert Text(inner) == "(a|a)";
    assert AtomText(Group("", inner)) == "((a|a))";
  }

  const MAYBE := Repeat(Literal('a'), Opt, false)

  const MAYBES := Single(Then(MAYBE, Then(MAYBE, Empty)))

  const STARRED := One(Repeat(Group("", MAYBES), Star, false))

  /** (a?a?)* is accepted, and holds quantifiers inside a repeated group. */
  lemma NestedQuantifierAccepted()
    ensures WellFormed(STARRED) && Text(STARRED) == "(a?a?)*"
    ensures Verdict("(a?a?)*") == NoRisk && HoldsQuantifier(STARRED)
  {
    StarredText();
    StarredIsSafe();
    BraceFreeStands(Text(STARRED), 0, STARRED);
    AcceptsExactly(STARRED);
    var t := STARRED.only.head;
    assert t in TermsIn(STARRED) && RepeatedGroup(t) && MAYBE in TermsIn(t.atom.body);
  }

  lemma StarredIsSafe()
    ensures AlternativesOk(STARRED) && BraceFree(STARRED) && Safe(STARRED) && UnboundedIn(STARRED) == 1
  {
    var rest := Then(MAYBE, Empty);
    assert SequenceOk(rest) && SequenceSafe(rest) && SequenceDepth(rest) == 0 && SequenceUnbounded(rest) == 0;
    assert AlternativesOk(MAYBES) && BraceFree(MAYBES) && Safe(MAYBES)
           && Depth(MAYBES) == 0 && UnboundedIn(MAYBES) == 0;
  }

  lemma StarredText()
    ensures Text(STARRED) == "(a?a?)*"
  {
    assert TermText(MAYBE) == "a?";
    assert SequenceText(Then(MAYBE, Empty)) == "a?";
    assert Text(MAYBES) == "a?a?";
    assert AtomText(Group("", MAYBES)) == "(a?a?)";
  }
}
