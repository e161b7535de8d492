/** Which cited evidence is kept, and which scores survive without any. */
module EvidenceGate {
  import opened Wrappers
  import opened Quotes
  import Scoring

  const MAX_QUOTE_CHARS: nat := 500
  const MAX_EVIDENCE: nat := 6

  datatype Speaker = AGENT | PARTICIPANT | SYSTEM

  datatype Turn = Turn(speaker: Speaker, tokens: Tokens)

  /** A trimmed quote, its normalized text and the tokens of its non-empty fragments. */
  datatype Quote = Quote(text: string, normal: string, fragments: seq<Tokens>)

  /** What Number(...) makes of a cited turn. */
  datatype Number = Finite(x: real) | NotFinite

  /** A cited item as the model wrote it; a quote that is no string has the empty text. */
  datatype Raw = Raw(turnSeq: Number, quote: Quote)

  datatype Item = Item(turnSeq: int, quote: string)

  datatype Reason = UnknownTurn | WrongSpeaker | QuoteNotFound | Malformed

  datatype Dropped = Dropped(turnSeq: real, quote: string, reason: Reason)

  type Turns = map<int, Turn>

  predicate WellFormed(raw: Raw) {
    raw.turnSeq.Finite? && raw.turnSeq.x == raw.turnSeq.x.Floor as real && raw.quote.text != ""
  }

  function Cited(raw: Raw): int { if raw.turnSeq.Finite? then raw.turnSeq.x.Floor else -1 }

  /** The item cites an existing turn by the required speaker, and its full quote appears there. */
  predicate Supported(raw: Raw, turns: Turns, speaker: Option<Speaker>) {
    && WellFormed(raw)
    && Cited(raw) in turns
    && (speaker.Some? ==> turns[Cited(raw)].speaker == speaker.value)
    && Appears(raw.quote.fragments, turns[Cited(raw)].tokens)
  }

  /** The record of an item that is not supported. */
  function Rejection(raw: Raw, turns: Turns, speaker: Option<Speaker>): Dropped {
    var n := if raw.turnSeq.Finite? then raw.turnSeq.x else -1.0;
    Dropped(n, raw.quote.text,
            if !WellFormed(raw) then Malformed
            else if Cited(raw) !in turns then UnknownTurn
            else if speaker.Some? && turns[Cited(raw)].speaker != speaker.value then WrongSpeaker
            else QuoteNotFound)
  }

  /** Two items say the same: same turn, same normalized quote. */
  function KeyOf(raw: Raw): (int, string) { (Cited(raw), raw.quote.normal) }

  function KeysOf(items: seq<Raw>): set<(int, string)> { set i | 0 <= i < |items| :: KeyOf(items[i]) }

  /** The supported items, without those that repeat an earlier one. */
  function Accepted(items: seq<Raw>, turns: Turns, speaker: Option<Speaker>): seq<Raw> {
    if items == [] then []
    else
      var n := |items| - 1;
      var before := Accepted(items[..n], turns, speaker);
      if Supported(items[n], turns, speaker) && KeyOf(items[n]) !in KeysOf(before) then before + [items[n]] else before
  }

  function Rejected(items: seq<Raw>, turns: Turns, speaker: Option<Speaker>): seq<Dropped> {
    if items == [] then []
    else
      var n := |items| - 1;
      Rejected(items[..n], turns, speaker)
      + if Supported(items[n], turns, speaker) then [] else [Rejection(items[n], turns, speaker)]
  }

  /** The number of supported items that repeat an earlier one. */
  function Repeats(items: seq<Raw>, turns: Turns, speaker: Option<Speaker>): nat {
    if items == [] then 0
    else
      var n := |items| - 1;
      Repeats(items[..n], turns, speaker)
      + if Supported(items[n], turns, speaker)
           && KeyOf(items[n]) in KeysOf(Accepted(items[..n], turns, speaker))
        then 1 else 0
  }

  function FirstOf(items: seq<Raw>): seq<Raw> { if |items| <= MAX_EVIDENCE then items else items[..MAX_EVIDENCE] }

  function Cut(raw: Raw): Item {
    var text := raw.quote.text;
    Item(Cited(raw), if |text| > MAX_QUOTE_CHARS then text[..MAX_QUOTE_CHARS - 1] + "\U{2026}" else text)
  }

  function CutAll(items: seq<Raw>): (r: seq<Item>)
    ensures |r| == |items|
  {
    seq(|items|, i requires 0 <= i < |items| => Cut(items[i]))
  }

  function Kept(items: seq<Raw>, turns: Turns, speaker: Option<Speaker>): seq<Item> {
    CutAll(FirstOf(Accepted(items, turns, speaker)))
  }

  /** verifyEvidence; evidence that is no list counts as empty. */
  method VerifyEvidence(evidence: Option<seq<Raw>>, turns: Turns, speaker: Option<Speaker>)
    returns (kept: seq<Item>, dropped: seq<Dropped>)
    ensures kept == if evidence.None? then [] else Kept(evidence.value, turns, speaker)
    ensures dropped == if evidence.None? then [] else Rejected(evidence.value, turns, speaker)
  {
    kept, dropped := [], [];
    if evidence.None? {
      return;
    }
    var items := evidence.value;
    var seen: set<(int, string)> := {};
    for i := 0 to |items|
      invariant kept == Kept(items[..i], turns, speaker)
      invariant dropped == Rejected(items[..i], turns, speaker)
      invariant seen == KeysOf(Accepted(items[..i], turns, speaker))
    {
      var raw := items[i];
      AcceptedStep(items, i, turns, speaker);
      if !WellFormed(raw) {
        dropped := dropped + [Dropped(if raw.turnSeq.Finite? then raw.turnSeq.x else -1.0, raw.quote.text, Malformed)];
        continue;
      }
      var turnSeq := raw.turnSeq.x.Floor;
      if turnSeq !in turns {
        dropped := dropped + [Dropped(raw.turnSeq.x, raw.quote.text, UnknownTurn)];
        continue;
      }
      if speaker.Some? && turns[turnSeq].speaker != speaker.value {
        dropped := dropped + [Dropped(raw.turnSeq.x, raw.quote.text, WrongSpeaker)];
        continue;
      }
      var appears := QuoteAppearsIn(raw.quote.fragments, turns[turnSeq].tokens);
      if !appears {
        dropped := dropped + [Dropped(raw.turnSeq.x, raw.quote.text, QuoteNotFound)];
        continue;
      }
      if (turnSeq, raw.quote.normal) in seen {
        continue;
      }
      seen := seen + {(turnSeq, raw.quote.normal)};
      if |kept| < MAX_EVIDENCE {
        kept := kept + [Cut(raw)];
      }
    }
    assert items[..|items|] == items;
  }

  /** One more item: rejected, a repeat, or accepted at the end. */
  lemma AcceptedStep(items: seq<Raw>, i: nat, turns: Turns, speaker: Option<Speaker>)
    requires i < |items|
    ensures var before, after, raw := Accepted(items[..i], turns, speaker),
                                        Accepted(items[..i + 1], turns, speaker), items[i];
            if Supported(raw, turns, speaker) && KeyOf(raw) !in KeysOf(before)
            then && KeysOf(after) == KeysOf(before) + {KeyOf(raw)}
                 && CutAll(FirstOf(after))
                    == CutAll(FirstOf(before)) + (if |before| < MAX_EVIDENCE then [Cut(raw)] else [])
            else after == before
    ensures Rejected(items[..i + 1], turns, speaker)
            == Rejected(items[..i], turns, speaker)
               + (if Supported(items[i], turns, speaker) then [] else [Rejection(items[i], turns, speaker)])
  {
    assert items[..i + 1][..i] == items[..i];
    var before := Accepted(items[..i], turns, speaker);
    KeysAfter(before, items[i]);
    FirstAfter(before, items[i]);
  }

  lemma KeysAfter(before: seq<Raw>, raw: Raw)
    ensures KeysOf(before + [raw]) == KeysOf(before) + {KeyOf(raw)}
  {
    var after := before + [raw];
    forall k | k in KeysOf(before) + {KeyOf(raw)} ensures k in KeysOf(after) {
      if k == KeyOf(raw) {
        assert KeyOf(after[|before|]) == k;
      } else {
        var i :| 0 <= i < |before| && KeyOf(before[i]) == k;
        assert KeyOf(after[i]) == k;
      }
    }
  }

  lemma FirstAfter(before: seq<Raw>, raw: Raw)
    ensures CutAll(FirstOf(before + [raw]))
            == CutAll(FirstOf(before)) + (if |before| < MAX_EVIDENCE then [Cut(raw)] else [])
  {
  }

  // ---- item by item, on what was cited ----

  /** The item cites turn n: a whole number, with a quote that is not empty. */
  predicate Cites(raw: Raw, n: int) { raw.turnSeq == Finite(n as real) && raw.quote.text != "" }

  /** An item is supported exactly when it cites a turn there is, by the required speaker if one is required, in
      which the full quote appears. */
  lemma SupportedExactly(raw: Raw, turns: Turns, speaker: Option<Speaker>)
    ensures Supported(raw, turns, speaker) <==>
            exists n :: Cites(raw, n) && n in turns && (speaker == None || Some(turns[n].speaker) == speaker)
                        && Appears(raw.quote.fragments, turns[n].tokens)
  {
    if Supported(raw, turns, speaker) { assert Cites(raw, Cited(raw)); }
    if n :| Cites(raw, n) && n in turns && (speaker == None || Some(turns[n].speaker) == speaker)
            && Appears(raw.quote.fragments, turns[n].tokens) {
      assert Cited(raw) == n;
    }
  }

  /** What is recorded of an item that is dropped: the turn as it was cited, the quote, and the first reason that
      applies. */
  lemma RejectionExactly(raw: Raw, turns: Turns, speaker: Option<Speaker>)
    ensures var d := Rejection(raw, turns, speaker);
            && d.quote == raw.quote.text && d.turnSeq == (if raw.turnSeq.Finite? then raw.turnSeq.x else -1.0)
            && (d.reason.Malformed? <==> forall n :: !Cites(raw, n))
            && (d.reason.UnknownTurn? <==> exists n :: Cites(raw, n) && n !in turns)
            && (d.reason.WrongSpeaker? <==>
                  exists n :: Cites(raw, n) && n in turns && speaker != None && Some(turns[n].speaker) != speaker)
  {
    if n :| Cites(raw, n) { assert Cited(raw) == n && WellFormed(raw); }
    if WellFormed(raw) { assert Cites(raw, Cited(raw)); }
  }

  /** What is kept of an item: its turn and its quote, cut to 500 characters with an ellipsis at the end. */
  lemma CutExactly(raw: Raw, n: int)
    requires Cites(raw, n)
    ensures Cut(raw).turnSeq == n
    ensures |raw.quote.text| <= 500 ==> Cut(raw).quote == raw.quote.text
    ensures |raw.quote.text| > 500 ==>
              && |Cut(raw).quote| == 500 && Cut(raw).quote[..499] == raw.quote.text[..499]
              && Cut(raw).quote[499] == '\U{2026}'
  {
  }

  /** An earlier supported item has the same turn and the same normalized quote. */
  predicate SaidBefore(items: seq<Raw>, i: nat, turns: Turns, speaker: Option<Speaker>)
    requires i < |items|
  {
    exists k :: 0 <= k < i && Supported(items[k], turns, speaker)
                && items[k].turnSeq == items[i].turnSeq && items[k].quote.normal == items[i].quote.normal
  }

  lemma AcceptedKeys(items: seq<Raw>, i: nat, turns: Turns, speaker: Option<Speaker>)
    requires i < |items| && Supported(items[i], turns, speaker)
    ensures KeyOf(items[i]) in KeysOf(Accepted(items[..i], turns, speaker)) <==> SaidBefore(items, i, turns, speaker)
  {
    var before := Accepted(items[..i], turns, speaker);
    if KeyOf(items[i]) in KeysOf(before) {
      var m :| 0 <= m < |before| && KeyOf(before[m]) == KeyOf(items[i]);
      AcceptedIsSupported(items[..i], turns, speaker);
      assert before[m] in before;
      var k :| 0 <= k < i && items[..i][k] == before[m];
      assert items[k] == before[m];
    }
    if k :| 0 <= k < i && Supported(items[k], turns, speaker)
            && items[k].turnSeq == items[i].turnSeq && items[k].quote.normal == items[i].quote.normal {
      assert items[..i][k] == items[k];
      SupportedIsCovered(items[..i], turns, speaker, k);
    }
  }

  /** The items one after the other: an unsupported one is dropped, one that was said before passes silently, and
      any other is kept as long as fewer than six are. */
  lemma OneByOne(items: seq<Raw>, i: nat, turns: Turns, speaker: Option<Speaker>)
    requires i < |items|
    ensures Kept(items[..0], turns, speaker) == [] && Rejected(items[..0], turns, speaker) == []
    ensures Rejected(items[..i + 1], turns, speaker)
            == Rejected(items[..i], turns, speaker)
               + if Supported(items[i], turns, speaker) then [] else [Rejection(items[i], turns, speaker)]
    ensures var kept := Kept(items[..i], turns, speaker);
            Kept(items[..i + 1], turns, speaker)
            == if Supported(items[i], turns, speaker) && !SaidBefore(items, i, turns, speaker) && |kept| < 6
               then kept + [Cut(items[i])] else kept
  {
    AcceptedStep(items, i, turns, speaker);
    if Supported(items[i], turns, speaker) { AcceptedKeys(items, i, turns, speaker); }
  }

  // ---- what is kept ----

  /** Every item is kept, dropped, a repeat, or beyond the limit. */
  lemma {:induction false} NothingIsLost(items: seq<Raw>, turns: Turns, speaker: Option<Speaker>)
    ensures |items|
            == |Accepted(items, turns, speaker)| + |Rejected(items, turns, speaker)| + Repeats(items, turns, speaker)
  {
    if items != [] { NothingIsLost(items[..|items| - 1], turns, speaker); }
  }

  function Overflow(items: seq<Raw>, turns: Turns, speaker: Option<Speaker>): nat {
    |Accepted(items, turns, speaker)| - |FirstOf(Accepted(items, turns, speaker))|
  }

  lemma {:induction false} Conservation(items: seq<Raw>, turns: Turns, speaker: Option<Speaker>)
    ensures |items| == |Kept(items, turns, speaker)| + |Rejected(items, turns, speaker)|
                       + Repeats(items, turns, speaker) + Overflow(items, turns, speaker)
    ensures |Kept(items, turns, speaker)| <= MAX_EVIDENCE
    ensures Overflow(items, turns, speaker) > 0 ==> |Kept(items, turns, speaker)| == MAX_EVIDENCE
  {
    NothingIsLost(items, turns, speaker);
  }

  lemma {:induction false} AcceptedIsSupported(items: seq<Raw>, turns: Turns, speaker: Option<Speaker>)
    ensures forall raw :: raw in Accepted(items, turns, speaker) ==> raw in items && Supported(raw, turns, speaker)
  {
    if items != [] { AcceptedIsSupported(items[..|items| - 1], turns, speaker); }
  }

  predicate DistinctKeys(a: seq<Raw>) { forall i, j :: 0 <= i < j < |a| ==> KeyOf(a[i]) != KeyOf(a[j]) }

  lemma DistinctAfter(before: seq<Raw>, raw: Raw)
    requires DistinctKeys(before) && KeyOf(raw) !in KeysOf(before)
    ensures DistinctKeys(before + [raw])
  {
  }

  lemma {:induction false} AcceptedIsDistinct(items: seq<Raw>, turns: Turns, speaker: Option<Speaker>)
    ensures DistinctKeys(Accepted(items, turns, speaker))
  {
    if items != [] {
      var n := |items| - 1;
      var before := Accepted(items[..n], turns, speaker);
      AcceptedIsDistinct(items[..n], turns, speaker);
      if KeyOf(items[n]) !in KeysOf(before) { DistinctAfter(before, items[n]); }
    }
  }

  /** A supported item is accepted, or an earlier one says the same. */
  lemma {:induction false} SupportedIsCovered(items: seq<Raw>, turns: Turns, speaker: Option<Speaker>, i: nat)
    requires i < |items| && Supported(items[i], turns, speaker)
    ensures KeyOf(items[i]) in KeysOf(Accepted(items, turns, speaker))
  {
    var n := |items| - 1;
    var before := Accepted(items[..n], turns, speaker);
    KeysAfter(before, items[n]);
    if i < n { SupportedIsCovered(items[..n], turns, speaker, i); }
  }

  /** The kept items are the first six accepted ones, cut to length: each supported, no two alike. */
  lemma {:induction false} KeptIsSound(items: seq<Raw>, turns: Turns, speaker: Option<Speaker>)
    ensures var kept, a := Kept(items, turns, speaker), Accepted(items, turns, speaker);
            && |kept| <= |a|
            && (forall i :: 0 <= i < |kept| ==>
                   kept[i] == Cut(a[i]) && a[i] in items && Supported(a[i], turns, speaker))
            && (forall i, j :: 0 <= i < j < |kept| ==>
                  a[i].turnSeq != a[j].turnSeq || a[i].quote.normal != a[j].quote.normal)
  {
    AcceptedIsSupported(items, turns, speaker);
    AcceptedIsDistinct(items, turns, speaker);
    var kept, a := Kept(items, turns, speaker), Accepted(items, turns, speaker);
    assert kept == CutAll(FirstOf(a)) && |kept| <= |a|;
    forall i | 0 <= i < |kept| ensures kept[i] == Cut(a[i]) && a[i] in items && Supported(a[i], turns, speaker) {
      assert a[i] in a;
    }
  }

  /** Something is kept exactly when something is supported. */
  lemma KeptExactly(items: seq<Raw>, turns: Turns, speaker: Option<Speaker>)
    ensures Kept(items, turns, speaker) != [] <==> exists i :: 0 <= i < |items| && Supported(items[i], turns, speaker)
  {
    var a := Accepted(items, turns, speaker);
    if a != [] {
      AcceptedIsSupported(items, turns, speaker);
      assert a[0] in items;
    }
    if i :| 0 <= i < |items| && Supported(items[i], turns, speaker) {
      SupportedIsCovered(items, turns, speaker, i);
    }
  }

  // ---- the criteria of an evaluation ----

  datatype Judgment = Judgment(id: string, insufficient: bool, score: Option<real>, evidence: seq<Raw>)

  /** A judged criterion, its score in tenths. */
  datatype Judged = Judged(id: string, weight: real, score: Option<int>, insufficient: bool,
                           evidence: seq<Item>, dropped: nat)

  function Last(js: seq<Judgment>, id: string): Option<Judgment> {
    if js == [] then None
    else if js[|js| - 1].id == id then Some(js[|js| - 1])
    else Last(js[..|js| - 1], id)
  }

  /** The score a judgment claims, before its evidence is looked at. */
  function Claimed(j: Judgment): Option<real> { if j.insufficient then None else Scoring.ClampScore(j.score) }

  function Judge(c: Scoring.Criterion, js: seq<Judgment>, turns: Turns, subject: Option<Speaker>): Judged {
    var last := Last(js, c.id);
    if last.None? then Judged(c.id, c.weight, None, true, [], 0)
    else
      var j := last.value;
      var kept := Kept(j.evidence, turns, subject);
      var score := if Claimed(j).None? || kept == [] then None else Some(Scoring.Round(Claimed(j).value * 10.0));
      Judged(c.id, c.weight, score, score.None?, kept, |Rejected(j.evidence, turns, subject)|)
  }

  predicate IsMissing(c: Scoring.Criterion, js: seq<Judgment>) { Last(js, c.id).None? }

  /** A score was claimed, and none of its evidence holds. */
  predicate IsDowngraded(c: Scoring.Criterion, js: seq<Judgment>, turns: Turns, subject: Option<Speaker>) {
    && Last(js, c.id).Some?
    && Claimed(Last(js, c.id).value).Some?
    && Kept(Last(js, c.id).value.evidence, turns, subject) == []
  }

  function JudgeAll(cs: seq<Scoring.Criterion>, js: seq<Judgment>, turns: Turns,
                    subject: Option<Speaker>): (r: seq<Judged>)
    ensures |r| == |cs|
  {
    seq(|cs|, i requires 0 <= i < |cs| => Judge(cs[i], js, turns, subject))
  }

  function DroppedIn(out: seq<Judged>): nat {
    if out == [] then 0 else DroppedIn(out[..|out| - 1]) + out[|out| - 1].dropped
  }

  /** The places among the first n criteria where p holds. */
  function Where(cs: seq<Scoring.Criterion>, n: nat, p: Scoring.Criterion -> bool): set<nat>
    requires n <= |cs|
  {
    set i: nat | i < n && p(cs[i])
  }

  lemma WhereNext(cs: seq<Scoring.Criterion>, n: nat, p: Scoring.Criterion -> bool)
    requires n < |cs|
    ensures |Where(cs, n + 1, p)| == |Where(cs, n, p)| + (if p(cs[n]) then 1 else 0)
  {
    var w := Where(cs, n, p);
    assert Where(cs, n + 1, p) == if p(cs[n]) then w + {n} else w;
  }

  function Missing(js: seq<Judgment>): Scoring.Criterion -> bool { c => IsMissing(c, js) }

  function Downgraded(js: seq<Judgment>, turns: Turns, subject: Option<Speaker>): Scoring.Criterion -> bool {
    c => IsDowngraded(c, js, turns, subject)
  }

  /** One criterion: its judgment, and whether it counts as missing or downgraded. */
  method JudgeOne(c: Scoring.Criterion, js: seq<Judgment>, turns: Turns, subject: Option<Speaker>)
    returns (judged: Judged, isMissing: bool, isDowngraded: bool)
    ensures judged == Judge(c, js, turns, subject)
    ensures isMissing <==> IsMissing(c, js)
    ensures isDowngraded <==> IsDowngraded(c, js, turns, subject)
  {
    var last := Last(js, c.id);
    isDowngraded, isMissing := false, last.None?;
    if isMissing {
      judged := Judged(c.id, c.weight, None, true, [], 0);
      return;
    }
    var j := last.value;
    var kept, dropped := VerifyEvidence(Some(j.evidence), turns, subject);
    var score := if j.insufficient then None else Scoring.ClampScore(j.score);
    if score.Some? && |kept| == 0 {
      score, isDowngraded := None, true;
    }
    var tenths := if score.None? then None else Some(Scoring.Round(score.value * 10.0));
    judged := Judged(c.id, c.weight, tenths, score.None?, kept, |dropped|);
  }

  /** processEvaluation, as far as scores and counts go. */
  method ProcessEvaluation(cs: seq<Scoring.Criterion>, js: seq<Judgment>, turns: Turns, subject: Option<Speaker>,
                           minCoverage: real, passingScore: Option<real>)
    returns (criteria: seq<Judged>, weighted: Scoring.Result, droppedTotal: nat, downgraded: nat, missing: nat)
    ensures criteria == JudgeAll(cs, js, turns, subject)
    ensures weighted.overall == Scoring.Overall(cs, Scores(criteria), minCoverage)
    ensures droppedTotal == DroppedIn(criteria)
    ensures downgraded == |Where(cs, |cs|, Downgraded(js, turns, subject))|
    ensures missing == |Where(cs, |cs|, Missing(js))|
  {
    criteria, droppedTotal, downgraded, missing := [], 0, 0, 0;
    for i := 0 to |cs|
      invariant criteria == JudgeAll(cs[..i], js, turns, subject)
      invariant droppedTotal == DroppedIn(criteria)
      invariant downgraded == |Where(cs, i, Downgraded(js, turns, subject))|
      invariant missing == |Where(cs, i, Missing(js))|
    {
      WhereNext(cs, i, Missing(js));
      WhereNext(cs, i, Downgraded(js, turns, subject));
      JudgeNext(cs, i, js, turns, subject);
      var judged, isMissing, isDowngraded := JudgeOne(cs[i], js, turns, subject);
      if isMissing {
        missing := missing + 1;
      }
      if isDowngraded {
        downgraded := downgraded + 1;
      }
      droppedTotal := droppedTotal + judged.dropped;
      criteria := criteria + [judged];
    }
    assert cs[..|cs|] == cs;
    weighted := Scoring.ComputeWeightedScore(cs, Scores(criteria), minCoverage, passingScore);
  }

  lemma JudgeNext(cs: seq<Scoring.Criterion>, i: nat, js: seq<Judgment>, turns: Turns, subject: Option<Speaker>)
    requires i < |cs|
    ensures var before, judged := JudgeAll(cs[..i], js, turns, subject), Judge(cs[i], js, turns, subject);
            && JudgeAll(cs[..i + 1], js, turns, subject) == before + [judged]
            && DroppedIn(before + [judged]) == DroppedIn(before) + judged.dropped
  {
  }

  /** The judged criteria as scores. */
  function Scores(out: seq<Judged>): (js: seq<Scoring.Judgment>)
    ensures |js| == |out|
  {
    seq(|out|, i requires 0 <= i < |out| =>
      Scoring.Judgment(out[i].id, if out[i].score.None? then None else Some(out[i].score.value as real / 10.0)))
  }

  // ---- the gate ----

  lemma {:induction false} LastIs(js: seq<Judgment>, i: nat)
    requires i < |js| && forall k :: i < k < |js| ==> js[k].id != js[i].id
    ensures Last(js, js[i].id) == Some(js[i])
  {
    if i < |js| - 1 { LastIs(js[..|js| - 1], i); }
  }

  lemma {:induction false} LastNone(js: seq<Judgment>, id: string)
    requires forall k :: 0 <= k < |js| ==> js[k].id != id
    ensures Last(js, id) == None
  {
    if js != [] { LastNone(js[..|js| - 1], id); }
  }

  /** The last judgment of a criterion decides. It has a score exactly when the judgment gives a number, does not
      call the evidence insufficient, and cites something that holds; the score is the number judged, cut off at 0
      and 100 and rounded to tenths, halves up. */
  lemma GateExactly(c: Scoring.Criterion, js: seq<Judgment>, i: nat, turns: Turns, subject: Option<Speaker>)
    requires i < |js| && js[i].id == c.id && forall k :: i < k < |js| ==> js[k].id != c.id
    ensures var out, j := Judge(c, js, turns, subject), js[i];
            && out.id == c.id && out.weight == c.weight && (out.insufficient <==> out.score == None)
            && out.evidence == Kept(j.evidence, turns, subject) && out.dropped == |Rejected(j.evidence, turns, subject)|
            && (out.score.Some? <==> && !j.insufficient && j.score.Some?
                                     && exists k :: 0 <= k < |j.evidence| && Supported(j.evidence[k], turns, subject))
    ensures var out, j := Judge(c, js, turns, subject), js[i];
            out.score.Some? ==>
              var tenths, s := out.score.value as real, j.score.value;
              if s < 0.0 then tenths == 0.0
              else if s > 100.0 then tenths == 1000.0
              else 10.0 * s - 0.5 < tenths <= 10.0 * s + 0.5
  {
    LastIs(js, i);
    KeptExactly(js[i].evidence, turns, subject);
    if Claimed(js[i]).Some? { Scoring.RoundExactly(Claimed(js[i]).value * 10.0); }
  }

  /** A criterion without a judgment has no score and no evidence. */
  lemma MissingExactly(c: Scoring.Criterion, js: seq<Judgment>, turns: Turns, subject: Option<Speaker>)
    requires forall k :: 0 <= k < |js| ==> js[k].id != c.id
    ensures Judge(c, js, turns, subject) == Judged(c.id, c.weight, None, true, [], 0)
  {
    LastNone(js, c.id);
  }

  /** The overall score of a whole evaluation rests on supported scores alone, and lies between any bounds,
      in tenths, on the surviving scores of positive weight. */
  lemma OverallRestsOnEvidence(cs: seq<Scoring.Criterion>, js: seq<Judgment>, turns: Turns, subject: Option<Speaker>,
                               minCoverage: real, lo: int, hi: int)
    requires var out := JudgeAll(cs, js, turns, subject);
             forall i :: 0 <= i < |cs| && cs[i].weight > 0.0 && out[i].score.Some? ==> lo <= out[i].score.value <= hi
    ensures var overall := Scoring.Overall(cs, Scores(JudgeAll(cs, js, turns, subject)), minCoverage);
            overall.Some? ==> lo <= overall.value <= hi
  {
    var out := JudgeAll(cs, js, turns, subject);
    var scores := Scores(out);
    forall c | c in cs && Scoring.Counts(c, scores)
      ensures lo as real <= Scoring.ScoreOf(scores, c.id).value * 10.0 <= hi as real
    {
      var i :| 0 <= i < |cs| && cs[i] == c;
      ScoreIs(cs, js, turns, subject, i);
    }
    if Scoring.Overall(cs, scores, minCoverage).Some? { Scoring.OverallBetween(cs, scores, minCoverage, lo, hi); }
  }

  lemma ScoreInRange(c: Scoring.Criterion, js: seq<Judgment>, turns: Turns, subject: Option<Speaker>)
    ensures var out := Judge(c, js, turns, subject); out.score.Some? ==> 0 <= out.score.value <= 1000
  {
    if Last(js, c.id).Some? {
      var j := Last(js, c.id).value;
      if Claimed(j).Some? { Scoring.RoundBetween(Claimed(j).value * 10.0, 0, 1000); }
    }
  }

  /** Bounds in tenths on the numbers judged bound the overall score. */
  lemma OverallRestsOnJudgments(cs: seq<Scoring.Criterion>, js: seq<Judgment>, turns: Turns, subject: Option<Speaker>,
                                minCoverage: real, lo: nat, hi: nat)
    requires hi <= 1000
    requires forall k :: 0 <= k < |js| && js[k].score.Some? ==> lo as real <= 10.0 * js[k].score.value <= hi as real
    ensures var overall := Scoring.Overall(cs, Scores(JudgeAll(cs, js, turns, subject)), minCoverage);
            overall.Some? ==> lo <= overall.value <= hi
  {
    forall i | 0 <= i < |cs| && Judge(cs[i], js, turns, subject).score.Some?
      ensures lo <= Judge(cs[i], js, turns, subject).score.value <= hi
    {
      LastMember(js, cs[i].id);
      var j := Last(js, cs[i].id).value;
      Scoring.RoundBetween(Claimed(j).value * 10.0, lo, hi);
    }
    OverallRestsOnEvidence(cs, js, turns, subject, minCoverage, lo, hi);
  }

  lemma LastMember(js: seq<Judgment>, id: string)
    ensures Last(js, id).Some? ==> Last(js, id).value in js
  {
  }

  /** The score of a criterion depends on its id alone. */
  lemma ScoreById(c: Scoring.Criterion, d: Scoring.Criterion, js: seq<Judgment>, turns: Turns, subject: Option<Speaker>)
    ensures c.id == d.id ==> Judge(c, js, turns, subject).score == Judge(d, js, turns, subject).score
  {
  }

  lemma {:induction false} LastOfId(scores: seq<Scoring.Judgment>, i: nat)
    requires i < |scores| && forall k :: 0 <= k < |scores| && scores[k].id == scores[i].id ==> scores[k] == scores[i]
    ensures Scoring.JudgmentOf(scores, scores[i].id) == Some(scores[i])
  {
    var n := |scores| - 1;
    if scores[n].id != scores[i].id { LastOfId(scores[..n], i); }
  }

  /** The score read back for the i-th criterion is its surviving score. */
  lemma ScoreIs(cs: seq<Scoring.Criterion>, js: seq<Judgment>, turns: Turns, subject: Option<Speaker>, i: nat)
    requires i < |cs|
    ensures var out := JudgeAll(cs, js, turns, subject);
            var s := Scoring.ScoreOf(Scores(out), cs[i].id);
            && (s.Some? <==> out[i].score.Some?)
            && (s.Some? ==> s.value * 10.0 == out[i].score.value as real)
  {
    var out := JudgeAll(cs, js, turns, subject);
    var scores := Scores(out);
    forall k | 0 <= k < |scores| && scores[k].id == scores[i].id ensures scores[k] == scores[i] {
      assert scores[k].id == cs[k].id && scores[i].id == cs[i].id;
      ScoreById(cs[i], cs[k], js, turns, subject);
    }
    LastOfId(scores, i);
    ScoreInRange(cs[i], js, turns, subject);
  }
}
