/** Longest common subsequences of two token lists. */
module Subsequences {

  type Token = string

  function Max(a: nat, b: nat): nat { if a < b then b else a }

  /** The recursion on last tokens that the table follows. */
  function Lcs(a: seq<Token>, b: seq<Token>): nat
    decreases |a| + |b|
  {
    if a == [] || b == [] then 0
    else
      var a', b' := a[..|a| - 1], b[..|b| - 1];
      if a[|a| - 1] == b[|b| - 1] then Lcs(a', b') + 1 else Max(Lcs(a', b), Lcs(a, b'))
  }

  /** c can be had from a by deleting tokens. */
  predicate IsSubsequence(c: seq<Token>, a: seq<Token>) {
    || c == []
    || (a != []
        && (|| IsSubsequence(c, a[..|a| - 1])
            || (c[|c| - 1] == a[|a| - 1] && IsSubsequence(c[..|c| - 1], a[..|a| - 1]))))
  }

  /** One common subsequence of the greatest length. */
  function Longest(a: seq<Token>, b: seq<Token>): seq<Token>
    decreases |a| + |b|
  {
    if a == [] || b == [] then []
    else
      var a', b' := a[..|a| - 1], b[..|b| - 1];
      if a[|a| - 1] == b[|b| - 1] then Longest(a', b') + [a[|a| - 1]]
      else if Lcs(a', b) < Lcs(a, b') then Longest(a, b')
      else Longest(a', b)
  }

  lemma {:induction false} LcsAchieved(a: seq<Token>, b: seq<Token>)
    ensures var c := Longest(a, b); IsSubsequence(c, a) && IsSubsequence(c, b) && |c| == Lcs(a, b)
    decreases |a| + |b|
  {
    if a != [] && b != [] {
      var a', b' := a[..|a| - 1], b[..|b| - 1];
      if a[|a| - 1] == b[|b| - 1] {
        LcsAchieved(a', b');
        var c := Longest(a', b');
        assert (c + [a[|a| - 1]])[..|c|] == c;
      } else if Lcs(a', b) < Lcs(a, b') {
        LcsAchieved(a, b');
      } else {
        LcsAchieved(a', b);
      }
    }
  }

  lemma DropLast(c: seq<Token>, a: seq<Token>)
    requires c != [] && a != [] && IsSubsequence(c, a)
    ensures IsSubsequence(c[..|c| - 1], a[..|a| - 1])
  {
  }

  lemma {:induction false} LcsBounds(a: seq<Token>, b: seq<Token>, c: seq<Token>)
    requires IsSubsequence(c, a) && IsSubsequence(c, b)
    ensures |c| <= Lcs(a, b)
    decreases |a| + |b|
  {
    if c != [] {
      var a', b', c' := a[..|a| - 1], b[..|b| - 1], c[..|c| - 1];
      if a[|a| - 1] == b[|b| - 1] {
        DropLast(c, a);
        DropLast(c, b);
        LcsBounds(a', b', c');
      } else if c[|c| - 1] != a[|a| - 1] {
        LcsBounds(a', b, c);
      } else {
        LcsBounds(a, b', c);
      }
    }
  }

  /** The table entry for the first i and j tokens. */
  function Entry(a: seq<Token>, b: seq<Token>, i: nat, j: nat): nat
    requires i <= |a| && j <= |b|
  {
    Lcs(a[..i], b[..j])
  }

  lemma EntryStep(a: seq<Token>, b: seq<Token>, i: nat, j: nat)
    requires 0 < i <= |a| && 0 < j <= |b|
    ensures Entry(a, b, i, j)
            == if a[i - 1] == b[j - 1] then Entry(a, b, i - 1, j - 1) + 1
               else Max(Entry(a, b, i - 1, j), Entry(a, b, i, j - 1))
  {
    assert a[..i][..i - 1] == a[..i - 1] && b[..j][..j - 1] == b[..j - 1];
  }

  lemma EntryZero(a: seq<Token>, b: seq<Token>, i: nat, j: nat)
    requires i <= |a| && j <= |b| && (i == 0 || j == 0)
    ensures Entry(a, b, i, j) == 0
  {
  }

  /** lcs: two rows of the table. */
  method LcsLength(a: seq<Token>, b: seq<Token>) returns (length: nat)
    ensures length == Lcs(a, b)
  {
    if |a| == 0 || |b| == 0 {
      return 0;
    }
    var prev := new nat[|b| + 1](_ => 0);
    var cur := new nat[|b| + 1](_ => 0);
    forall j | 0 <= j <= |b| ensures Entry(a, b, 0, j) == 0 { EntryZero(a, b, 0, j); }
    for i := 1 to |a| + 1
      invariant forall j :: 0 <= j <= |b| ==> prev[j] == Entry(a, b, i - 1, j)
      invariant cur[0] == 0
    {
      EntryZero(a, b, i, 0);
      for j := 1 to |b| + 1
        invariant forall k :: 0 <= k <= |b| ==> prev[k] == Entry(a, b, i - 1, k)
        invariant cur[0] == 0
        invariant forall k :: 0 <= k < j ==> cur[k] == Entry(a, b, i, k)
      {
        EntryStep(a, b, i, j);
        cur[j] := if a[i - 1] == b[j - 1] then prev[j - 1] + 1 else Max(prev[j], cur[j - 1]);
      }
      for j := 0 to |b| + 1
        invariant cur[0] == 0
        invariant forall k :: 0 <= k <= |b| ==> cur[k] == Entry(a, b, i, k)
        invariant forall k :: 0 <= k < j ==> prev[k] == cur[k]
      {
        prev[j] := cur[j];
      }
    }
    length := prev[|b|];
    assert a[..|a|] == a && b[..|b|] == b;
  }
}

/** Finding a quote in a turn. */
module Quotes {
  import opened Wrappers
  import opened Subsequences

  type Tokens = seq<Token>

  predicate IsFiller(t: Token) { t in ["um", "uh", "erm", "er", "ah", "hmm", "mm", "like", "you", "know"] }

  /** The tokens that are not fillers. */
  function Content(ts: Tokens): Tokens {
    if ts == [] then []
    else Content(ts[..|ts| - 1]) + if IsFiller(ts[|ts| - 1]) then [] else [ts[|ts| - 1]]
  }

  function WinMin(m: nat): nat { Max(1, 8 * m / 10) }

  /** ceil(1.25 m) + 1 */
  function WinMax(m: nat): nat { (5 * m + 3) / 4 + 1 }

  predicate ExactAt(f: Tokens, t: Tokens, i: nat) { i + |f| <= |t| && t[i..i + |f|] == f }

  /** The window passes as a noisy rendering of the fragment: 85% of its tokens in order, or 90% of its
      content tokens. */
  predicate Resembles(f: Tokens, window: Tokens) {
    || 100 * Lcs(f, window) >= 85 * |f|
    || (Content(f) != [] && 10 * Lcs(Content(f), Content(window)) >= 9 * |Content(f)|)
  }

  function FirstExact(f: Tokens, t: Tokens, i: nat): Option<nat>
    decreases |t| - i
  {
    if i + |f| > |t| then None
    else if t[i..i + |f|] == f then Some(i + |f|)
    else if i == |t| then None
    else FirstExact(f, t, i + 1)
  }

  /** The first window size from w on that passes at i. */
  function FirstWindow(f: Tokens, t: Tokens, i: nat, w: nat): Option<nat>
    requires i <= |t|
    decreases WinMax(|f|) + 1 - w
  {
    if w > WinMax(|f|) || i + w > |t| then None
    else if Resembles(f, t[i..i + w]) then Some(i + w)
    else FirstWindow(f, t, i, w + 1)
  }

  function FirstFuzzy(f: Tokens, t: Tokens, i: nat): Option<nat>
    decreases |t| - i
  {
    if i >= |t| then None
    else
      var here := FirstWindow(f, t, i, WinMin(|f|));
      if here.Some? then here else FirstFuzzy(f, t, i + 1)
  }

  function Find(f: Tokens, t: Tokens, from: nat): Option<nat> {
    if f == [] then Some(from)
    else
      var exact := FirstExact(f, t, from);
      if exact.Some? || |f| < 4 then exact else FirstFuzzy(f, t, from)
  }

  lemma SliceEqual(f: Tokens, t: Tokens, i: nat)
    requires i + |f| <= |t| && forall k :: 0 <= k < |f| ==> t[i + k] == f[k]
    ensures ExactAt(f, t, i)
  {
  }

  method ContentOf(ts: Tokens) returns (c: Tokens)
    ensures c == Content(ts)
  {
    c := [];
    for i := 0 to |ts|
      invariant c == Content(ts[..i])
    {
      assert ts[..i + 1][..i] == ts[..i];
      if !IsFiller(ts[i]) {
        c := c + [ts[i]];
      }
    }
    assert ts[..|ts|] == ts;
  }

  method MatchesAt(f: Tokens, t: Tokens, i: nat) returns (same: bool)
    requires i + |f| <= |t|
    ensures same <==> t[i..i + |f|] == f
  {
    for k := 0 to |f|
      invariant forall j :: 0 <= j < k ==> t[i + j] == f[j]
    {
      if t[i + k] != f[k] {
        assert t[i..i + |f|][k] != f[k];
        return false;
      }
    }
    SliceEqual(f, t, i);
    return true;
  }

  /** findFragment */
  method FindFragment(f: Tokens, t: Tokens, from: nat) returns (end: Option<nat>)
    requires from <= |t|
    ensures end == Find(f, t, from)
  {
    var m := |f|;
    if m == 0 {
      return Some(from);
    }
    var i := from;
    while i + m <= |t|
      invariant i <= |t|
      invariant FirstExact(f, t, from) == FirstExact(f, t, i)
      decreases |t| - i
    {
      var same := MatchesAt(f, t, i);
      if same {
        return Some(i + m);
      }
      i := i + 1;
    }
    if m < 4 {
      return None;
    }
    end := FindFuzzy(f, t, from);
  }

  /** The fuzzy test of one window. */
  method Passes(f: Tokens, content: Tokens, window: Tokens) returns (passes: bool)
    requires content == Content(f)
    ensures passes <==> Resembles(f, window)
  {
    var score := LcsLength(f, window);
    var inWindow := ContentOf(window);
    var contentScore := LcsLength(content, inWindow);
    passes := 100 * score >= 85 * |f| || (content != [] && 10 * contentScore >= 9 * |content|);
  }

  /** The window sizes tried at one place. */
  method FindWindow(f: Tokens, content: Tokens, t: Tokens, i: nat) returns (end: Option<nat>)
    requires content == Content(f) && i <= |t|
    ensures end == FirstWindow(f, t, i, WinMin(|f|))
  {
    var w, winMax := WinMin(|f|), WinMax(|f|);
    while w <= winMax && i + w <= |t|
      invariant FirstWindow(f, t, i, WinMin(|f|)) == FirstWindow(f, t, i, w)
      decreases WinMax(|f|) + 1 - w
    {
      var passes := Passes(f, content, t[i..i + w]);
      if passes {
        return Some(i + w);
      }
      w := w + 1;
    }
    return None;
  }

  method FindFuzzy(f: Tokens, t: Tokens, from: nat) returns (end: Option<nat>)
    requires f != [] && from <= |t|
    ensures end == FirstFuzzy(f, t, from)
  {
    var content := ContentOf(f);
    var i := from;
    while i < |t|
      invariant from <= i <= |t|
      invariant FirstFuzzy(f, t, from) == FirstFuzzy(f, t, i)
    {
      end := FindWindow(f, content, t, i);
      if end.Some? {
        return;
      }
      i := i + 1;
    }
    return None;
  }

  /** All fragments are found one after another. */
  predicate FoundFrom(fragments: seq<Tokens>, t: Tokens, from: nat) {
    fragments == []
    || (Find(fragments[0], t, from).Some?
        && FoundFrom(fragments[1..], t, Find(fragments[0], t, from).value))
  }

  predicate Appears(fragments: seq<Tokens>, t: Tokens) { t != [] && fragments != [] && FoundFrom(fragments, t, 0) }

  /** quoteAppearsIn, on the tokens of the quote's non-empty fragments and of the turn. */
  method QuoteAppearsIn(fragments: seq<Tokens>, t: Tokens) returns (appears: bool)
    ensures appears <==> Appears(fragments, t)
  {
    if t == [] || fragments == [] {
      return false;
    }
    var pos: nat := 0;
    for k := 0 to |fragments|
      invariant pos <= |t|
      invariant FoundFrom(fragments, t, 0) <==> FoundFrom(fragments[k..], t, pos)
    {
      assert fragments[k..][1..] == fragments[k + 1..];
      var end := FindFragment(fragments[k], t, pos);
      FindEnds(fragments[k], t, pos);
      if end.None? {
        return false;
      }
      pos := end.value;
    }
    return true;
  }

  // ---- what is found ----

  lemma FindEnds(f: Tokens, t: Tokens, from: nat)
    requires from <= |t|
    ensures Find(f, t, from).Some? ==> from <= Find(f, t, from).value <= |t|
  {
    if f != [] {
      ExactSound(f, t, from);
      if FirstExact(f, t, from).None? && |f| >= 4 { FuzzySound(f, t, from); }
    }
  }

  /** The window w of the turn is the fragment, or a noisy rendering of it within the size limits. */
  ghost predicate Renders(f: Tokens, window: Tokens) {
    || window == f
    || (|f| >= 4 && WinMin(|f|) <= |window| <= WinMax(|f|) && Resembles(f, window))
  }

  lemma ExactSound(f: Tokens, t: Tokens, from: nat)
    ensures FirstExact(f, t, from).Some? ==>
              var e := FirstExact(f, t, from).value; from + |f| <= e && ExactAt(f, t, e - |f|)
    decreases |t| - from
  {
  }

  /** Every exact occurrence from `from` on ends at or after the one found. */
  lemma {:induction false} ExactFirst(f: Tokens, t: Tokens, from: nat, i: nat)
    requires from <= i && ExactAt(f, t, i)
    ensures FirstExact(f, t, from).Some? && FirstExact(f, t, from).value <= i + |f|
    decreases i - from
  {
    if from < i && t[from..from + |f|] != f { ExactFirst(f, t, from + 1, i); }
  }

  lemma WindowSound(f: Tokens, t: Tokens, i: nat, w: nat)
    requires i <= |t|
    ensures FirstWindow(f, t, i, w).Some? ==>
              var e := FirstWindow(f, t, i, w).value;
              i + w <= e <= |t| && e - i <= WinMax(|f|) && Resembles(f, t[i..e])
    decreases WinMax(|f|) + 1 - w
  {
  }

  lemma {:induction false} FuzzySound(f: Tokens, t: Tokens, from: nat)
    requires from <= |t|
    ensures FirstFuzzy(f, t, from).Some? ==>
              exists i :: from <= i < FirstFuzzy(f, t, from).value <= |t|
                          && WinMin(|f|) <= FirstFuzzy(f, t, from).value - i <= WinMax(|f|)
                          && Resembles(f, t[i..FirstFuzzy(f, t, from).value])
    decreases |t| - from
  {
    if from < |t| {
      WindowSound(f, t, from, WinMin(|f|));
      FuzzySound(f, t, from + 1);
    }
  }

  /** Ordered windows without overlap, one for each fragment. */
  ghost predicate RenderedFrom(fragments: seq<Tokens>, t: Tokens, from: nat) {
    fragments == []
    || exists i, e :: from <= i <= e <= |t| && Renders(fragments[0], t[i..e])
                      && RenderedFrom(fragments[1..], t, e)
  }

  lemma FindRenders(f: Tokens, t: Tokens, from: nat) returns (i: nat)
    requires from <= |t| && f != [] && Find(f, t, from).Some?
    ensures from <= i <= Find(f, t, from).value <= |t| && Renders(f, t[i..Find(f, t, from).value])
  {
    ExactSound(f, t, from);
    var e := Find(f, t, from).value;
    if FirstExact(f, t, from).Some? {
      i := e - |f|;
    } else {
      FuzzySound(f, t, from);
      i :| from <= i < e <= |t| && WinMin(|f|) <= e - i <= WinMax(|f|) && Resembles(f, t[i..e]);
    }
  }

  lemma {:induction false} FoundIsRendered(fragments: seq<Tokens>, t: Tokens, from: nat)
    requires from <= |t| && (forall k :: 0 <= k < |fragments| ==> fragments[k] != []) && FoundFrom(fragments, t, from)
    ensures RenderedFrom(fragments, t, from)
    decreases |fragments|
  {
    if fragments != [] {
      var i := FindRenders(fragments[0], t, from);
      var e := Find(fragments[0], t, from).value;
      FoundIsRendered(fragments[1..], t, e);
      assert from <= i <= e <= |t| && Renders(fragments[0], t[i..e]) && RenderedFrom(fragments[1..], t, e);
    }
  }

  /** Exact occurrences in order without overlap. */
  ghost predicate OccursFrom(fragments: seq<Tokens>, t: Tokens, from: nat) {
    fragments == []
    || exists i :: from <= i && ExactAt(fragments[0], t, i)
                   && OccursFrom(fragments[1..], t, i + |fragments[0]|)
  }

  /** The exchange step: starting earlier loses no occurrence. */
  lemma OccursEarlier(fragments: seq<Tokens>, t: Tokens, from: nat, earlier: nat)
    requires OccursFrom(fragments, t, from) && earlier <= from
    ensures OccursFrom(fragments, t, earlier)
  {
  }

  lemma {:induction false} OccursIsFound(fragments: seq<Tokens>, t: Tokens, from: nat)
    requires (forall k :: 0 <= k < |fragments| ==> fragments[k] != []) && OccursFrom(fragments, t, from)
    ensures FoundFrom(fragments, t, from)
    decreases |fragments|
  {
    if fragments != [] {
      var f := fragments[0];
      var i :| from <= i && ExactAt(f, t, i) && OccursFrom(fragments[1..], t, i + |f|);
      ExactFirst(f, t, from, i);
      var e := FirstExact(f, t, from).value;
      OccursEarlier(fragments[1..], t, i + |f|, e);
      OccursIsFound(fragments[1..], t, e);
    }
  }

  // ---- main results ----

  predicate NonEmpty(fragments: seq<Tokens>) { forall k :: 0 <= k < |fragments| ==> fragments[k] != [] }

  /** Greedy search is complete: fragments that occur in order, without overlap, are found. */
  lemma Complete(fragments: seq<Tokens>, t: Tokens)
    requires NonEmpty(fragments) && fragments != [] && OccursFrom(fragments, t, 0)
    ensures Appears(fragments, t)
  {
    OccursIsFound(fragments, t, 0);
  }

  /** It is sound: what appears has ordered windows, each its fragment or a near rendering of it. */
  lemma Sound(fragments: seq<Tokens>, t: Tokens)
    requires NonEmpty(fragments) && Appears(fragments, t)
    ensures RenderedFrom(fragments, t, 0)
  {
    FoundIsRendered(fragments, t, 0);
  }

  /** With fragments of fewer than four tokens the answer is exact: they appear if and only if they occur. */
  lemma ShortFragmentsExactly(fragments: seq<Tokens>, t: Tokens)
    requires NonEmpty(fragments) && fragments != [] && t != []
             && forall k :: 0 <= k < |fragments| ==> |fragments[k]| < 4
    ensures Appears(fragments, t) <==> OccursFrom(fragments, t, 0)
  {
    if Appears(fragments, t) { ShortFound(fragments, t, 0); }
    if OccursFrom(fragments, t, 0) { Complete(fragments, t); }
  }

  lemma {:induction false} ShortFound(fragments: seq<Tokens>, t: Tokens, from: nat)
    requires (forall k :: 0 <= k < |fragments| ==> 0 < |fragments[k]| < 4) && FoundFrom(fragments, t, from)
    ensures OccursFrom(fragments, t, from)
    decreases |fragments|
  {
    if fragments != [] {
      ExactSound(fragments[0], t, from);
      var e := FirstExact(fragments[0], t, from).value;
      ShortFound(fragments[1..], t, e);
      assert from <= e - |fragments[0]| && ExactAt(fragments[0], t, e - |fragments[0]|);
    }
  }

  lemma {:induction false} WindowComplete(f: Tokens, t: Tokens, i: nat, w: nat, size: nat)
    requires w <= size <= WinMax(|f|) && i + size <= |t| && Resembles(f, t[i..i + size])
    ensures FirstWindow(f, t, i, w).Some?
    decreases size - w
  {
    if w < size { WindowComplete(f, t, i, w + 1, size); }
  }

  lemma {:induction false} FuzzyComplete(f: Tokens, t: Tokens, from: nat, i: nat, size: nat)
    requires from <= i < |t| && WinMin(|f|) <= size <= WinMax(|f|) && i + size <= |t| && Resembles(f, t[i..i + size])
    ensures FirstFuzzy(f, t, from).Some?
    decreases i - from
  {
    if from == i {
      WindowComplete(f, t, i, WinMin(|f|), size);
    } else {
      FuzzyComplete(f, t, from + 1, i, size);
    }
  }

  /** One fragment is found if and only if some window from `from` on renders it. */
  lemma FindExactly(f: Tokens, t: Tokens, from: nat)
    requires f != [] && from <= |t|
    ensures Find(f, t, from).Some? <==> exists i, e :: from <= i <= e <= |t| && Renders(f, t[i..e])
  {
    if Find(f, t, from).Some? {
      var i := FindRenders(f, t, from);
    }
    if i, e :| from <= i <= e <= |t| && Renders(f, t[i..e]) {
      if t[i..e] == f {
        ExactFirst(f, t, from, i);
      } else if FirstExact(f, t, from).None? {
        FuzzyComplete(f, t, from, i, e - i);
      }
    }
  }

  /** A fragment resembles a window exactly when enough of its tokens, or of its content tokens, can be
      kept in order in both. */
  lemma ResemblesExactly(f: Tokens, window: Tokens)
    ensures Resembles(f, window) <==>
            || (exists c :: IsSubsequence(c, f) && IsSubsequence(c, window) && 100 * |c| >= 85 * |f|)
            || (Content(f) != []
                && exists c :: IsSubsequence(c, Content(f)) && IsSubsequence(c, Content(window))
                               && 10 * |c| >= 9 * |Content(f)|)
  {
    LcsAchieved(f, window);
    LcsAchieved(Content(f), Content(window));
    if c :| IsSubsequence(c, f) && IsSubsequence(c, window) && 100 * |c| >= 85 * |f| {
      LcsBounds(f, window, c);
    }
    if c :| IsSubsequence(c, Content(f)) && IsSubsequence(c, Content(window)) && 10 * |c| >= 9 * |Content(f)| {
      LcsBounds(Content(f), Content(window), c);
    }
  }

  // ---- when rendered windows are enough ----

  /** Ordered windows without overlap, of which only the last may be noisy. */
  ghost predicate LastRenderedFrom(fragments: seq<Tokens>, t: Tokens, from: nat) {
    fragments == []
    || exists i, e :: from <= i <= e <= |t| && Renders(fragments[0], t[i..e])
                      && (|fragments| > 1 ==> t[i..e] == fragments[0]) && LastRenderedFrom(fragments[1..], t, e)
  }

  lemma LastRenderedEarlier(fragments: seq<Tokens>, t: Tokens, from: nat, earlier: nat)
    requires LastRenderedFrom(fragments, t, from) && earlier <= from
    ensures LastRenderedFrom(fragments, t, earlier)
  {
  }

  lemma {:induction false} LastRenderedIsFound(fragments: seq<Tokens>, t: Tokens, from: nat)
    requires NonEmpty(fragments) && from <= |t| && LastRenderedFrom(fragments, t, from)
    ensures FoundFrom(fragments, t, from)
    decreases |fragments|
  {
    if fragments != [] {
      var f, rest := fragments[0], fragments[1..];
      var i, e :| from <= i <= e <= |t| && Renders(f, t[i..e]) && (|fragments| > 1 ==> t[i..e] == f)
                  && LastRenderedFrom(rest, t, e);
      FindExactly(f, t, from);
      FindEnds(f, t, from);
      if |fragments| > 1 {
        ExactFirst(f, t, from, i);
        LastRenderedEarlier(rest, t, e, Find(f, t, from).value);
      }
      LastRenderedIsFound(rest, t, Find(f, t, from).value);
    }
  }

  /** Fragments that occur in order without overlap are found even if the last one is noisy. */
  lemma LastMayBeNoisy(fragments: seq<Tokens>, t: Tokens)
    requires NonEmpty(fragments) && fragments != [] && t != [] && LastRenderedFrom(fragments, t, 0)
    ensures Appears(fragments, t)
  {
    LastRenderedIsFound(fragments, t, 0);
  }

  lemma {:induction false} ShortAreExact(fragments: seq<Tokens>, t: Tokens, from: nat)
    requires (forall k :: 0 <= k < |fragments| - 1 ==> |fragments[k]| < 4) && RenderedFrom(fragments, t, from)
    ensures LastRenderedFrom(fragments, t, from)
    decreases |fragments|
  {
    if fragments != [] {
      var i, e :| from <= i <= e <= |t| && Renders(fragments[0], t[i..e]) && RenderedFrom(fragments[1..], t, e);
      ShortAreExact(fragments[1..], t, e);
    }
  }

  /** When all fragments but the last have fewer than four tokens, a quote appears exactly when it has ordered
      windows without overlap, each rendering its fragment. */
  lemma OnlyLastLongExactly(fragments: seq<Tokens>, t: Tokens)
    requires NonEmpty(fragments) && fragments != [] && t != []
             && forall k :: 0 <= k < |fragments| - 1 ==> |fragments[k]| < 4
    ensures Appears(fragments, t) <==> RenderedFrom(fragments, t, 0)
  {
    if Appears(fragments, t) { Sound(fragments, t); }
    if RenderedFrom(fragments, t, 0) {
      ShortAreExact(fragments, t, 0);
      LastMayBeNoisy(fragments, t);
    }
  }

  // Not so with a longer fragment before the last: its exact occurrence late in the turn is preferred to a noisy
  // one early in the turn.

  const SEVEN: Tokens := ["a", "b", "c", "d", "e", "f", "g"]

  const TURN: Tokens := ["a", "b", "c", "d", "e", "f", "x", "q"] + SEVEN

  const SPLIT: seq<Tokens> := [SEVEN, ["q"]]

  lemma {:induction false} OwnSubsequence(c: Tokens)
    ensures IsSubsequence(c, c)
  {
    if c != [] { OwnSubsequence(c[..|c| - 1]); }
  }

  lemma PrefixSubsequence(c: Tokens, x: Token)
    ensures IsSubsequence(c, c + [x])
  {
    OwnSubsequence(c);
    assert (c + [x])[..|c|] == c;
  }

  lemma EarlyWindow()
    ensures Renders(SEVEN, TURN[0..7])
  {
    var c := SEVEN[..6];
    PrefixSubsequence(c, "g");
    PrefixSubsequence(c, "x");
    assert c + ["g"] == SEVEN && c + ["x"] == TURN[0..7];
    LcsBounds(SEVEN, TURN[0..7], c);
  }

  lemma OccursOnlyLate(i: nat)
    requires ExactAt(SEVEN, TURN, i)
    ensures i == 8
  {
    assert TURN[i..i + 7][6] == TURN[i + 6] && SEVEN[6] == "g";
  }

  lemma LateExact()
    ensures FirstExact(SEVEN, TURN, 0) == Some(15)
  {
    assert TURN[8..15] == SEVEN;
    ExactFirst(SEVEN, TURN, 0, 8);
    ExactSound(SEVEN, TURN, 0);
    OccursOnlyLate(FirstExact(SEVEN, TURN, 0).value - 7);
  }

  lemma LateOccurrence()
    ensures Find(SEVEN, TURN, 0) == Some(15)
  {
    LateExact();
  }

  /** A quote of two fragments with ordered windows for both, which is not found. */
  lemma NoisyThenExactRejected()
    ensures NonEmpty(SPLIT) && RenderedFrom(SPLIT, TURN, 0) && !Appears(SPLIT, TURN)
  {
    EarlyWindow();
    LateOccurrence();
    var rest := SPLIT[1..];
    assert rest == [["q"]] && rest[1..] == [];
    assert RenderedFrom([], TURN, 8);
    assert TURN[7..8] == ["q"] && Renders(rest[0], TURN[7..8]);
    assert RenderedFrom(rest, TURN, 7);
    assert FirstExact(["q"], TURN, 15) == None;
    assert !FoundFrom(rest, TURN, 15);
  }

  // ---- the limits, the fillers, and which window is found ----

  /** Windows have from 80% of the fragment's tokens, rounded down but at least one, to 125% rounded up and one. */
  lemma WindowLimits(m: nat)
    ensures WinMin(m) >= 1 && (WinMin(m) > 1 ==> 10 * WinMin(m) <= 8 * m) && 8 * m < 10 * (WinMin(m) + 1)
    ensures 4 * (WinMax(m) - 1) >= 5 * m && 4 * (WinMax(m) - 2) < 5 * m
  {
  }

  lemma ContentOfOne(t: Token)
    ensures Content([t]) == if t in ["um", "uh", "erm", "er", "ah", "hmm", "mm", "like", "you", "know"]
                            then [] else [t]
  {
    assert [t][..0] == [];
  }

  /** The content tokens are those that are no fillers, in order. */
  lemma {:induction false} ContentOfParts(a: Tokens, b: Tokens)
    ensures Content(a + b) == Content(a) + Content(b)
    decreases |b|
  {
    if b == [] {
      assert a + b == a;
    } else {
      var n := |b| - 1;
      assert (a + b)[..|a + b| - 1] == a + b[..n] && (a + b)[|a + b| - 1] == b[n];
      ContentOfParts(a, b[..n]);
    }
  }

  /** A window of size w at i passes: it is within the limits and resembles the fragment. */
  predicate Passing(f: Tokens, t: Tokens, i: nat, w: nat) {
    WinMin(|f|) <= w <= WinMax(|f|) && i + w <= |t| && Resembles(f, t[i..i + w])
  }

  /** The window found at i passes. */
  lemma {:induction false} FoundPasses(f: Tokens, t: Tokens, i: nat, w: nat)
    requires i <= |t| && WinMin(|f|) <= w && FirstWindow(f, t, i, w).Some?
    ensures var e := FirstWindow(f, t, i, w).value; i + w <= e && Passing(f, t, i, e - i)
    decreases WinMax(|f|) + 1 - w
  {
    if !Resembles(f, t[i..i + w]) { FoundPasses(f, t, i, w + 1); }
  }

  /** One that passes is found, or a smaller one. */
  lemma {:induction false} PassingIsFound(f: Tokens, t: Tokens, i: nat, w: nat, v: nat)
    requires i <= |t| && WinMin(|f|) <= w <= v && Passing(f, t, i, v)
    ensures FirstWindow(f, t, i, w).Some? && FirstWindow(f, t, i, w).value <= i + v
    decreases v - w
  {
    if w < v && !Resembles(f, t[i..i + w]) { PassingIsFound(f, t, i, w + 1, v); }
  }

  /** (i, w) is the first window from `from` on that passes, and there the smallest. */
  ghost predicate IsFirstPassing(f: Tokens, t: Tokens, from: nat, i: nat, w: nat) {
    from <= i && Passing(f, t, i, w)
    && forall k, v :: from <= k && Passing(f, t, k, v) ==> i < k || (i == k && w <= v)
  }

  lemma FirstHere(f: Tokens, t: Tokens, from: nat) returns (w: nat)
    requires from < |t| && FirstWindow(f, t, from, WinMin(|f|)).Some?
    ensures FirstFuzzy(f, t, from) == Some(from + w) && IsFirstPassing(f, t, from, from, w)
  {
    FoundPasses(f, t, from, WinMin(|f|));
    w := FirstWindow(f, t, from, WinMin(|f|)).value - from;
    forall k, v | from <= k && Passing(f, t, k, v) ensures from < k || w <= v {
      if k == from { PassingIsFound(f, t, from, WinMin(|f|), v); }
    }
  }

  lemma NoneHere(f: Tokens, t: Tokens, from: nat, i: nat, w: nat)
    requires from < |t| && FirstWindow(f, t, from, WinMin(|f|)).None? && IsFirstPassing(f, t, from + 1, i, w)
    requires FirstFuzzy(f, t, from + 1) == Some(i + w)
    ensures FirstFuzzy(f, t, from) == Some(i + w) && IsFirstPassing(f, t, from, i, w)
  {
    forall k, v | from <= k && Passing(f, t, k, v) ensures i < k || (i == k && w <= v) {
      if k == from { PassingIsFound(f, t, from, WinMin(|f|), v); }
    }
  }

  lemma OnwardFuzzy(f: Tokens, t: Tokens, from: nat)
    requires from < |t| && FirstWindow(f, t, from, WinMin(|f|)).None?
    ensures FirstFuzzy(f, t, from) == FirstFuzzy(f, t, from + 1)
    ensures from + 1 >= |t| ==> FirstFuzzy(f, t, from) == None
  {
  }

  /** The fuzzy search finds, of all windows from `from` on that pass, the first one and there the smallest. */
  lemma {:induction false} FuzzyIsFirst(f: Tokens, t: Tokens, from: nat, e: nat) returns (i: nat, w: nat)
    requires from < |t| && FirstFuzzy(f, t, from) == Some(e)
    ensures IsFirstPassing(f, t, from, i, w) && e == i + w
    decreases |t| - from
  {
    if FirstWindow(f, t, from, WinMin(|f|)).Some? {
      i := from;
      w := FirstHere(f, t, from);
    } else {
      OnwardFuzzy(f, t, from);
      i, w := FuzzyIsFirst(f, t, from + 1, e);
      NoneHere(f, t, from, i, w);
    }
  }

  /** Which place a fragment is found at: the end of its first exact occurrence from `from` on if there is one;
      otherwise, with at least four tokens, that of the first window that passes, and there the smallest. */
  lemma FindIsFirst(f: Tokens, t: Tokens, from: nat)
    requires f != [] && from <= |t| && Find(f, t, from).Some?
    ensures (exists i :: from <= i && ExactAt(f, t, i)) ==>
              exists i :: from <= i && ExactAt(f, t, i) && Find(f, t, from) == Some(i + |f|)
                          && forall k :: from <= k && ExactAt(f, t, k) ==> i <= k
    ensures !(exists i :: from <= i && ExactAt(f, t, i)) ==>
              |f| >= 4 && exists i, w :: IsFirstPassing(f, t, from, i, w) && Find(f, t, from) == Some(i + w)
  {
    ExactSound(f, t, from);
    if i :| from <= i && ExactAt(f, t, i) {
      ExactFirst(f, t, from, i);
      var first := FirstExact(f, t, from).value - |f|;
      forall k | from <= k && ExactAt(f, t, k) ensures first <= k { ExactFirst(f, t, from, k); }
      assert ExactAt(f, t, first);
    } else {
      assert from < |t|;
      var i, w := FuzzyIsFirst(f, t, from, Find(f, t, from).value);
    }
  }
}
