/** Printing JSON with sorted keys, so that equal text means equal content. */
module StableJson {

  /** A value with the keys of each object in insertion order. A number carries its shortest text. An array can
      carry named properties besides its items, which no printer shows. */
  datatype Json =
    | Null
    | Bool(b: bool)
    | Num(token: string)
    | Str(s: string)
    | Arr(items: seq<Json>, named: seq<Field>)
    | Obj(fields: seq<Field>)

  datatype Field = Field(key: string, value: Json)

  predicate NumberChar(c: char) { '0' <= c <= '9' || c in "+-.e" }

  predicate NumOk(t: string) {
    t != [] && ('0' <= t[0] <= '9' || t[0] == '-') && forall j :: 0 <= j < |t| ==> NumberChar(t[j])
  }

  function Keys(fields: seq<Field>): (ks: seq<string>)
    ensures |ks| == |fields|
  {
    seq(|fields|, i requires 0 <= i < |fields| => fields[i].key)
  }

  predicate Distinct(ks: seq<string>) { forall i, j :: 0 <= i < j < |ks| ==> ks[i] != ks[j] }

  /** A value that JSON can express: distinct keys, and no named properties on arrays. */
  predicate Ok(a: Json) {
    match a
    case Num(t) => NumOk(t)
    case Arr(items, named) => named == [] && forall i :: 0 <= i < |items| ==> Ok(items[i])
    case Obj(fields) => Distinct(Keys(fields)) && forall i :: 0 <= i < |fields| ==> Ok(fields[i].value)
    case _ => true
  }

  function Get(a: Json, k: string): (v: Json)
    requires a.Obj? && k in Keys(a.fields)
    ensures v < a
    ensures Ok(a) ==> Ok(v)
  {
    a.fields[IndexOf(a.fields, k)].value
  }

  function IndexOf(fields: seq<Field>, k: string): (i: nat)
    requires k in Keys(fields)
    ensures i < |fields| && fields[i].key == k
  {
    assert Keys(fields)[1..] == Keys(fields[1..]);
    if fields[0].key == k then 0 else 1 + IndexOf(fields[1..], k)
  }

  // ---- the meaning: objects are maps ----

  datatype Value =
    | VNull
    | VBool(b: bool)
    | VNum(token: string)
    | VStr(s: string)
    | VArr(items: seq<Value>)
    | VObj(fields: map<string, Value>)

  function Meaning(a: Json): Value {
    match a
    case Null => VNull
    case Bool(b) => VBool(b)
    case Num(t) => VNum(t)
    case Str(s) => VStr(s)
    case Arr(items, _) => VArr(seq(|items|, i requires 0 <= i < |items| => Meaning(items[i])))
    case Obj(fields) => VObj(map k | k in Keys(fields) :: Meaning(Get(a, k)))
  }

  // ---- strings ----

  function Hex(d: nat): char
    requires d < 16
  {
    "0123456789abcdef"[d]
  }

  function EscapedChar(c: char): string {
    if c == '"' then "\\\""
    else if c == '\\' then "\\\\"
    else if c == '\U{8}' then "\\b"
    else if c == '\U{C}' then "\\f"
    else if c == '\n' then "\\n"
    else if c == '\r' then "\\r"
    else if c == '\t' then "\\t"
    else if c < ' ' then "\\u00" + [Hex(c as nat / 16), Hex(c as nat % 16)]
    else [c]
  }

  function Escaped(s: string): string {
    if s == "" then "" else EscapedChar(s[0]) + Escaped(s[1..])
  }

  function Quoted(s: string): string { "\"" + Escaped(s) + "\"" }

  // ---- sorting ----

  predicate Less(a: string, b: string) {
    b != "" && (a == "" || a[0] < b[0] || (a[0] == b[0] && Less(a[1..], b[1..])))
  }

  function Insert(k: string, ks: seq<string>): seq<string> {
    if ks == [] || Less(k, ks[0]) then [k] + ks else [ks[0]] + Insert(k, ks[1..])
  }

  function Sorted(ks: seq<string>): seq<string> {
    if ks == [] then [] else Insert(ks[0], Sorted(ks[1..]))
  }

  // ---- the printer ----

  /** stableStringify */
  function StableStringify(a: Json): string
    decreases a, 1, 0
  {
    match a
    case Null => "null"
    case Bool(b) => if b then "true" else "false"
    case Num(t) => t
    case Str(s) => Quoted(s)
    case Arr(_, _) => "[" + ItemsText(a, 0)
    case Obj(fields) =>
      SortedKeys(Keys(fields));
      "{" + MembersText(a, Sorted(Keys(fields)), 0)
  }

  function Comma(i: nat): string { if i > 0 then "," else "" }

  /** The items of an array from the i-th on, with the closing bracket. */
  function ItemsText(a: Json, i: nat): string
    requires a.Arr? && i <= |a.items|
    decreases a, 0, |a.items| - i
  {
    if i == |a.items| then "]"
    else Comma(i) + StableStringify(a.items[i]) + ItemsText(a, i + 1)
  }

  /** The members of an object in the order of ks from the i-th on, with the closing brace. */
  function MembersText(a: Json, ks: seq<string>, i: nat): string
    requires a.Obj? && i <= |ks| && forall k :: k in ks ==> k in Keys(a.fields)
    decreases a, 0, |ks| - i
  {
    if i == |ks| then "}"
    else Comma(i) + Quoted(ks[i]) + ":" + StableStringify(Get(a, ks[i])) + MembersText(a, ks, i + 1)
  }

  // ---- the order on keys ----

  lemma LessIrreflexive(a: string)
    ensures !Less(a, a)
  {
  }

  lemma LessTransitive(a: string, b: string, c: string)
    requires Less(a, b) && Less(b, c)
    ensures Less(a, c)
  {
  }

  lemma LessTotal(a: string, b: string)
    ensures a == b || Less(a, b) || Less(b, a)
  {
  }

  predicate Ascending(ks: seq<string>) { forall i, j :: 0 <= i < j < |ks| ==> Less(ks[i], ks[j]) }

  lemma InsertKeys(k: string, ks: seq<string>)
    ensures forall x :: x in Insert(k, ks) <==> x == k || x in ks
  {
  }

  lemma SortedKeys(ks: seq<string>)
    ensures forall k :: k in Sorted(ks) <==> k in ks
  {
    if ks != [] {
      SortedKeys(ks[1..]);
      InsertKeys(ks[0], Sorted(ks[1..]));
    }
  }

  lemma {:induction false} InsertAscends(k: string, ks: seq<string>)
    requires Ascending(ks) && k !in ks
    ensures Ascending(Insert(k, ks))
  {
    if ks != [] {
      LessTotal(k, ks[0]);
      if Less(k, ks[0]) {
        forall j | 0 <= j < |ks| ensures Less(k, ks[j]) {
          if j > 0 { LessTransitive(k, ks[0], ks[j]); }
        }
      } else {
        InsertAscends(k, ks[1..]);
        InsertKeys(k, ks[1..]);
        var rest := Insert(k, ks[1..]);
        forall j | 0 <= j < |rest| ensures Less(ks[0], rest[j]) {
          assert rest[j] in rest;
          if rest[j] != k {
            var i :| 0 <= i < |ks[1..]| && ks[1..][i] == rest[j];
            assert ks[i + 1] == rest[j];
          }
        }
      }
    }
  }

  lemma {:induction false} SortedAscends(ks: seq<string>)
    requires Distinct(ks)
    ensures Ascending(Sorted(ks))
  {
    if ks != [] {
      assert Distinct(ks[1..]) by { assert forall j :: 0 <= j < |ks[1..]| ==> ks[1..][j] == ks[j + 1]; }
      SortedAscends(ks[1..]);
      SortedKeys(ks[1..]);
      assert ks[0] !in ks[1..];
      InsertAscends(ks[0], Sorted(ks[1..]));
    }
  }

  /** Ascending sequences of the same keys are the same sequence. */
  lemma {:induction false} AscendingUnique(s: seq<string>, t: seq<string>)
    requires Ascending(s) && Ascending(t) && forall k :: k in s <==> k in t
    ensures s == t
  {
    if t != [] { assert t[0] in s; }
    if s != [] {
      assert s[0] in t;
      SameFirst(s, t);
      TailKeys(s);
      TailKeys(t);
      AscendingUnique(s[1..], t[1..]);
      assert s == [s[0]] + s[1..] && t == [t[0]] + t[1..];
    }
  }

  lemma SameFirst(s: seq<string>, t: seq<string>)
    requires Ascending(s) && Ascending(t) && s != [] && t != [] && s[0] in t && t[0] in s
    ensures s[0] == t[0]
  {
    if s[0] != t[0] {
      var i :| 0 <= i < |s| && s[i] == t[0];
      var j :| 0 <= j < |t| && t[j] == s[0];
      LessTransitive(s[0], t[0], s[0]);
      LessIrreflexive(s[0]);
    }
  }

  lemma TailKeys(s: seq<string>)
    requires Ascending(s) && s != []
    ensures Ascending(s[1..]) && forall k :: k in s[1..] <==> k in s && k != s[0]
  {
    LessIrreflexive(s[0]);
  }

  // ---- reading a printed string ----

  function HexValue(c: char): int { if c <= '9' then c as int - '0' as int else c as int - 'a' as int + 10 }

  /** The character an escaped text begins with, and the length of its escape. */
  function FirstChar(t: string): (int, nat) {
    if t == "" then (-1, 0)
    else if t[0] != '\\' then (t[0] as int, 1)
    else if |t| < 2 then (-1, 0)
    else if t[1] == 'b' then (8, 2)
    else if t[1] == 'f' then (12, 2)
    else if t[1] == 'n' then (10, 2)
    else if t[1] == 'r' then (13, 2)
    else if t[1] == 't' then (9, 2)
    else if t[1] == 'u' && |t| >= 6 then (16 * HexValue(t[4]) + HexValue(t[5]), 6)
    else (t[1] as int, 2)
  }

  lemma HexValueOf(d: nat)
    requires d < 16
    ensures HexValue(Hex(d)) == d
  {
  }

  lemma FirstCharOf(c: char, rest: string)
    ensures FirstChar(EscapedChar(c) + rest) == (c as int, |EscapedChar(c)|)
  {
    if c < ' ' {
      HexValueOf(c as nat / 16);
      HexValueOf(c as nat % 16);
    }
  }

  lemma EscapedCharInjective(c: char, d: char, r1: string, r2: string)
    requires EscapedChar(c) + r1 == EscapedChar(d) + r2
    ensures c == d && r1 == r2
  {
    FirstCharOf(c, r1);
    FirstCharOf(d, r2);
    assert (EscapedChar(c) + r1)[|EscapedChar(c)|..] == r1;
    assert (EscapedChar(d) + r2)[|EscapedChar(c)|..] == r2;
  }

  lemma NotClosing(s: string, r: string)
    requires s != ""
    ensures (Escaped(s) + "\"" + r)[0] != '"'
  {
  }

  lemma EscapedSplit(s: string, r: string)
    requires s != ""
    ensures Escaped(s) + "\"" + r == EscapedChar(s[0]) + (Escaped(s[1..]) + "\"" + r)
  {
  }

  lemma ClosedHere(r1: string, s2: string, r2: string)
    requires "\"" + r1 == Escaped(s2) + "\"" + r2
    ensures s2 == "" && r1 == r2
  {
    if s2 != "" { NotClosing(s2, r2); }
    assert ("\"" + r1)[0] == '"' && ("\"" + r1)[1..] == r1;
    assert s2 == "" ==> (Escaped(s2) + "\"" + r2)[1..] == r2;
  }

  lemma {:induction false} EscapedInjective(s1: string, s2: string, r1: string, r2: string)
    requires Escaped(s1) + "\"" + r1 == Escaped(s2) + "\"" + r2
    ensures s1 == s2 && r1 == r2
    decreases |s1|
  {
    if s1 == "" {
      assert Escaped(s1) + "\"" + r1 == "\"" + r1;
      ClosedHere(r1, s2, r2);
    } else if s2 == "" {
      assert Escaped(s2) + "\"" + r2 == "\"" + r2;
      ClosedHere(r2, s1, r1);
    } else {
      var t1, t2 := Escaped(s1[1..]) + "\"" + r1, Escaped(s2[1..]) + "\"" + r2;
      EscapedSplit(s1, r1);
      EscapedSplit(s2, r2);
      EscapedCharInjective(s1[0], s2[0], t1, t2);
      EscapedInjective(s1[1..], s2[1..], r1, r2);
      assert s1 == [s1[0]] + s1[1..] && s2 == [s2[0]] + s2[1..];
    }
  }

  lemma QuotedInjective(s1: string, s2: string, r1: string, r2: string)
    requires Quoted(s1) + r1 == Quoted(s2) + r2
    ensures s1 == s2 && r1 == r2
  {
    assert (Quoted(s1) + r1)[1..] == Escaped(s1) + "\"" + r1;
    assert (Quoted(s2) + r2)[1..] == Escaped(s2) + "\"" + r2;
    EscapedInjective(s1, s2, r1, r2);
  }

  // ---- reading a printed value ----

  predicate Delimited(r: string) { r == "" || r[0] in ",]}" }

  /** What the first character of a printed value tells. */
  function Kind(c: char): nat {
    if c == 'n' then 0
    else if c == 't' then 1
    else if c == 'f' then 2
    else if c == '"' then 4
    else if c == '[' then 5
    else if c == '{' then 6
    else if c in ",]}" then 7
    else 3
  }

  function KindOf(a: Json): nat {
    match a
    case Null => 0
    case Bool(b) => if b then 1 else 2
    case Num(_) => 3
    case Str(_) => 4
    case Arr(_, _) => 5
    case Obj(_) => 6
  }

  lemma FirstTells(a: Json, r: string)
    requires Ok(a)
    ensures StableStringify(a) != "" && Kind((StableStringify(a) + r)[0]) == KindOf(a)
  {
  }

  lemma NumInjective(t1: string, t2: string, r1: string, r2: string)
    requires NumOk(t1) && NumOk(t2) && Delimited(r1) && Delimited(r2) && t1 + r1 == t2 + r2
    ensures t1 == t2 && r1 == r2
  {
    if |t1| < |t2| {
      NotLonger(t1, t2, r1, r2);
    } else if |t2| < |t1| {
      NotLonger(t2, t1, r2, r1);
    } else {
      assert (t1 + r1)[..|t1|] == t1 && (t2 + r2)[..|t1|] == t2;
      assert (t1 + r1)[|t1|..] == r1 && (t2 + r2)[|t1|..] == r2;
    }
  }

  lemma NotLonger(t1: string, t2: string, r1: string, r2: string)
    requires NumOk(t2) && Delimited(r1) && |t1| < |t2|
    ensures t1 + r1 != t2 + r2
  {
    if r1 != "" {
      assert !NumberChar(r1[0]) && NumberChar(t2[|t1|]);
      assert (t1 + r1)[|t1|] == r1[0] && (t2 + r2)[|t1|] == t2[|t1|];
    }
  }

  lemma Strip(x: string, r1: string, r2: string)
    requires x + r1 == x + r2
    ensures r1 == r2
  {
    assert (x + r1)[|x|..] == r1 && (x + r2)[|x|..] == r2;
  }

  lemma Regroup3(a: string, b: string, c: string)
    ensures a + b + c == a + (b + c)
  {
  }

  lemma Regroup4(a: string, b: string, c: string, d: string)
    ensures a + b + c + d == a + (b + (c + d))
  {
  }

  lemma ItemsStart(a: Json, i: nat, r: string)
    requires a.Arr? && Ok(a) && i <= |a.items|
    ensures ItemsText(a, i) != ""
    ensures (ItemsText(a, i) + r)[0] == ']' <==> i == |a.items|
    ensures i > 0 ==> Delimited(ItemsText(a, i) + r)
    ensures i < |a.items| ==>
              ItemsText(a, i) + r == Comma(i) + (StableStringify(a.items[i]) + (ItemsText(a, i + 1) + r))
  {
    if i < |a.items| {
      FirstTells(a.items[i], "");
      Regroup4(Comma(i), StableStringify(a.items[i]), ItemsText(a, i + 1), r);
    }
  }

  lemma MembersStart(a: Json, ks: seq<string>, i: nat, r: string)
    requires a.Obj? && i <= |ks| && forall k :: k in ks ==> k in Keys(a.fields)
    ensures MembersText(a, ks, i) != ""
    ensures (MembersText(a, ks, i) + r)[0] == '}' <==> i == |ks|
    ensures i > 0 ==> Delimited(MembersText(a, ks, i) + r)
    ensures i < |ks| ==> MembersText(a, ks, i) + r
                         == Comma(i) + (Quoted(ks[i]) + (":" + (StableStringify(Get(a, ks[i]))
                                                   + (MembersText(a, ks, i + 1) + r))))
  {
    if i < |ks| {
      Regroup4(Comma(i), Quoted(ks[i]), ":", StableStringify(Get(a, ks[i])) + (MembersText(a, ks, i + 1) + r));
      Regroup4(Comma(i) + Quoted(ks[i]) + ":", StableStringify(Get(a, ks[i])), MembersText(a, ks, i + 1), r);
    }
  }

  lemma {:induction false} Injective(a: Json, b: Json, r1: string, r2: string)
    requires Ok(a) && Ok(b) && Delimited(r1) && Delimited(r2)
    requires StableStringify(a) + r1 == StableStringify(b) + r2
    ensures Meaning(a) == Meaning(b) && r1 == r2
    decreases a, 1, 0
  {
    FirstTells(a, r1);
    FirstTells(b, r2);
    match a
    case Null => Strip("null", r1, r2);
    case Bool(x) => Strip(StableStringify(a), r1, r2);
    case Num(t) => NumInjective(t, b.token, r1, r2);
    case Str(s) => QuotedInjective(s, b.s, r1, r2);
    case Arr(_, _) =>
      Regroup3("[", ItemsText(a, 0), r1);
      Regroup3("[", ItemsText(b, 0), r2);
      Strip("[", ItemsText(a, 0) + r1, ItemsText(b, 0) + r2);
      ItemsInjective(a, b, 0, r1, r2);
    case Obj(_) => ObjectInjective(a, b, r1, r2);
  }

  lemma {:induction false} ItemsInjective(a: Json, b: Json, i: nat, r1: string, r2: string)
    requires a.Arr? && b.Arr? && Ok(a) && Ok(b) && i <= |a.items| && i <= |b.items| && Delimited(r1) && Delimited(r2)
    requires ItemsText(a, i) + r1 == ItemsText(b, i) + r2
    ensures |a.items| == |b.items| && r1 == r2
    ensures forall j :: i <= j < |a.items| ==> Meaning(a.items[j]) == Meaning(b.items[j])
    decreases a, 0, |a.items| - i
  {
    ItemsHeads(a, b, i, r1, r2);
    if i < |a.items| {
      Injective(a.items[i], b.items[i], ItemsText(a, i + 1) + r1, ItemsText(b, i + 1) + r2);
      ItemsInjective(a, b, i + 1, r1, r2);
    }
  }

  lemma ItemsHeads(a: Json, b: Json, i: nat, r1: string, r2: string)
    requires a.Arr? && b.Arr? && Ok(a) && Ok(b) && i <= |a.items| && i <= |b.items| && Delimited(r1) && Delimited(r2)
    requires ItemsText(a, i) + r1 == ItemsText(b, i) + r2
    ensures i == |a.items| <==> i == |b.items|
    ensures i == |a.items| ==> r1 == r2
    ensures i < |a.items| ==>
              var t1, t2 := ItemsText(a, i + 1) + r1, ItemsText(b, i + 1) + r2;
              Delimited(t1) && Delimited(t2) && StableStringify(a.items[i]) + t1 == StableStringify(b.items[i]) + t2
  {
    ItemsStart(a, i, r1);
    ItemsStart(b, i, r2);
    if i == |a.items| {
      Strip("]", r1, r2);
    } else {
      ItemsStart(a, i + 1, r1);
      ItemsStart(b, i + 1, r2);
      Strip(Comma(i), StableStringify(a.items[i]) + (ItemsText(a, i + 1) + r1),
            StableStringify(b.items[i]) + (ItemsText(b, i + 1) + r2));
    }
  }

  lemma {:induction false} ObjectInjective(a: Json, b: Json, r1: string, r2: string)
    requires a.Obj? && b.Obj? && Ok(a) && Ok(b) && Delimited(r1) && Delimited(r2)
    requires StableStringify(a) + r1 == StableStringify(b) + r2
    ensures Meaning(a) == Meaning(b) && r1 == r2
    decreases a, 0, |a.fields| + 1
  {
    var ks1, ks2 := Sorted(Keys(a.fields)), Sorted(Keys(b.fields));
    SortedKeys(Keys(a.fields));
    SortedKeys(Keys(b.fields));
    SortedLength(Keys(a.fields));
    Regroup3("{", MembersText(a, ks1, 0), r1);
    Regroup3("{", MembersText(b, ks2, 0), r2);
    Strip("{", MembersText(a, ks1, 0) + r1, MembersText(b, ks2, 0) + r2);
    MembersInjective(a, ks1, b, ks2, 0, r1, r2);
    forall j | 0 <= j < |ks1| ensures ks1[j] == ks2[j] && Meaning(Get(a, ks1[j])) == Meaning(Get(b, ks2[j])) {
      AgreeAt(a, ks1, b, ks2, 0, j);
    }
    assert ks1 == ks2;
    SameMembers(a, ks1, b);
  }

  lemma SortedLength(ks: seq<string>)
    ensures |Sorted(ks)| == |ks|
  {
    if ks != [] {
      SortedLength(ks[1..]);
      InsertLength(ks[0], Sorted(ks[1..]));
    }
  }

  lemma InsertLength(k: string, ks: seq<string>)
    ensures |Insert(k, ks)| == |ks| + 1
  {
  }

  /** Objects whose keys and values agree mean the same. */
  lemma SameMembers(a: Json, ks: seq<string>, b: Json)
    requires a.Obj? && b.Obj?
    requires forall k :: k in ks <==> k in Keys(a.fields)
    requires forall k :: k in ks <==> k in Keys(b.fields)
    requires forall j :: 0 <= j < |ks| ==> Meaning(Get(a, ks[j])) == Meaning(Get(b, ks[j]))
    ensures Meaning(a) == Meaning(b)
  {
  }

  predicate KeysIn(ks: seq<string>, a: Json)
    requires a.Obj?
  {
    forall k :: k in ks ==> k in Keys(a.fields)
  }

  /** From the i-th on the keys are the same and their values mean the same. */
  predicate Agree(a: Json, ks1: seq<string>, b: Json, ks2: seq<string>, i: nat)
    requires a.Obj? && b.Obj? && KeysIn(ks1, a) && KeysIn(ks2, b) && |ks1| == |ks2|
    decreases |ks1| - i
  {
    i < |ks1| ==> ks1[i] == ks2[i] && Meaning(Get(a, ks1[i])) == Meaning(Get(b, ks2[i])) && Agree(a, ks1, b, ks2, i + 1)
  }

  lemma AgreeAt(a: Json, ks1: seq<string>, b: Json, ks2: seq<string>, i: nat, j: nat)
    requires a.Obj? && b.Obj? && KeysIn(ks1, a) && KeysIn(ks2, b) && |ks1| == |ks2|
    requires i <= j < |ks1| && Agree(a, ks1, b, ks2, i)
    ensures ks1[j] == ks2[j] && Meaning(Get(a, ks1[j])) == Meaning(Get(b, ks2[j]))
    decreases j - i
  {
    if i < j { AgreeAt(a, ks1, b, ks2, i + 1, j); }
  }

  lemma {:induction false} MembersInjective(a: Json, ks1: seq<string>, b: Json, ks2: seq<string>,
                                          i: nat, r1: string, r2: string)
    requires a.Obj? && b.Obj? && Ok(a) && Ok(b) && i <= |ks1| && i <= |ks2| && Delimited(r1) && Delimited(r2)
    requires |ks1| <= |a.fields|
    requires KeysIn(ks1, a) && KeysIn(ks2, b)
    requires MembersText(a, ks1, i) + r1 == MembersText(b, ks2, i) + r2
    ensures |ks1| == |ks2| && r1 == r2 && Agree(a, ks1, b, ks2, i)
    decreases a, 0, |ks1| - i
  {
    MembersHeads(a, ks1, b, ks2, i, r1, r2);
    if i < |ks1| {
      Injective(Get(a, ks1[i]), Get(b, ks2[i]), MembersText(a, ks1, i + 1) + r1, MembersText(b, ks2, i + 1) + r2);
      MembersInjective(a, ks1, b, ks2, i + 1, r1, r2);
    }
  }

  lemma MembersHeads(a: Json, ks1: seq<string>, b: Json, ks2: seq<string>, i: nat, r1: string, r2: string)
    requires a.Obj? && b.Obj? && i <= |ks1| && i <= |ks2|
    requires (forall k :: k in ks1 ==> k in Keys(a.fields)) && (forall k :: k in ks2 ==> k in Keys(b.fields))
    requires MembersText(a, ks1, i) + r1 == MembersText(b, ks2, i) + r2
    ensures i == |ks1| <==> i == |ks2|
    ensures i == |ks1| ==> r1 == r2
    ensures i < |ks1| ==>
              var t1, t2 := MembersText(a, ks1, i + 1) + r1, MembersText(b, ks2, i + 1) + r2;
              && ks1[i] == ks2[i] && Delimited(t1) && Delimited(t2)
              && StableStringify(Get(a, ks1[i])) + t1 == StableStringify(Get(b, ks2[i])) + t2
  {
    MembersStart(a, ks1, i, r1);
    MembersStart(b, ks2, i, r2);
    if i == |ks1| {
      Strip("}", r1, r2);
    } else {
      MembersStart(a, ks1, i + 1, r1);
      MembersStart(b, ks2, i + 1, r2);
      MemberInjective(i, ks1[i], ks2[i], StableStringify(Get(a, ks1[i])) + (MembersText(a, ks1, i + 1) + r1),
                      StableStringify(Get(b, ks2[i])) + (MembersText(b, ks2, i + 1) + r2));
    }
  }

  lemma MemberInjective(i: nat, k1: string, k2: string, t1: string, t2: string)
    requires Comma(i) + (Quoted(k1) + (":" + t1)) == Comma(i) + (Quoted(k2) + (":" + t2))
    ensures k1 == k2 && t1 == t2
  {
    Strip(Comma(i), Quoted(k1) + (":" + t1), Quoted(k2) + (":" + t2));
    QuotedInjective(k1, k2, ":" + t1, ":" + t2);
    Strip(":", t1, t2);
  }

  // ---- equal meanings print alike ----

  lemma {:induction false} SameText(a: Json, b: Json)
    requires Ok(a) && Ok(b) && Meaning(a) == Meaning(b)
    ensures StableStringify(a) == StableStringify(b)
    decreases a, 1, 0
  {
    if a.Arr? {
      forall j | 0 <= j < |a.items| ensures Meaning(a.items[j]) == Meaning(b.items[j]) {
        assert Meaning(a).items[j] == Meaning(b).items[j];
      }
      SameItems(a, b, 0);
    } else if a.Obj? {
      var ks, ks' := Keys(a.fields), Keys(b.fields);
      assert Meaning(a).fields.Keys == Meaning(b).fields.Keys;
      SortedKeys(ks);
      SortedKeys(ks');
      SortedAscends(ks);
      SortedAscends(ks');
      forall k ensures k in ks <==> k in ks' { assert k in Meaning(a).fields <==> k in Meaning(b).fields; }
      AscendingUnique(Sorted(ks), Sorted(ks'));
      SortedLength(ks);
      forall k | k in ks ensures Meaning(Get(a, k)) == Meaning(Get(b, k)) {
        assert Meaning(a).fields[k] == Meaning(b).fields[k];
      }
      SameMembersText(a, b, Sorted(ks), 0);
    }
  }

  lemma {:induction false} SameItems(a: Json, b: Json, i: nat)
    requires a.Arr? && b.Arr? && Ok(a) && Ok(b) && |a.items| == |b.items| && i <= |a.items|
    requires forall j :: 0 <= j < |a.items| ==> Meaning(a.items[j]) == Meaning(b.items[j])
    ensures ItemsText(a, i) == ItemsText(b, i)
    decreases a, 0, |a.items| - i
  {
    if i < |a.items| {
      SameText(a.items[i], b.items[i]);
      SameItems(a, b, i + 1);
    }
  }

  lemma {:induction false} SameMembersText(a: Json, b: Json, ks: seq<string>, i: nat)
    requires a.Obj? && b.Obj? && Ok(a) && Ok(b) && i <= |ks|
    requires forall k :: k in ks ==>
               k in Keys(a.fields) && k in Keys(b.fields) && Meaning(Get(a, k)) == Meaning(Get(b, k))
    ensures MembersText(a, ks, i) == MembersText(b, ks, i)
    decreases a, 0, |ks| - i
  {
    if i < |ks| {
      assert ks[i] in ks;
      SameText(Get(a, ks[i]), Get(b, ks[i]));
      SameMembersText(a, b, ks, i + 1);
    }
  }

  /** The text is a canonical form: two values print alike exactly when they are equal up to the order of
      object keys, at every depth. */
  lemma CanonicalExactly(a: Json, b: Json)
    requires Ok(a) && Ok(b)
    ensures StableStringify(a) == StableStringify(b) <==> Meaning(a) == Meaning(b)
  {
    if StableStringify(a) == StableStringify(b) { Injective(a, b, "", ""); }
    if Meaning(a) == Meaning(b) { SameText(a, b); }
  }
}
