/** Reading, writing and comparing a scenario configuration field by field. */
module ConfigEdits {
  import opened Wrappers
  import opened StableJson

  type Path = seq<string>

  // ---- the editable fields ----

  /** A top-level key with its editable fields; with none, the key is one field as a whole. */
  datatype Section = Section(key: string, fields: seq<string>)

  const SECTIONS: seq<Section> := [
    Section("basics", BASICS),
    Section("persona", ["role", "name", "description", "voice", "avatar"]),
    Section("instructions", ["aiInstructions", "goals", "boundaries", "tone", "verbosity"]),
    Section("conversation", ["strategy", "agenda", "firstTurn", "ending", "turnTaking", "timedInstructions"]),
    Section("model", []),
    Section("audio", []),
    Section("recording", []),
    Section("analysis", []),
    Section("rubric", []),
    Section("extraction", ["variables"]),
    Section("variables", ["allowlist"]),
    Section("memory", []),
    Section("coach", []),
    Section("tools", []),
    Section("knowledge", []),
    Section("channels", []),
    Section("access", [])
  ]

  const BASICS := ["name", "type", "internalDescription", "publicDescription", "participantInstructions",
                   "language", "targetDurationMinutes", "privacy", "tags"]

  function PathsOf(s: Section): seq<Path> {
    if s.fields == [] then [[s.key]] else seq(|s.fields|, i requires 0 <= i < |s.fields| => [s.key, s.fields[i]])
  }

  function Paths(sections: seq<Section>): seq<Path> {
    if sections == [] then [] else PathsOf(sections[0]) + Paths(sections[1..])
  }

  /** EDITABLE_FIELD_PATHS, each path split at its dot. */
  const EDITABLE: seq<Path> := Paths(SECTIONS)

  // ---- operations ----

  /** The properties a value has by name: the fields of an object, the named properties of an array. */
  function Props(a: Json): seq<Field> {
    match a
    case Obj(fields) => fields
    case Arr(_, named) => named
    case _ => []
  }

  /** A property by name; see `Plain` for the names meant here. */
  function Child(a: Json, k: string): (r: Option<Json>) {
    if k in Keys(Props(a)) then Some(Props(a)[IndexOf(Props(a), k)].value) else None
  }

  /** getAtPath: nothing below a missing or null value. */
  function GetAt(a: Option<Json>, path: Path): Option<Json>
    decreases |path|
  {
    if path == [] then a
    else GetAt(if a.None? || a.value.Null? then None else Child(a.value, path[0]), path[1..])
  }

  /** A property is the value of the first field of that name. */
  lemma ChildExactly(a: Json, k: string)
    ensures Child(a, k).None? <==> forall i :: 0 <= i < |Props(a)| ==> Props(a)[i].key != k
    ensures Child(a, k).Some? ==> exists i :: 0 <= i < |Props(a)| && Props(a)[i] == Field(k, Child(a, k).value)
  {
    if i :| 0 <= i < |Props(a)| && Props(a)[i].key == k { assert Keys(Props(a))[i] == k; }
    if k in Keys(Props(a)) {
      var i :| 0 <= i < |Keys(Props(a))| && Keys(Props(a))[i] == k;
      assert Props(a)[i].key == k;
    }
  }

  /** One more step of a path goes to the property of what is there, or nowhere. */
  lemma {:induction false} GetAtStep(a: Option<Json>, path: Path, k: string)
    ensures GetAt(a, []) == a
    ensures var here := GetAt(a, path);
            GetAt(a, path + [k]) == if here.None? || here.value.Null? then None else Child(here.value, k)
    decreases |path|
  {
    if path == [] {
      assert path + [k] == [k] && [k][1..] == [];
    } else {
      assert (path + [k])[1..] == path[1..] + [k];
      GetAtStep(if a.None? || a.value.Null? then None else Child(a.value, path[0]), path[1..], k);
    }
  }

  function SetField(fields: seq<Field>, k: string, v: Json): seq<Field> {
    if k in Keys(fields) then fields[IndexOf(fields, k) := Field(k, v)] else fields + [Field(k, v)]
  }

  /** A step of setAtPath writes into an object or an array, and replaces anything else by a fresh object. */
  function WithField(a: Json, k: string, v: Json): Json {
    if a.Arr? then Arr(a.items, SetField(a.named, k, v)) else Obj(SetField(Props(a), k, v))
  }

  function OrNull(a: Option<Json>): Json { if a.Some? then a.value else Null }

  predicate AllDigits(k: string) { forall j :: 0 <= j < |k| ==> '0' <= k[j] <= '9' }

  /** A name with no meaning of its own on arrays and strings: no index, and not their length. */
  predicate PlainKey(k: string) { !AllDigits(k) && k != "length" }

  predicate Plain(path: Path) { forall i :: 0 <= i < |path| ==> PlainKey(path[i]) }

  /** setAtPath, on a copy. */
  function SetAt(a: Json, path: Path, v: Json): Json
    requires Plain(path)
    decreases |path|
  {
    if path == [] then v
    else WithField(a, path[0], SetAt(OrNull(Child(a, path[0])), path[1..], v))
  }

  /** No array stands on the way to the path. */
  predicate Shaped(a: Json, path: Path)
    decreases |path|
  {
    path != [] ==> !a.Arr? && Shaped(OrNull(Child(a, path[0])), path[1..])
  }

  datatype Change = Change(path: Path, before: Option<Json>, after: Option<Json>)

  predicate Differs(before: Json, after: Json, path: Path) {
    StableStringify(OrNull(GetAt(Some(before), path))) != StableStringify(OrNull(GetAt(Some(after), path)))
  }

  function ChangeAt(before: Json, after: Json, path: Path): Change {
    Change(path, GetAt(Some(before), path), GetAt(Some(after), path))
  }

  /** The changes among the paths, in their order. */
  function Changes(before: Json, after: Json, paths: seq<Path>): seq<Change> {
    if paths == [] then []
    else
      var n := |paths| - 1;
      Changes(before, after, paths[..n])
      + if Differs(before, after, paths[n]) then [ChangeAt(before, after, paths[n])] else []
  }

  lemma ChangesStep(before: Json, after: Json, paths: seq<Path>, n: nat)
    requires n < |paths|
    ensures Changes(before, after, paths[..n + 1])
            == Changes(before, after, paths[..n])
               + if Differs(before, after, paths[n]) then [ChangeAt(before, after, paths[n])] else []
  {
    assert paths[..n + 1][..n] == paths[..n];
  }

  /** diffConfigs */
  method DiffConfigs(before: Json, after: Json) returns (changes: seq<Change>)
    ensures changes == Changes(before, after, EDITABLE)
  {
    changes := [];
    for i := 0 to |EDITABLE|
      invariant changes == Changes(before, after, EDITABLE[..i])
    {
      ChangesStep(before, after, EDITABLE, i);
      var path := EDITABLE[i];
      var a, b := GetAt(Some(before), path), GetAt(Some(after), path);
      if StableStringify(OrNull(a)) != StableStringify(OrNull(b)) {
        changes := changes + [Change(path, a, b)];
      }
    }
    assert EDITABLE[..|EDITABLE|] == EDITABLE;
  }

  // ---- writing a field ----

  lemma SetFieldKeys(fields: seq<Field>, k: string, v: Json)
    ensures k in Keys(SetField(fields, k, v))
    ensures forall x :: x in Keys(fields) ==> x in Keys(SetField(fields, k, v))
    ensures forall x :: x in Keys(SetField(fields, k, v)) ==> x == k || x in Keys(fields)
    ensures Distinct(Keys(fields)) ==> Distinct(Keys(SetField(fields, k, v)))
  {
    var ks, ks' := Keys(fields), Keys(SetField(fields, k, v));
    if k in ks {
      assert ks' == ks;
    } else {
      assert ks' == ks + [k];
    }
  }

  /** Distinct keys: the field found is the field there is. */
  lemma IndexUnique(fields: seq<Field>, i: nat)
    requires Distinct(Keys(fields)) && i < |fields|
    ensures fields[i].key in Keys(fields) && IndexOf(fields, fields[i].key) == i
  {
    KeyAt(fields, i);
    KeyAt(fields, IndexOf(fields, fields[i].key));
    DistinctAt(Keys(fields), i, IndexOf(fields, fields[i].key));
  }

  lemma KeyAt(fields: seq<Field>, i: nat)
    requires i < |fields|
    ensures Keys(fields)[i] == fields[i].key && fields[i].key in Keys(fields)
  {
  }

  lemma DistinctAt(ks: seq<string>, i: nat, j: nat)
    requires Distinct(ks) && i < |ks| && j < |ks| && ks[i] == ks[j]
    ensures i == j
  {
  }

  lemma FieldAfter(fields: seq<Field>, k: string, v: Json, x: string)
    requires Distinct(Keys(fields))
    ensures var fields' := SetField(fields, k, v);
            && (x in Keys(fields') <==> x == k || x in Keys(fields))
            && (x in Keys(fields') ==>
                  fields'[IndexOf(fields', x)].value == if x == k then v else fields[IndexOf(fields, x)].value)
  {
    var fields' := SetField(fields, k, v);
    SetFieldKeys(fields, k, v);
    if x == k {
      IndexUnique(fields', if k in Keys(fields) then IndexOf(fields, k) else |fields|);
    } else if x in Keys(fields) {
      var i := IndexOf(fields, x);
      IndexUnique(fields', i);
    }
  }

  lemma ChildAfter(a: Json, k: string, v: Json, x: string)
    requires Ok(a)
    ensures Child(WithField(a, k, v), x) == if x == k then Some(v) else Child(a, x)
  {
    FieldAfter(Props(a), k, v, x);
  }

  lemma NothingBelow(path: Path)
    ensures GetAt(None, path) == None
    ensures path != [] ==> GetAt(Some(Null), path) == None
  {
  }

  predicate Prefix(p: Path, q: Path) { |p| <= |q| && p == q[..|p|] }

  predicate Apart(p: Path, q: Path) { !Prefix(p, q) && !Prefix(q, p) }

  /** Reading what was written. */
  lemma {:induction false} GetSet(a: Json, p: Path, v: Json)
    requires Ok(a) && Plain(p)
    ensures GetAt(Some(SetAt(a, p, v)), p) == Some(v)
    decreases |p|
  {
    if p != [] {
      var child := OrNull(Child(a, p[0]));
      ChildAfter(a, p[0], SetAt(child, p[1..], v), p[0]);
      GetSet(child, p[1..], v);
    }
  }

  lemma ApartBelow(p: Path, q: Path)
    requires p != [] && q != [] && p[0] == q[0] && Apart(p, q)
    ensures p[1..] != [] && q[1..] != [] && Apart(p[1..], q[1..])
  {
  }

  /** Writing one path leaves every path apart from it as it was. */
  lemma {:induction false} GetSetOther(a: Json, p: Path, q: Path, v: Json)
    requires Ok(a) && p != [] && q != [] && Apart(p, q) && Plain(p)
    ensures GetAt(Some(SetAt(a, p, v)), q) == GetAt(Some(a), q)
    decreases |p|
  {
    var child := OrNull(Child(a, p[0]));
    ChildAfter(a, p[0], SetAt(child, p[1..], v), q[0]);
    if p[0] == q[0] {
      ApartBelow(p, q);
      GetSetOther(child, p[1..], q[1..], v);
      NothingBelow(q[1..]);
    }
  }

  // ---- the editable paths are apart ----

  predicate AllApart(paths: seq<Path>) {
    && (forall i :: 0 <= i < |paths| ==> paths[i] != [])
    && forall i, j :: 0 <= i < j < |paths| ==> Apart(paths[i], paths[j])
  }

  function SectionKeys(sections: seq<Section>): (ks: seq<string>)
    ensures |ks| == |sections|
  {
    seq(|sections|, i requires 0 <= i < |sections| => sections[i].key)
  }

  lemma HeadsAreKeys(sections: seq<Section>)
    ensures forall p :: p in Paths(sections) ==> p != [] && p[0] in SectionKeys(sections)
  {
    if sections != [] {
      HeadsAreKeys(sections[1..]);
      assert SectionKeys(sections) == [sections[0].key] + SectionKeys(sections[1..]);
    }
  }

  lemma SectionApart(s: Section)
    requires Distinct(s.fields)
    ensures AllApart(PathsOf(s))
  {
    forall i, j | 0 <= i < j < |PathsOf(s)| ensures Apart(PathsOf(s)[i], PathsOf(s)[j]) {
      assert PathsOf(s)[i][1] != PathsOf(s)[j][1];
    }
  }

  lemma HeadsApart(p: Path, q: Path)
    requires p != [] && q != [] && p[0] != q[0]
    ensures Apart(p, q)
  {
  }

  lemma AppendApart(here: seq<Path>, rest: seq<Path>)
    requires AllApart(here) && AllApart(rest)
    requires forall i, j :: 0 <= i < |here| && 0 <= j < |rest| ==> Apart(here[i], rest[j])
    ensures AllApart(here + rest)
  {
    var all, n := here + rest, |here|;
    forall i, j | 0 <= i < j < |all| ensures Apart(all[i], all[j]) {
      if n <= i { assert Apart(rest[i - n], rest[j - n]); }
    }
  }

  lemma {:induction false} PathsApart(sections: seq<Section>)
    requires Distinct(SectionKeys(sections)) && forall i :: 0 <= i < |sections| ==> Distinct(sections[i].fields)
    ensures AllApart(Paths(sections))
  {
    if sections != [] {
      var rest, here, key := sections[1..], PathsOf(sections[0]), sections[0].key;
      assert SectionKeys(sections) == [key] + SectionKeys(rest);
      assert forall i :: 0 <= i < |rest| ==> SectionKeys(rest)[i] == SectionKeys(sections)[i + 1];
      PathsApart(rest);
      SectionApart(sections[0]);
      HeadsAreKeys(rest);
      assert SectionKeys(sections)[0] == key;
      assert forall i :: 0 <= i < |rest| ==> SectionKeys(rest)[i] != key;
      forall i, j | 0 <= i < |here| && 0 <= j < |Paths(rest)| ensures Apart(here[i], Paths(rest)[j]) {
        assert Paths(rest)[j] in Paths(rest) && here[i][0] == key;
        HeadsApart(here[i], Paths(rest)[j]);
      }
      AppendApart(here, Paths(rest));
    }
  }

  // ---- main results ----

  lemma {:induction false} OneChange(a: Json, b: Json, paths: seq<Path>, k: nat, n: nat)
    requires n <= |paths| && k < |paths|
    requires forall i :: 0 <= i < |paths| && i != k ==> !Differs(a, b, paths[i])
    ensures Changes(a, b, paths[..n])
            == if k < n && Differs(a, b, paths[k]) then [ChangeAt(a, b, paths[k])] else []
  {
    if n > 0 {
      ChangesStep(a, b, paths, n - 1);
      OneChange(a, b, paths, k, n - 1);
    }
  }

  lemma ApartAt(paths: seq<Path>, i: nat, k: nat)
    requires AllApart(paths) && i < |paths| && k < |paths| && i != k
    ensures Apart(paths[k], paths[i])
  {
  }

  /** Editing the k-th of any paths that are apart: the diff is that one change, or nothing when the new
      value is equal to the old one up to key order. */
  lemma EditFrame(a: Json, v: Json, paths: seq<Path>, k: nat)
    requires AllApart(paths) && k < |paths| && Plain(paths[k]) && Ok(a) && Ok(v) && a.Obj?
    ensures var p, b := paths[k], SetAt(a, paths[k], v);
            && GetAt(Some(b), p) == Some(v)
            && (forall i :: 0 <= i < |paths| && i != k ==> GetAt(Some(b), paths[i]) == GetAt(Some(a), paths[i]))
            && Changes(a, b, paths)
               == if Meaning(OrNull(GetAt(Some(a), p))) == Meaning(v)
                  then [] else [Change(p, GetAt(Some(a), p), Some(v))]
  {
    var p, b := paths[k], SetAt(a, paths[k], v);
    GetSet(a, p, v);
    forall i | 0 <= i < |paths| && i != k ensures GetAt(Some(b), paths[i]) == GetAt(Some(a), paths[i]) {
      ApartAt(paths, i, k);
      GetSetOther(a, p, paths[i], v);
    }
    OneChange(a, b, paths, k, |paths|);
    assert paths[..|paths|] == paths;
    OkAt(a, p);
    CanonicalExactly(OrNull(GetAt(Some(a), p)), v);
  }

  lemma OkAt(a: Json, path: Path)
    requires Ok(a)
    ensures Ok(OrNull(GetAt(Some(a), path)))
    decreases |path|
  {
    if path != [] {
      if Child(a, path[0]).Some? { OkAt(Child(a, path[0]).value, path[1..]); } else { NothingBelow(path[1..]); }
      NothingBelow(path[1..]);
    }
  }

  function Tag(s: string): (nat, char, char) {
    if s == "" then (0, ' ', ' ') else (|s|, s[0], s[|s| - 1])
  }

  lemma TagsDistinct(ks: seq<string>)
    requires forall i, j :: 0 <= i < j < |ks| ==> Tag(ks[i]) != Tag(ks[j])
    ensures Distinct(ks)
  {
  }

  lemma FieldsDistinct(i: nat)
    requires i < |SECTIONS|
    ensures Distinct(SECTIONS[i].fields)
  {
    if i == 0 { TagsDistinct(BASICS); }
    else if i == 1 { TagsDistinct(SECTIONS[1].fields); }
    else if i == 2 { TagsDistinct(SECTIONS[2].fields); }
    else if i == 3 { TagsDistinct(SECTIONS[3].fields); }
  }

  lemma SectionKeysDistinct()
    ensures Distinct(SectionKeys(SECTIONS))
  {
  }

  lemma EditableApart()
    ensures AllApart(EDITABLE)
  {
    SectionKeysDistinct();
    forall i | 0 <= i < |SECTIONS| ensures Distinct(SECTIONS[i].fields) { FieldsDistinct(i); }
    PathsApart(SECTIONS);
  }

  lemma LetterIsPlain(k: string)
    requires k != "" && 'a' <= k[0] <= 'z' && (|k| != 6 || k[0] != 'l')
    ensures PlainKey(k)
  {
  }

  lemma SectionIsPlain(s: Section)
    requires PlainKey(s.key) && forall i :: 0 <= i < |s.fields| ==> PlainKey(s.fields[i])
    ensures forall p :: p in PathsOf(s) ==> Plain(p)
  {
  }

  lemma {:induction false} PathsArePlain(sections: seq<Section>)
    requires forall i :: 0 <= i < |sections| ==>
               PlainKey(sections[i].key) &&
                  forall j :: 0 <= j < |sections[i].fields| ==> PlainKey(sections[i].fields[j])
    ensures forall p :: p in Paths(sections) ==> Plain(p)
  {
    if sections != [] {
      SectionIsPlain(sections[0]);
      PathsArePlain(sections[1..]);
    }
  }

  lemma SectionKeysPlain(i: nat)
    requires i < |SECTIONS|
    ensures PlainKey(SECTIONS[i].key)
  {
    LetterIsPlain(SECTIONS[i].key);
  }

  lemma FieldsPlain(i: nat, j: nat)
    requires i < |SECTIONS| && j < |SECTIONS[i].fields|
    ensures PlainKey(SECTIONS[i].fields[j])
  {
    LetterIsPlain(SECTIONS[i].fields[j]);
  }

  lemma EditablePlain(k: nat)
    requires k < |EDITABLE|
    ensures Plain(EDITABLE[k])
  {
    forall i | 0 <= i < |SECTIONS|
      ensures PlainKey(SECTIONS[i].key)
      ensures forall j :: 0 <= j < |SECTIONS[i].fields| ==> PlainKey(SECTIONS[i].fields[j])
    {
      SectionKeysPlain(i);
      forall j | 0 <= j < |SECTIONS[i].fields| ensures PlainKey(SECTIONS[i].fields[j]) { FieldsPlain(i, j); }
    }
    PathsArePlain(SECTIONS);
    assert EDITABLE[k] in Paths(SECTIONS);
  }

  /** One edit of an editable field reads back, touches no other editable field, and is all that the diff
      shows. */
  lemma EditIsTheDiff(a: Json, v: Json, k: nat)
    requires k < |EDITABLE| && Ok(a) && Ok(v) && a.Obj?
    ensures Plain(EDITABLE[k])
    ensures var p, b := EDITABLE[k], SetAt(a, EDITABLE[k], v);
            && GetAt(Some(b), p) == Some(v)
            && (forall i :: 0 <= i < |EDITABLE| && i != k ==>
                   GetAt(Some(b), EDITABLE[i]) == GetAt(Some(a), EDITABLE[i]))
            && Changes(a, b, EDITABLE)
               == if Meaning(OrNull(GetAt(Some(a), p))) == Meaning(v)
                  then [] else [Change(p, GetAt(Some(a), p), Some(v))]
  {
    EditableApart();
    EditablePlain(k);
    EditFrame(a, v, EDITABLE, k);
  }

  /** The diff shows a change at exactly the paths whose values differ in more than key order. */
  lemma {:induction false} DiffShows(a: Json, b: Json, paths: seq<Path>, path: Path)
    requires Ok(a) && Ok(b)
    ensures ChangeAt(a, b, path) in Changes(a, b, paths)
            <==> path in paths && Meaning(OrNull(GetAt(Some(a), path))) != Meaning(OrNull(GetAt(Some(b), path)))
    decreases |paths|
  {
    if paths != [] {
      var n := |paths| - 1;
      assert paths == paths[..n] + [paths[n]];
      DiffShows(a, b, paths[..n], path);
      OkAt(a, path);
      OkAt(b, path);
      CanonicalExactly(OrNull(GetAt(Some(a), path)), OrNull(GetAt(Some(b), path)));
    }
  }

  // ---- what saving keeps ----

  /** JSON.parse(JSON.stringify(a)): the named properties of arrays are gone. */
  function Saved(a: Json): Json {
    match a
    case Arr(items, _) => Arr(seq(|items|, i requires 0 <= i < |items| => Saved(items[i])), [])
    case Obj(fields) =>
      Obj(seq(|fields|, i requires 0 <= i < |fields| => Field(fields[i].key, Saved(fields[i].value))))
    case _ => a
  }

  lemma {:induction false} SavedIsSame(a: Json)
    requires Ok(a)
    ensures Saved(a) == a
  {
    match a
    case Arr(items, _) =>
      forall i | 0 <= i < |items| ensures Saved(items[i]) == items[i] { SavedIsSame(items[i]); }
      assert Saved(a).items == items;
    case Obj(fields) =>
      forall i | 0 <= i < |fields| ensures Saved(fields[i].value) == fields[i].value { SavedIsSame(fields[i].value); }
      assert Saved(a).fields == fields;
    case _ =>
  }

  lemma SavedChild(a: Json, k: string)
    requires a.Obj? && Distinct(Keys(a.fields))
    ensures Child(Saved(a), k) == if Child(a, k).Some? then Some(Saved(Child(a, k).value)) else None
  {
    assert Keys(Saved(a).fields) == Keys(a.fields);
    if k in Keys(a.fields) { IndexUnique(Saved(a).fields, IndexOf(a.fields, k)); }
  }

  lemma SetFieldDistinct(a: Json, k: string, v: Json)
    requires Ok(a)
    ensures Distinct(Keys(Props(WithField(a, k, v))))
  {
    SetFieldKeys(Props(a), k, v);
  }

  /** A written value is still there after saving exactly when no array stands on the way to it. */
  lemma {:induction false} SavedExactly(a: Json, p: Path, v: Json)
    requires Ok(a) && Ok(v) && Plain(p)
    ensures GetAt(Some(Saved(SetAt(a, p, v))), p) == Some(v) <==> Shaped(a, p)
    decreases |p|
  {
    if p == [] {
      SavedIsSame(v);
    } else if a.Arr? {
      NothingBelow(p[1..]);
    } else {
      var child := OrNull(Child(a, p[0]));
      var below := SetAt(child, p[1..], v);
      ChildAfter(a, p[0], below, p[0]);
      SetFieldDistinct(a, p[0], below);
      SavedChild(WithField(a, p[0], below), p[0]);
      SavedExactly(child, p[1..], v);
      SavedNull(below);
    }
  }

  lemma SavedNull(a: Json)
    ensures Saved(a).Null? <==> a.Null?
  {
  }
}
