/** The CSV reader: one pass over the text with the row and field being read. */
module CsvReader {
  import opened Wrappers

  type Row = seq<string>

  datatype Result = Rows(rows: seq<Row>) | TooManyRows | Unterminated

  /** The locals of the loop. */
  datatype Reader = Reader(rows: seq<Row>, row: Row, field: string, inQuotes: bool)

  const BEGIN := Reader([], [], "", false)

  const BOM := '\U{FEFF}'

  function PushField(s: Reader): Reader { s.(row := s.row + [s.field], field := "") }

  /** A row of one empty field is a blank line and is dropped. */
  function AddRow(rows: seq<Row>, row: Row): seq<Row> { if row == [""] then rows else rows + [row] }

  function PushRow(s: Reader, maxRows: nat): Option<Reader> {
    var rows := AddRow(s.rows, PushField(s).row);
    if |rows| > maxRows then None else Some(s.(rows := rows, row := [], field := ""))
  }

  function Finish(s: Reader, maxRows: nat): Result {
    if s.inQuotes then Unterminated
    else if s.field != "" || s.row != [] then
      match PushRow(s, maxRows)
      case None => TooManyRows
      case Some(s') => Rows(s'.rows)
    else Rows(s.rows)
  }

  /** A reader and the text it has yet to read. */
  datatype Place = Place(s: Reader, t: string)

  /** One turn of the loop; none when there are too many rows. */
  function Turn(a: Place, maxRows: nat): (r: Option<Place>)
    requires a.t != ""
    ensures r.Some? ==> |r.value.t| < |a.t|
  {
    var Place(s, t) := a;
    var c, next := t[0], t[1..];
    if s.inQuotes then
      if c != '"' then Some(Place(s.(field := s.field + [c]), next))
      else if next != "" && next[0] == '"' then Some(Place(s.(field := s.field + "\""), next[1..]))
      else Some(Place(s.(inQuotes := false), next))
    else if c == '"' && s.field == "" then Some(Place(s.(inQuotes := true), next))
    else if c == ',' then Some(Place(PushField(s), next))
    else if c == '\n' || c == '\r' then
      var rest := if c == '\r' && next != "" && next[0] == '\n' then next[1..] else next;
      match PushRow(s, maxRows)
      case None => None
      case Some(s') => Some(Place(s', rest))
    else Some(Place(s.(field := s.field + [c]), next))
  }

  /** Reading the text t in state s. */
  function Feed(a: Place, maxRows: nat): Result
    decreases |a.t|
  {
    if a.t == "" then Finish(a.s, maxRows)
    else
      match Turn(a, maxRows)
      case None => TooManyRows
      case Some(b) => Feed(b, maxRows)
  }

  function Start(text: string): nat { if text != "" && text[0] == BOM then 1 else 0 }

  function Parsed(text: string, maxRows: nat): Result { Feed(Place(BEGIN, text[Start(text)..]), maxRows) }

  lemma Drop(t: string, i: nat, k: nat)
    requires i + k <= |t|
    ensures t[i..][k..] == t[i + k..]
  {
  }

  /** parseCsv. */
  method ParseCsv(text: string, maxRows: nat) returns (r: Result)
    ensures r == Parsed(text, maxRows)
  {
    var rows: seq<Row>, row: Row, field, inQuotes := [], [], "", false;
    var i := Start(text);
    while i < |text|
      invariant i <= |text|
      invariant Feed(Place(Reader(rows, row, field, inQuotes), text[i..]), maxRows) == Parsed(text, maxRows)
    {
      var c := text[i];
      Drop(text, i, 1);
      if i + 1 < |text| { Drop(text, i, 2); }
      if inQuotes {
        if c == '"' {
          if i + 1 < |text| && text[i + 1] == '"' {
            field := field + "\"";
            i := i + 1;
          } else {
            inQuotes := false;
          }
        } else {
          field := field + [c];
        }
      } else if c == '"' && field == "" {
        inQuotes := true;
      } else if c == ',' {
        row, field := row + [field], "";
      } else if c == '\n' || c == '\r' {
        if c == '\r' && i + 1 < |text| && text[i + 1] == '\n' {
          i := i + 1;
        }
        rows, row, field := AddRow(rows, row + [field]), [], "";
        if |rows| > maxRows {
          return TooManyRows;
        }
      } else {
        field := field + [c];
      }
      i := i + 1;
    }
    if inQuotes {
      return Unterminated;
    }
    if field != "" || row != [] {
      rows := AddRow(rows, row + [field]);
      if |rows| > maxRows {
        return TooManyRows;
      }
    }
    return Rows(rows);
  }
}

/** The three CSV printers. */
module CsvPrinters {
  import CsvReader

  datatype NonFinite = NotANumber | PositiveInfinity | NegativeInfinity

  /** A cell before printing. A number and a time carry their text; a structure carries both its JSON text
      and its plain string. */
  datatype Value =
    | Missing
    | Text(s: string)
    | Finite(shown: string)
    | Special(n: NonFinite)
    | Flag(b: bool)
    | Stamp(iso: string)
    | Structure(json: string, plain: string)

  predicate NumberChar(c: char) { c in "0123456789+-.e" }

  predicate StampChar(c: char) { c in "0123456789+-:.TZ" }

  /** Number and time texts hold only the characters that such texts hold. */
  predicate ValueOk(v: Value) {
    && (v.Finite? ==> forall j :: 0 <= j < |v.shown| ==> NumberChar(v.shown[j]))
    && (v.Stamp? ==> forall j :: 0 <= j < |v.iso| ==> StampChar(v.iso[j]))
  }

  function SpecialText(n: NonFinite): string {
    match n
    case NotANumber => "NaN"
    case PositiveInfinity => "Infinity"
    case NegativeInfinity => "-Infinity"
  }

  /** String(v), with JSON for a structure and the ISO form for a time. */
  function Shown(v: Value): string {
    match v
    case Missing => ""
    case Text(s) => s
    case Finite(shown) => shown
    case Special(n) => SpecialText(n)
    case Flag(b) => if b then "true" else "false"
    case Stamp(iso) => iso
    case Structure(json, _) => json
  }

  predicate Formula(s: string) { s != "" && s[0] in "=+-@\t\r" }

  function Guarded(s: string): string { if Formula(s) then "'" + s else s }

  predicate NeedsQuotes(c: char) { c in "\",\r\n" }

  predicate Special4180(s: string) { exists j :: 0 <= j < |s| && NeedsQuotes(s[j]) }

  /** White space as String.prototype.trim sees it. */
  predicate IsSpace(c: char) {
    || c in "\t\U{B}\U{C} \r\n\U{A0}\U{1680}\U{2028}\U{2029}\U{202F}\U{205F}\U{3000}\U{FEFF}"
    || '\U{2000}' <= c <= '\U{200A}'
  }

  /** s !== s.trim() */
  predicate Padded(s: string) { s != "" && (IsSpace(s[0]) || IsSpace(s[|s| - 1])) }

  /** s.replace(/"/g, '""') */
  function Doubled(s: string): string {
    if s == "" then "" else (if s[0] == '"' then "\"\"" else [s[0]]) + Doubled(s[1..])
  }

  function Quote(s: string): string { "\"" + Doubled(s) + "\"" }

  datatype Printer = Analysis | Admin | Analytics

  /** What the cell says after the formula guard, before quoting. */
  function Content(p: Printer, v: Value): string {
    match p
    case Analysis => if v.Finite? then v.shown else Guarded(Shown(v))
    case Admin => Guarded(Shown(v))
    case Analytics =>
      if v.Special? then ""
      else if v.Structure? then Guarded(v.plain)
      else if v.Text? then Guarded(v.s)
      else Shown(v)
  }

  /** analysis/csv.ts csvCell */
  function AnalysisCell(v: Value): string {
    if v.Missing? then ""
    else
      var s := if !v.Finite? && Formula(Shown(v)) then "'" + Shown(v) else Shown(v);
      if Special4180(s) || Padded(s) then Quote(s) else s
  }

  /** admin/csv.ts csvCell */
  function AdminCell(v: Value): string {
    if v.Missing? then ""
    else
      var s := if Formula(Shown(v)) then "'" + Shown(v) else Shown(v);
      if Special4180(s) then Quote(s) else s
  }

  /** analytics/csv.ts csvCell */
  function AnalyticsCell(v: Value): string {
    match v
    case Missing => ""
    case Finite(shown) => shown
    case Special(_) => ""
    case Flag(b) => if b then "true" else "false"
    case Stamp(iso) => iso
    case _ =>
      var s := if v.Structure? then v.plain else Shown(v);
      var g := if Formula(s) then "'" + s else s;
      if Special4180(g) then Quote(g) else g
  }

  function CsvCell(p: Printer, v: Value): string {
    match p
    case Analysis => AnalysisCell(v)
    case Admin => AdminCell(v)
    case Analytics => AnalyticsCell(v)
  }

  /** values.map(csvCell).join(',') */
  function CsvRow(p: Printer, values: seq<Value>): string {
    if values == [] then "" else CsvCell(p, values[0]) + Tail(p, values[1..])
  }

  function Tail(p: Printer, values: seq<Value>): string {
    if values == [] then "" else "," + CsvCell(p, values[0]) + Tail(p, values[1..])
  }

  function Lines(p: Printer, rows: seq<seq<Value>>): string {
    if rows == [] then "" else CsvRow(p, rows[0]) + "\r\n" + Lines(p, rows[1..])
  }

  function Header(header: seq<string>): seq<Value> { seq(|header|, i requires 0 <= i < |header| => Text(header[i])) }

  /** toCsv: the admin printer writes no byte order mark. */
  function ToCsv(p: Printer, header: seq<string>, rows: seq<seq<Value>>): string {
    (if p.Admin? then "" else [CsvReader.BOM]) + Lines(p, [Header(header)] + rows)
  }
}

/** Reading what a printer wrote. */
module CsvRoundTrip {
  import opened Wrappers
  import opened CsvReader
  import opened CsvPrinters

  /** The printed cell e says s: bare and free of special characters, or quoted. */
  ghost predicate Says(e: string, s: string) { (e == s && !Special4180(s)) || e == Quote(s) }

  lemma NumbersAreClean(s: string)
    requires forall j :: 0 <= j < |s| ==> NumberChar(s[j]) || StampChar(s[j])
    ensures !Special4180(s)
  {
  }

  lemma CellSays(p: Printer, v: Value)
    requires ValueOk(v)
    ensures Says(CsvCell(p, v), Content(p, v))
  {
    if v.Finite? || v.Stamp? { NumbersAreClean(Shown(v)); }
  }

  /** The text begins like a formula. */
  predicate LooksLikeFormula(s: string) {
    s != "" && (s[0] == '=' || s[0] == '+' || s[0] == '-' || s[0] == '@' || s[0] == '\t' || s[0] == '\r')
  }

  /** What each printer says of each value: text that looks like a formula gets an apostrophe in front, in every
      printer; a number keeps its text except in the admin printer, which guards it as well; the analytics printer
      prints times unguarded, nothing for numbers that are not finite, and the plain string of a structure. */
  lemma ContentExactly(p: Printer, v: Value)
    ensures v.Missing? ==> Content(p, v) == ""
    ensures v.Flag? ==> Content(p, v) == if v.b then "true" else "false"
    ensures v.Text? ==> Content(p, v) == if LooksLikeFormula(v.s) then "'" + v.s else v.s
    ensures v.Finite? ==>
              Content(p, v) == if p.Admin? && LooksLikeFormula(v.shown) then "'" + v.shown else v.shown
    ensures v.Stamp? ==>
              Content(p, v) == if !p.Analytics? && LooksLikeFormula(v.iso) then "'" + v.iso else v.iso
    ensures v.Special? ==>
              Content(p, v) == if p.Analytics? then ""
                               else match v.n case NotANumber => "NaN" case PositiveInfinity => "Infinity"
                                              case NegativeInfinity => "'-Infinity"
    ensures v.Structure? ==>
              var s := if p.Analytics? then v.plain else v.json;
              Content(p, v) == if LooksLikeFormula(s) then "'" + s else s
  {
  }

  predicate MustQuote(s: string) {
    exists j :: 0 <= j < |s| && (s[j] == ',' || s[j] == '"' || s[j] == '\n' || s[j] == '\r')
  }

  lemma MustQuoteExactly(s: string)
    ensures MustQuote(s) <==> Special4180(s)
  {
    if j :| 0 <= j < |s| && NeedsQuotes(s[j]) {}
  }

  lemma AnalysisQuotes(v: Value)
    requires ValueOk(v)
    ensures var s := Content(Analysis, v);
            AnalysisCell(v) == if Special4180(s) || Padded(s) then Quote(s) else s
  {
  }

  lemma PaddedExactly(s: string)
    ensures Padded(s) <==> s != "" && (IsSpace(s[0]) || IsSpace(s[|s| - 1]))
  {
  }

  lemma AdminQuotes(v: Value)
    ensures var s := Content(Admin, v); AdminCell(v) == if Special4180(s) then Quote(s) else s
  {
  }

  lemma AnalyticsQuotes(v: Value)
    requires ValueOk(v)
    ensures var s := Content(Analytics, v); AnalyticsCell(v) == if Special4180(s) then Quote(s) else s
  {
    if v.Finite? || v.Stamp? { NumbersAreClean(Shown(v)); }
  }

  /** A cell is quoted exactly when it holds a comma, a quote or a line break, or, in the analysis printer, begins or
      ends with white space. */
  lemma QuotedExactly(p: Printer, v: Value)
    requires ValueOk(v)
    ensures var s := Content(p, v);
            CsvCell(p, v) == if MustQuote(s) || (p.Analysis? && s != "" && (IsSpace(s[0]) || IsSpace(s[|s| - 1])))
                             then "\"" + Doubled(s) + "\"" else s
  {
    MustQuoteExactly(Content(p, v));
    PaddedExactly(Content(p, v));
    match p
    case Analysis => AnalysisQuotes(v);
    case Admin => AdminQuotes(v);
    case Analytics => AnalyticsQuotes(v);
  }

  // ---- from place to place ----

  function Turns(a: Place, n: nat, maxRows: nat): Option<Place>
    decreases n
  {
    if n == 0 || a.t == "" then Some(a)
    else
      match Turn(a, maxRows)
      case None => None
      case Some(b) => Turns(b, n - 1, maxRows)
  }

  ghost predicate Reads(a: Place, b: Place, maxRows: nat) { exists n: nat :: Turns(a, n, maxRows) == Some(b) }

  lemma ReadsNothing(a: Place, maxRows: nat)
    ensures Reads(a, a, maxRows)
  {
    assert Turns(a, 0, maxRows) == Some(a);
  }

  lemma ReadsOne(a: Place, b: Place, maxRows: nat)
    requires a.t != "" && Turn(a, maxRows) == Some(b)
    ensures Reads(a, b, maxRows)
  {
    assert Turns(b, 0, maxRows) == Some(b);
    assert Turns(a, 1, maxRows) == Some(b);
  }

  lemma {:induction false} TurnsAdd(a: Place, n: nat, b: Place, k: nat, maxRows: nat)
    requires Turns(a, n, maxRows) == Some(b)
    ensures Turns(a, n + k, maxRows) == Turns(b, k, maxRows)
    decreases n
  {
    if n > 0 && a.t != "" { TurnsAdd(Turn(a, maxRows).value, n - 1, b, k, maxRows); }
  }

  lemma ReadsThen(a: Place, b: Place, c: Place, maxRows: nat)
    requires Reads(a, b, maxRows) && Reads(b, c, maxRows)
    ensures Reads(a, c, maxRows)
  {
    var n: nat :| Turns(a, n, maxRows) == Some(b);
    var k: nat :| Turns(b, k, maxRows) == Some(c);
    TurnsAdd(a, n, b, k, maxRows);
  }

  lemma {:induction false} TurnsFeed(a: Place, n: nat, b: Place, maxRows: nat)
    requires Turns(a, n, maxRows) == Some(b)
    ensures Feed(a, maxRows) == Feed(b, maxRows)
    decreases n
  {
    if n > 0 && a.t != "" { TurnsFeed(Turn(a, maxRows).value, n - 1, b, maxRows); }
  }

  lemma ReadsFeed(a: Place, b: Place, maxRows: nat)
    requires Reads(a, b, maxRows)
    ensures Feed(a, maxRows) == Feed(b, maxRows)
  {
    var n: nat :| Turns(a, n, maxRows) == Some(b);
    TurnsFeed(a, n, b, maxRows);
  }

  // ---- reading one cell ----

  lemma {:induction false} ReadBare(s: Reader, u: string, rest: string, maxRows: nat)
    requires !s.inQuotes && !Special4180(u)
    ensures Reads(Place(s, u + rest), Place(s.(field := s.field + u), rest), maxRows)
    decreases |u|
  {
    if u == "" {
      assert u + rest == rest && s.field + u == s.field;
      ReadsNothing(Place(s, rest), maxRows);
    } else {
      var s' := s.(field := s.field + [u[0]]);
      assert (u + rest)[1..] == u[1..] + rest && !NeedsQuotes(u[0]);
      assert !Special4180(u[1..]) by { assert forall j :: 0 <= j < |u[1..]| ==> u[1..][j] == u[j + 1]; }
      ReadsOne(Place(s, u + rest), Place(s', u[1..] + rest), maxRows);
      ReadBare(s', u[1..], rest, maxRows);
      assert s'.field + u[1..] == s.field + u;
      ReadsThen(Place(s, u + rest), Place(s', u[1..] + rest), Place(s.(field := s.field + u), rest), maxRows);
    }
  }

  lemma {:induction false} ReadQuoted(s: Reader, u: string, rest: string, maxRows: nat)
    requires s.inQuotes && (rest == "" || rest[0] != '"')
    ensures Reads(Place(s, Doubled(u) + ("\"" + rest)),
                  Place(s.(field := s.field + u, inQuotes := false), rest), maxRows)
    decreases |u|
  {
    var t := Doubled(u) + ("\"" + rest);
    var end := Place(s.(field := s.field + u, inQuotes := false), rest);
    if u == "" {
      assert t == "\"" + rest && t[1..] == rest && s.field + u == s.field;
      ReadsOne(Place(s, t), end, maxRows);
    } else {
      var s' := s.(field := s.field + [u[0]]);
      var t' := Doubled(u[1..]) + ("\"" + rest);
      assert if u[0] == '"' then t[1..][1..] == t' else t[1..] == t';
      ReadsOne(Place(s, t), Place(s', t'), maxRows);
      ReadQuoted(s', u[1..], rest, maxRows);
      assert s'.field + u[1..] == s.field + u;
      ReadsThen(Place(s, t), Place(s', t'), end, maxRows);
    }
  }

  lemma ReadCell(s: Reader, e: string, u: string, rest: string, maxRows: nat)
    requires Says(e, u) && !s.inQuotes && s.field == "" && (rest == "" || rest[0] != '"')
    ensures Reads(Place(s, e + rest), Place(s.(field := u), rest), maxRows)
  {
    assert "" + u == u;
    if e == Quote(u) {
      var t := Doubled(u) + ("\"" + rest);
      assert e + rest == "\"" + t && ("\"" + t)[1..] == t;
      ReadsOne(Place(s, e + rest), Place(s.(inQuotes := true), t), maxRows);
      ReadQuoted(s.(inQuotes := true), u, rest, maxRows);
      ReadsThen(Place(s, e + rest), Place(s.(inQuotes := true), t), Place(s.(field := u), rest), maxRows);
    } else {
      ReadBare(s, u, rest, maxRows);
    }
  }

  // ---- rows and grids ----

  function Contents(p: Printer, values: seq<Value>): (row: Row) {
    seq(|values|, i requires 0 <= i < |values| => Content(p, values[i]))
  }

  /** The fields a printed row reads back as: an empty row is printed like an empty cell. */
  function Fields(p: Printer, values: seq<Value>): (row: Row) {
    if values == [] then [""] else Contents(p, values)
  }

  /** The rows a printed grid reads back as: blank rows are lost. */
  function Kept(p: Printer, rows: seq<seq<Value>>): seq<Row> {
    if rows == [] then [] else AddRow([], Fields(p, rows[0])) + Kept(p, rows[1..])
  }

  predicate RowOk(values: seq<Value>) { forall j :: 0 <= j < |values| ==> ValueOk(values[j]) }

  predicate GridOk(rows: seq<seq<Value>>) { forall j :: 0 <= j < |rows| ==> RowOk(rows[j]) }

  /** All fields but the last are in the row, the last one is not pushed yet. */
  function BeforeEnd(s: Reader, fields: Row): Reader
    requires fields != []
  {
    s.(row := s.row + fields[..|fields| - 1], field := fields[|fields| - 1])
  }

  /** A row whose first cell is printed as e and says u. */
  lemma {:induction false} ReadRow(s: Reader, e: string, u: string, p: Printer, values: seq<Value>,
                                  rest: string, maxRows: nat)
    requires Says(e, u) && RowOk(values) && !s.inQuotes && s.field == "" && rest != "" && rest[0] == '\r'
    ensures Reads(Place(s, e + (Tail(p, values) + rest)), Place(BeforeEnd(s, [u] + Contents(p, values)), rest), maxRows)
    decreases |values|
  {
    var start := Place(s, e + (Tail(p, values) + rest));
    if values == [] {
      assert "" + rest == rest && s.row + [] == s.row;
      ReadCell(s, e, u, rest, maxRows);
    } else {
      var s' := s.(row := s.row + [u]);
      var next := Place(s', CsvCell(p, values[0]) + (Tail(p, values[1..]) + rest));
      TailFirst(p, values, rest);
      ReadComma(s, e, u, next.t, maxRows);
      CellSays(p, values[0]);
      ReadRow(s', CsvCell(p, values[0]), Content(p, values[0]), p, values[1..], rest, maxRows);
      EndAfterFirst(s, u, p, values);
      ReadsThen(start, next, Place(BeforeEnd(s, [u] + Contents(p, values)), rest), maxRows);
    }
  }

  lemma TailFirst(p: Printer, values: seq<Value>, rest: string)
    requires values != []
    ensures Tail(p, values) + rest == "," + (CsvCell(p, values[0]) + (Tail(p, values[1..]) + rest))
  {
  }

  lemma ReadComma(s: Reader, e: string, u: string, after: string, maxRows: nat)
    requires Says(e, u) && !s.inQuotes && s.field == ""
    ensures Reads(Place(s, e + ("," + after)), Place(s.(row := s.row + [u]), after), maxRows)
  {
    ReadCell(s, e, u, "," + after, maxRows);
    PassComma(s, u, after, maxRows);
    ReadsThen(Place(s, e + ("," + after)), Place(s.(field := u), "," + after),
              Place(s.(row := s.row + [u]), after), maxRows);
  }

  lemma ContentsFirst(p: Printer, values: seq<Value>)
    requires values != []
    ensures [Content(p, values[0])] + Contents(p, values[1..]) == Contents(p, values)
  {
  }

  lemma EndAfterFirst(s: Reader, u: string, p: Printer, values: seq<Value>)
    requires values != []
    ensures BeforeEnd(s.(row := s.row + [u]), [Content(p, values[0])] + Contents(p, values[1..]))
            == BeforeEnd(s, [u] + Contents(p, values))
  {
    ContentsFirst(p, values);
    var fields := Contents(p, values);
    assert ([u] + fields)[..|fields|] == [u] + fields[..|fields| - 1];
    assert s.row + [u] + fields[..|fields| - 1] == s.row + ([u] + fields[..|fields| - 1]);
  }

  lemma PassComma(s: Reader, u: string, after: string, maxRows: nat)
    requires !s.inQuotes && s.field == ""
    ensures Reads(Place(s.(field := u), "," + after), Place(s.(row := s.row + [u]), after), maxRows)
  {
    assert ("," + after)[1..] == after;
    ReadsOne(Place(s.(field := u), "," + after), Place(s.(row := s.row + [u]), after), maxRows);
  }

  /** The reader between two lines. */
  function Between(rows: seq<Row>): Reader { Reader(rows, [], "", false) }

  function PastLine(rows: seq<Row>, rest: string, maxRows: nat): Result {
    if |rows| > maxRows then TooManyRows else Feed(Place(Between(rows), rest), maxRows)
  }

  lemma FeedLine(before: seq<Row>, e: string, u: string, p: Printer, values: seq<Value>, rest: string, maxRows: nat)
    requires Says(e, u) && RowOk(values)
    ensures Feed(Place(Between(before), e + Tail(p, values) + "\r\n" + rest), maxRows)
            == PastLine(AddRow(before, [u] + Contents(p, values)), rest, maxRows)
  {
    var start, end := Place(Between(before), e + Tail(p, values) + "\r\n" + rest), "\r\n" + rest;
    LineText(e, Tail(p, values), rest);
    ReadRow(Between(before), e, u, p, values, end, maxRows);
    ReadsFeed(start, Place(BeforeEnd(Between(before), [u] + Contents(p, values)), end), maxRows);
    LineEnd(before, [u] + Contents(p, values), rest, maxRows);
  }

  lemma LineText(e: string, tail: string, rest: string)
    ensures e + tail + "\r\n" + rest == e + (tail + ("\r\n" + rest))
  {
  }

  lemma LineEnd(before: seq<Row>, fields: Row, rest: string, maxRows: nat)
    requires fields != []
    ensures Feed(Place(BeforeEnd(Between(before), fields), "\r\n" + rest), maxRows)
            == PastLine(AddRow(before, fields), rest, maxRows)
  {
    assert ("\r\n" + rest)[1..][1..] == rest;
    assert [] + fields[..|fields| - 1] + [fields[|fields| - 1]] == fields;
  }

  lemma FeedPrintedLine(before: seq<Row>, p: Printer, values: seq<Value>, rest: string, maxRows: nat)
    requires RowOk(values)
    ensures Feed(Place(Between(before), CsvRow(p, values) + "\r\n" + rest), maxRows)
            == PastLine(AddRow(before, Fields(p, values)), rest, maxRows)
  {
    if values == [] {
      FeedLine(before, "", "", p, [], rest, maxRows);
      assert [""] + Contents(p, []) == [""] && "" + Tail(p, []) == CsvRow(p, []);
    } else {
      CellSays(p, values[0]);
      FeedLine(before, CsvCell(p, values[0]), Content(p, values[0]), p, values[1..], rest, maxRows);
      ContentsFirst(p, values);
    }
  }

  lemma Regroup<T>(a: seq<T>, b: seq<T>, c: seq<T>)
    ensures a + b + c == a + (b + c)
  {
  }

  lemma {:induction false} FeedLines(before: seq<Row>, p: Printer, rows: seq<seq<Value>>, maxRows: nat)
    requires GridOk(rows) && |before| <= maxRows
    ensures Feed(Place(Between(before), Lines(p, rows)), maxRows)
            == if |before + Kept(p, rows)| > maxRows then TooManyRows else Rows(before + Kept(p, rows))
    decreases |rows|
  {
    if rows == [] {
      assert before + Kept(p, rows) == before;
    } else {
      var first := AddRow([], Fields(p, rows[0]));
      FeedPrintedLine(before, p, rows[0], Lines(p, rows[1..]), maxRows);
      Regroup(before, first, Kept(p, rows[1..]));
      assert AddRow(before, Fields(p, rows[0])) == before + first;
      if |before + first| <= maxRows {
        assert GridOk(rows[1..]);
        FeedLines(before + first, p, rows[1..], maxRows);
      }
    }
  }

  /** All rows, unless they are too many. */
  function Limited(rows: seq<Row>, maxRows: nat): Result { if |rows| > maxRows then TooManyRows else Rows(rows) }

  lemma ReadLines(p: Printer, rows: seq<seq<Value>>, maxRows: nat)
    requires GridOk(rows)
    ensures Feed(Place(BEGIN, Lines(p, rows)), maxRows) == Limited(Kept(p, rows), maxRows)
  {
    FeedLines([], p, rows, maxRows);
    assert [] + Kept(p, rows) == Kept(p, rows);
  }

  // ---- main results ----

  /** Any printer with a byte order mark: reading gives back the guarded cells, whatever they hold. Blank
      rows alone are lost, and the only error is too many rows. */
  lemma MarkedRoundTrip(p: Printer, header: seq<string>, rows: seq<seq<Value>>, maxRows: nat)
    requires !p.Admin? && GridOk(rows)
    ensures Parsed(ToCsv(p, header, rows), maxRows) == Limited(Kept(p, [Header(header)] + rows), maxRows)
  {
    var grid := [Header(header)] + rows;
    assert ToCsv(p, header, rows)[1..] == Lines(p, grid);
    ReadLines(p, grid, maxRows);
  }

  /** When no row is blank, nothing is lost: the rows read are the guarded cells, row by row. */
  lemma {:induction false} KeptAll(p: Printer, rows: seq<seq<Value>>)
    requires forall j :: 0 <= j < |rows| ==> Fields(p, rows[j]) != [""]
    ensures |Kept(p, rows)| == |rows|
    ensures forall j :: 0 <= j < |rows| ==> Kept(p, rows)[j] == Fields(p, rows[j])
    decreases |rows|
  {
    if rows != [] {
      assert Fields(p, rows[0]) != [""];
      forall j | 0 <= j < |rows[1..]| ensures Fields(p, rows[1..][j]) != [""] {
        assert rows[1..][j] == rows[j + 1];
      }
      KeptAll(p, rows[1..]);
    }
  }

  // ---- the printer without a byte order mark ----

  /** The header's first cell begins with U+FEFF and is printed bare, so that the text begins with it. */
  predicate LeadingMark(header: seq<string>) {
    header != [] && header[0] != "" && header[0][0] == CsvReader.BOM && !Special4180(header[0])
  }

  lemma StartsWithMark(header: seq<string>, rows: seq<seq<Value>>)
    ensures Start(ToCsv(Admin, header, rows)) == 1 <==> LeadingMark(header)
  {
  }

  lemma AdminText(header: seq<string>, rows: seq<seq<Value>>)
    ensures ToCsv(Admin, header, rows) == CsvRow(Admin, Header(header)) + "\r\n" + Lines(Admin, rows)
    ensures header != [] ==>
              CsvRow(Admin, Header(header)) == AdminCell(Text(header[0])) + Tail(Admin, Header(header)[1..])
  {
    assert ([Header(header)] + rows)[1..] == rows;
  }

  /** Without a leading mark the printer round-trips like the others. */
  lemma AdminRoundTrip(header: seq<string>, rows: seq<seq<Value>>, maxRows: nat)
    requires GridOk(rows) && !LeadingMark(header)
    ensures Parsed(ToCsv(Admin, header, rows), maxRows) == Limited(Kept(Admin, [Header(header)] + rows), maxRows)
  {
    StartsWithMark(header, rows);
    ReadLines(Admin, [Header(header)] + rows, maxRows);
    assert ToCsv(Admin, header, rows)[0..] == Lines(Admin, [Header(header)] + rows);
  }

  /** The header as it is read when its leading mark is taken for a byte order mark. */
  function Stripped(header: seq<string>): Row
    requires LeadingMark(header)
  {
    [header[0][1..]] + Contents(Admin, Header(header)[1..])
  }

  lemma DropFirst(c: char, v: string, row: string, rest: string)
    ensures ([c] + v + row + "\r\n" + rest)[1..] == v + row + "\r\n" + rest
  {
  }

  lemma StrippedText(header: seq<string>, rows: seq<seq<Value>>)
    requires LeadingMark(header)
    ensures var v := header[0][1..];
            && !Special4180(v) && ToCsv(Admin, header, rows) != ""
            && ToCsv(Admin, header, rows)[1..] == v + Tail(Admin, Header(header)[1..]) + "\r\n" + Lines(Admin, rows)
  {
    AdminText(header, rows);
    var v := header[0][1..];
    assert !Special4180(v) by { assert forall j :: 0 <= j < |v| ==> v[j] == header[0][j + 1]; }
    assert header[0] == [CsvReader.BOM] + v;
    DropFirst(CsvReader.BOM, v, Tail(Admin, Header(header)[1..]), Lines(Admin, rows));
  }

  /** With a leading mark that mark is lost, and nothing else. */
  lemma AdminLosesMark(header: seq<string>, rows: seq<seq<Value>>, maxRows: nat)
    requires GridOk(rows) && LeadingMark(header)
    ensures Parsed(ToCsv(Admin, header, rows), maxRows)
            == Limited(AddRow([], Stripped(header)) + Kept(Admin, rows), maxRows)
  {
    StartsWithMark(header, rows);
    StrippedText(header, rows);
    var v, others := header[0][1..], Header(header)[1..];
    FeedLine([], v, v, Admin, others, Lines(Admin, rows), maxRows);
    var first := AddRow([], Stripped(header));
    if |first| <= maxRows { FeedLines(first, Admin, rows, maxRows); }
  }

  /** Within the row limit the printer without a mark round-trips exactly when its header does not begin
      with one. */
  lemma AdminExactly(header: seq<string>, rows: seq<seq<Value>>, maxRows: nat)
    requires GridOk(rows) && |Kept(Admin, [Header(header)] + rows)| <= maxRows
    ensures Parsed(ToCsv(Admin, header, rows), maxRows) == Rows(Kept(Admin, [Header(header)] + rows))
            <==> !LeadingMark(header)
  {
    if LeadingMark(header) {
      AdminLosesMark(header, rows, maxRows);
      MarkMatters(header, rows);
    } else {
      AdminRoundTrip(header, rows, maxRows);
    }
  }

  lemma MarkMatters(header: seq<string>, rows: seq<seq<Value>>)
    requires LeadingMark(header)
    ensures AddRow([], Stripped(header)) + Kept(Admin, rows) != Kept(Admin, [Header(header)] + rows)
  {
    var fields := Fields(Admin, Header(header));
    assert ([Header(header)] + rows)[1..] == rows;
    assert fields[0] == header[0] && |Stripped(header)[0]| < |fields[0]|;
    assert Kept(Admin, [Header(header)] + rows) == [fields] + Kept(Admin, rows);
    if Stripped(header) != [""] {
      assert (AddRow([], Stripped(header)) + Kept(Admin, rows))[0] == Stripped(header);
    }
  }

  // ---- no formulas ----

  /** A value that may be printed beginning like a formula: a number and, in one printer, a time. */
  predicate MayLookLikeFormula(p: Printer, v: Value) { !p.Admin? && (v.Finite? || (p.Analytics? && v.Stamp?)) }

  /** The cells of the row are harmless, except those of such values. */
  predicate Harmless(p: Printer, values: seq<Value>, row: Row) {
    forall j :: 0 <= j < |row| && Formula(row[j]) ==> j < |values| && MayLookLikeFormula(p, values[j])
  }

  lemma FieldsHarmless(p: Printer, values: seq<Value>)
    ensures Harmless(p, values, Fields(p, values))
  {
  }

  /** Every row that is read back is a printed one. */
  lemma {:induction false} KeptComesFrom(p: Printer, rows: seq<seq<Value>>, row: Row) returns (i: nat)
    requires row in Kept(p, rows)
    ensures i < |rows| && row == Fields(p, rows[i])
    decreases |rows|
  {
    if row == Fields(p, rows[0]) {
      i := 0;
    } else {
      assert row in Kept(p, rows[1..]);
      var k := KeptComesFrom(p, rows[1..], row);
      i := k + 1;
    }
  }

  /** Read back, no cell of a printed grid begins like a formula, except numbers and, in the analytics printer,
      times. */
  lemma NoFormulaReadBack(p: Printer, header: seq<string>, rows: seq<seq<Value>>, maxRows: nat, row: Row)
    requires GridOk(rows) && !(p.Admin? && LeadingMark(header))
    requires Parsed(ToCsv(p, header, rows), maxRows).Rows? && row in Parsed(ToCsv(p, header, rows), maxRows).rows
    ensures var grid := [Header(header)] + rows;
            exists i :: 0 <= i < |grid| && row == Fields(p, grid[i]) && Harmless(p, grid[i], row)
  {
    if p.Admin? { AdminRoundTrip(header, rows, maxRows); } else { MarkedRoundTrip(p, header, rows, maxRows); }
    var grid := [Header(header)] + rows;
    var i := KeptComesFrom(p, grid, row);
    FieldsHarmless(p, grid[i]);
  }

  /** Some cell of the rows begins like a formula. */
  predicate AnyFormula(rows: seq<Row>) {
    exists i, j :: 0 <= i < |rows| && 0 <= j < |rows[i]| && Formula(rows[i][j])
  }

  lemma AdminCellsHarmless(rows: seq<seq<Value>>)
    ensures !AnyFormula(Kept(Admin, rows))
  {
    if i, j :| 0 <= i < |Kept(Admin, rows)| && 0 <= j < |Kept(Admin, rows)[i]| && Formula(Kept(Admin, rows)[i][j]) {
      var k := KeptComesFrom(Admin, rows, Kept(Admin, rows)[i]);
      FieldsHarmless(Admin, rows[k]);
    }
  }

  lemma FirstRowFormula(first: Row, rows: seq<Row>)
    requires first != [] && !AnyFormula(rows) && forall j :: 1 <= j < |first| ==> !Formula(first[j])
    ensures AnyFormula(AddRow([], first) + rows) <==> Formula(first[0])
  {
    var all := AddRow([], first) + rows;
    if Formula(first[0]) {
      assert first != [""] && all[0] == first;
    }
    forall i, j | 0 <= i < |all| && 0 <= j < |all[i]| && Formula(all[i][j]) ensures Formula(first[0]) {
      assert all[i] == first || all[i] in rows;
    }
  }

  /** The printer without a byte order mark: read back, a cell begins like a formula exactly when a bare U+FEFF at
      the front of the header, taken for a byte order mark, hid it. */
  lemma AdminFormulaExactly(header: seq<string>, rows: seq<seq<Value>>, maxRows: nat)
    requires GridOk(rows) && Parsed(ToCsv(Admin, header, rows), maxRows).Rows?
    ensures AnyFormula(Parsed(ToCsv(Admin, header, rows), maxRows).rows)
            <==> LeadingMark(header) && Formula(header[0][1..])
  {
    if LeadingMark(header) {
      AdminLosesMark(header, rows, maxRows);
      AdminCellsHarmless(rows);
      OthersHarmless(Header(header)[1..]);
      FirstRowFormula(Stripped(header), Kept(Admin, rows));
    } else {
      AdminRoundTrip(header, rows, maxRows);
      AdminCellsHarmless([Header(header)] + rows);
    }
  }

  lemma OthersHarmless(values: seq<Value>)
    ensures forall j :: 0 <= j < |Contents(Admin, values)| ==> !Formula(Contents(Admin, values)[j])
  {
  }
}
