/** The reader against a grammar of its own: every text is a list of cells with separators between them, or ends
    inside a quoted cell, and the reader returns the rows of that list. */
module CsvGrammar {
  import opened Wrappers
  import opened CsvReader
  import opened CsvPrinters
  import opened CsvRoundTrip

  /** A bare cell, or a quoted one with what follows its closing quote. */
  datatype Cell = Bare(s: string) | Quoted(s: string, tail: string)

  /** What ends a cell: a comma, or one of the three line ends. */
  datatype Separator = Comma | LF | CRLF | CR

  datatype Piece = Piece(cell: Cell, sep: Separator)

  /** What the text ends with: a last cell, or a quote that is never closed. */
  datatype Last = Closed(cell: Cell) | Open(s: string)

  // ---- its text ----

  /** No character that ends a cell. */
  predicate NoEnd(s: string) { forall j :: 0 <= j < |s| ==> s[j] != ',' && s[j] != '\n' && s[j] != '\r' }

  /** A bare cell may hold quotes, but not begin with one; what follows a closing quote as well. */
  predicate CellOk(c: Cell) {
    match c
    case Bare(s) => NoEnd(s) && (s == "" || s[0] != '"')
    case Quoted(_, tail) => NoEnd(tail) && (tail == "" || tail[0] != '"')
  }

  predicate LastOk(last: Last) { last.Closed? ==> CellOk(last.cell) }

  predicate PiecesOk(ps: seq<Piece>) { forall i :: 0 <= i < |ps| ==> CellOk(ps[i].cell) }

  function CellText(c: Cell): string {
    match c
    case Bare(s) => s
    case Quoted(s, tail) => "\"" + Doubled(s) + "\"" + tail
  }

  function SepText(sep: Separator): string {
    match sep
    case Comma => ","
    case LF => "\n"
    case CRLF => "\r\n"
    case CR => "\r"
  }

  function LastText(last: Last): string {
    match last
    case Closed(c) => CellText(c)
    case Open(s) => "\"" + Doubled(s)
  }

  function TextOf(ps: seq<Piece>, last: Last): string {
    if ps == [] then LastText(last) else CellText(ps[0].cell) + (SepText(ps[0].sep) + TextOf(ps[1..], last))
  }

  // ---- its rows ----

  function CellValue(c: Cell): string {
    match c
    case Bare(s) => s
    case Quoted(s, tail) => s + tail
  }

  /** The rows, the last one included. */
  function RowsOf(ps: seq<Piece>, last: string): (rows: seq<Row>)
    ensures rows != []
  {
    if ps == [] then [[last]]
    else
      var rest := RowsOf(ps[1..], last);
      if ps[0].sep.Comma? then [[CellValue(ps[0].cell)] + rest[0]] + rest[1..]
      else [[CellValue(ps[0].cell)]] + rest
  }

  /** The rows without the blank ones. */
  function NonBlank(rows: seq<Row>): seq<Row> {
    if rows == [] then [] else (if rows[0] == [""] then [] else [rows[0]]) + NonBlank(rows[1..])
  }

  /** What reading it should give: its rows without the blank ones, unless they are too many; a quote that is never
      closed is an error, unless the rows before it are too many already. */
  function Expected(ps: seq<Piece>, last: Last, maxRows: nat): Result {
    match last
    case Closed(c) => Limited(NonBlank(RowsOf(ps, CellValue(c))), maxRows)
    case Open(_) =>
      var rows := RowsOf(ps, "");
      if |NonBlank(rows[..|rows| - 1])| > maxRows then TooManyRows else Unterminated
  }

  // ---- reading one cell ----

  /** Characters that do not end a cell, a quote not being the first of the field. */
  lemma {:induction false} ReadPlain(s: Reader, u: string, rest: string, maxRows: nat)
    requires !s.inQuotes && NoEnd(u) && (u == "" || s.field != "" || u[0] != '"')
    ensures Reads(Place(s, u + rest), Place(s.(field := s.field + u), rest), maxRows)
    decreases |u|
  {
    if u == "" {
      assert u + rest == rest && s.field + u == s.field;
      ReadsNothing(Place(s, rest), maxRows);
    } else {
      var s' := s.(field := s.field + [u[0]]);
      assert (u + rest)[1..] == u[1..] + rest;
      assert NoEnd(u[1..]) by { assert forall j :: 0 <= j < |u[1..]| ==> u[1..][j] == u[j + 1]; }
      ReadsOne(Place(s, u + rest), Place(s', u[1..] + rest), maxRows);
      ReadPlain(s', u[1..], rest, maxRows);
      assert s'.field + u[1..] == s.field + u;
      ReadsThen(Place(s, u + rest), Place(s', u[1..] + rest), Place(s.(field := s.field + u), rest), maxRows);
    }
  }

  predicate NoQuoteNext(rest: string) { rest == "" || rest[0] != '"' }

  lemma ReadWhole(s: Reader, c: Cell, rest: string, maxRows: nat)
    requires CellOk(c) && !s.inQuotes && s.field == "" && NoQuoteNext(rest)
    ensures Reads(Place(s, CellText(c) + rest), Place(s.(field := CellValue(c)), rest), maxRows)
  {
    match c
    case Bare(u) =>
      assert "" + u == u;
      ReadPlain(s, u, rest, maxRows);
    case Quoted(u, tail) =>
      assert NoQuoteNext(tail + rest);
      ReadCell(s, Quote(u), u, tail + rest, maxRows);
      ReadPlain(s.(field := u), tail, rest, maxRows);
      assert CellText(c) + rest == Quote(u) + (tail + rest);
      ReadsThen(Place(s, Quote(u) + (tail + rest)), Place(s.(field := u), tail + rest),
                Place(s.(field := u + tail), rest), maxRows);
  }

  /** A quote that is never closed takes all the rest. */
  lemma {:induction false} FeedOpen(s: Reader, u: string, maxRows: nat)
    requires s.inQuotes
    ensures Feed(Place(s, Doubled(u)), maxRows) == Unterminated
    decreases |u|
  {
    if u != "" {
      var t := Doubled(u);
      assert if u[0] == '"' then t[1..][1..] == Doubled(u[1..]) else t[1..] == Doubled(u[1..]);
      FeedOpen(s.(field := s.field + [u[0]]), u[1..], maxRows);
    }
  }

  // ---- rows ----

  /** The rows of a text of which `row` has been read. */
  function Attached(row: Row, rows: seq<Row>): (r: seq<Row>)
    requires rows != []
    ensures |r| == |rows|
  {
    [row + rows[0]] + rows[1..]
  }

  lemma AttachComma(row: Row, v: string, rest: seq<Row>)
    requires rest != []
    ensures Attached(row, [[v] + rest[0]] + rest[1..]) == Attached(row + [v], rest)
  {
    assert row + ([v] + rest[0]) == row + [v] + rest[0];
  }

  lemma AttachEnd(row: Row, v: string, rest: seq<Row>)
    requires rest != []
    ensures Attached(row, [[v]] + rest) == [row + [v]] + Attached([], rest)
  {
    assert [] + rest[0] == rest[0];
  }

  lemma NonBlankFirst(before: seq<Row>, row: Row, rest: seq<Row>)
    ensures before + NonBlank([row] + rest) == AddRow(before, row) + NonBlank(rest)
  {
    assert ([row] + rest)[1..] == rest;
  }

  /** What is expected of a text of which the rows `before` and the cells `row` have been read. */
  function ExpectedAfter(before: seq<Row>, row: Row, ps: seq<Piece>, last: Last, maxRows: nat): Result {
    match last
    case Closed(c) => Limited(before + NonBlank(Attached(row, RowsOf(ps, CellValue(c)))), maxRows)
    case Open(_) =>
      var rows := Attached(row, RowsOf(ps, ""));
      if |before + NonBlank(rows[..|rows| - 1])| > maxRows then TooManyRows else Unterminated
  }

  /** The rows that are complete before the last one. */
  function Complete(rows: seq<Row>): seq<Row>
    requires rows != []
  {
    rows[..|rows| - 1]
  }

  lemma LineExpected(before: seq<Row>, row: Row, ps: seq<Piece>, last: Last, maxRows: nat)
    requires ps != [] && !ps[0].sep.Comma?
    ensures var rows := AddRow(before, row + [CellValue(ps[0].cell)]);
            ExpectedAfter(before, row, ps, last, maxRows)
            == if |rows| > maxRows then TooManyRows else ExpectedAfter(rows, [], ps[1..], last, maxRows)
  {
    var v := CellValue(ps[0].cell);
    var end := if last.Closed? then CellValue(last.cell) else "";
    var rest := RowsOf(ps[1..], end);
    AttachEnd(row, v, rest);
    var after := Attached([], rest);
    NonBlankFirst(before, row + [v], after);
    NonBlankFirst(before, row + [v], after[..|after| - 1]);
    assert ([row + [v]] + after)[..|after|] == [row + [v]] + after[..|after| - 1];
  }

  lemma CommaExpected(before: seq<Row>, row: Row, ps: seq<Piece>, last: Last, maxRows: nat)
    requires ps != [] && ps[0].sep.Comma?
    ensures ExpectedAfter(before, row, ps, last, maxRows)
            == ExpectedAfter(before, row + [CellValue(ps[0].cell)], ps[1..], last, maxRows)
  {
    var end := if last.Closed? then CellValue(last.cell) else "";
    AttachComma(row, CellValue(ps[0].cell), RowsOf(ps[1..], end));
  }

  /** A line end that is taken for part of the one before ends a blank row. */
  lemma BlankExpected(before: seq<Row>, ps: seq<Piece>, last: Last, maxRows: nat)
    requires ps != [] && ps[0] == Piece(Bare(""), LF) && |before| <= maxRows
    ensures ExpectedAfter(before, [], ps, last, maxRows) == ExpectedAfter(before, [], ps[1..], last, maxRows)
  {
    LineExpected(before, [], ps, last, maxRows);
  }

  // ---- reading the whole ----

  lemma LastReads(before: seq<Row>, row: Row, last: Last, maxRows: nat)
    requires LastOk(last) && |before| <= maxRows
    ensures Feed(Place(Reader(before, row, "", false), LastText(last)), maxRows)
            == ExpectedAfter(before, row, [], last, maxRows)
  {
    var s := Reader(before, row, "", false);
    match last
    case Closed(c) =>
      var v := CellValue(c);
      ReadWhole(s, c, "", maxRows);
      assert CellText(c) + "" == CellText(c);
      ReadsFeed(Place(s, CellText(c)), Place(s.(field := v), ""), maxRows);
      NonBlankFirst(before, row + [v], []);
      assert Attached(row, [[v]]) == [row + [v]] + [];
      assert AddRow(before, row + [v]) + NonBlank([]) == AddRow(before, row + [v]);
      if v == "" && row == [] { assert row + [v] == [""]; }
    case Open(u) =>
      assert ("\"" + Doubled(u))[1..] == Doubled(u);
      FeedOpen(s.(inQuotes := true), u, maxRows);
      assert before + NonBlank([]) == before;
  }

  lemma PieceReads(before: seq<Row>, row: Row, p: Piece, rest: string, maxRows: nat)
    requires CellOk(p.cell)
    ensures var s := Reader(before, row, "", false);
            Reads(Place(s, CellText(p.cell) + (SepText(p.sep) + rest)),
                  Place(s.(field := CellValue(p.cell)), SepText(p.sep) + rest), maxRows)
  {
    ReadWhole(Reader(before, row, "", false), p.cell, SepText(p.sep) + rest, maxRows);
  }

  /** Where the reader stands after a line end, and what it has left. */
  lemma LineEnds(before: seq<Row>, row: Row, v: string, sep: Separator, rest: string, maxRows: nat)
    requires !sep.Comma? && !(sep.CR? && rest != "" && rest[0] == '\n')
    ensures var rows := AddRow(before, row + [v]);
            Feed(Place(Reader(before, row, v, false), SepText(sep) + rest), maxRows)
            == if |rows| > maxRows then TooManyRows else Feed(Place(Reader(rows, [], "", false), rest), maxRows)
  {
    var t := SepText(sep) + rest;
    assert t[1..] == SepText(sep)[1..] + rest;
    if sep.CRLF? { assert t[1..][1..] == rest; }
  }

  lemma CommaPasses(before: seq<Row>, row: Row, v: string, rest: string, maxRows: nat)
    ensures Feed(Place(Reader(before, row, v, false), "," + rest), maxRows)
            == Feed(Place(Reader(before, row + [v], "", false), rest), maxRows)
  {
    assert ("," + rest)[1..] == rest;
  }

  /** A carriage return and a line feed are one line end, wherever they come from. */
  lemma SplitEnds(before: seq<Row>, row: Row, v: string, rest: string, next: string, maxRows: nat)
    requires rest == "\n" + next
    ensures var rows := AddRow(before, row + [v]);
            Feed(Place(Reader(before, row, v, false), SepText(CR) + rest), maxRows)
            == if |rows| > maxRows then TooManyRows else Feed(Place(Reader(rows, [], "", false), next), maxRows)
  {
    LineEnds(before, row, v, CRLF, next, maxRows);
    assert "\r" + rest == "\r\n" + next;
  }

  /** A text that begins with a line feed begins with a blank line. */
  lemma StartsWithLF(ps: seq<Piece>, last: Last)
    requires PiecesOk(ps) && LastOk(last)
    requires var t := TextOf(ps, last); t != "" && t[0] == '\n'
    ensures ps != [] && ps[0] == Piece(Bare(""), LF) && TextOf(ps, last) == "\n" + TextOf(ps[1..], last)
  {
    if ps != [] { assert CellOk(ps[0].cell); }
  }

  lemma {:induction false} TextReads(before: seq<Row>, row: Row, ps: seq<Piece>, last: Last, maxRows: nat)
    requires PiecesOk(ps) && LastOk(last) && |before| <= maxRows
    ensures Feed(Place(Reader(before, row, "", false), TextOf(ps, last)), maxRows)
            == ExpectedAfter(before, row, ps, last, maxRows)
    decreases |ps|, 1
  {
    if ps == [] {
      LastReads(before, row, last, maxRows);
    } else {
      var v, rest := CellValue(ps[0].cell), TextOf(ps[1..], last);
      PieceReads(before, row, ps[0], rest, maxRows);
      ReadsFeed(Place(Reader(before, row, "", false), TextOf(ps, last)),
                Place(Reader(before, row, v, false), SepText(ps[0].sep) + rest), maxRows);
      TailOk(ps);
      if ps[0].sep.Comma? {
        CommaPasses(before, row, v, rest, maxRows);
        CommaExpected(before, row, ps, last, maxRows);
        TextReads(before, row + [v], ps[1..], last, maxRows);
      } else {
        LineReads(before, row, ps, last, maxRows);
      }
    }
  }

  lemma TailOk(ps: seq<Piece>)
    requires PiecesOk(ps) && ps != []
    ensures CellOk(ps[0].cell) && PiecesOk(ps[1..])
  {
    assert forall i :: 0 <= i < |ps[1..]| ==> ps[1..][i] == ps[i + 1];
  }

  lemma {:induction false} LineReads(before: seq<Row>, row: Row, ps: seq<Piece>, last: Last, maxRows: nat)
    requires PiecesOk(ps) && LastOk(last) && |before| <= maxRows && ps != [] && !ps[0].sep.Comma?
    ensures var t := SepText(ps[0].sep) + TextOf(ps[1..], last);
            Feed(Place(Reader(before, row, CellValue(ps[0].cell), false), t), maxRows)
            == ExpectedAfter(before, row, ps, last, maxRows)
    decreases |ps|, 0
  {
    var v, rest := CellValue(ps[0].cell), TextOf(ps[1..], last);
    var rows := AddRow(before, row + [v]);
    LineExpected(before, row, ps, last, maxRows);
    TailOk(ps);
    if ps[0].sep.CR? && rest != "" && rest[0] == '\n' {
      StartsWithLF(ps[1..], last);
      SplitEnds(before, row, v, rest, TextOf(ps[1..][1..], last), maxRows);
      if |rows| <= maxRows { BlankReads(rows, ps[1..], last, maxRows); }
    } else {
      LineEnds(before, row, v, ps[0].sep, rest, maxRows);
      if |rows| <= maxRows { TextReads(rows, [], ps[1..], last, maxRows); }
    }
  }

  lemma {:induction false} BlankReads(before: seq<Row>, ps: seq<Piece>, last: Last, maxRows: nat)
    requires PiecesOk(ps) && LastOk(last) && |before| <= maxRows && ps != [] && ps[0] == Piece(Bare(""), LF)
    ensures Feed(Place(Reader(before, [], "", false), TextOf(ps[1..], last)), maxRows)
            == ExpectedAfter(before, [], ps, last, maxRows)
    decreases |ps|, 0
  {
    TailOk(ps);
    BlankExpected(before, ps, last, maxRows);
    TextReads(before, [], ps[1..], last, maxRows);
  }

  // ---- every text is of this form ----

  /** What comes before the next separator. */
  lemma {:induction false} SplitPlain(t: string) returns (u: string, rest: string)
    ensures t == u + rest && NoEnd(u) && (rest == "" || rest[0] in ",\n\r")
    decreases |t|
  {
    if t == "" || t[0] in ",\n\r" {
      u, rest := "", t;
    } else {
      var v;
      v, rest := SplitPlain(t[1..]);
      u := [t[0]] + v;
    }
  }

  lemma DoubledFirst(c: char, v: string)
    ensures Doubled([c] + v) == (if c == '"' then "\"\"" else [c]) + Doubled(v)
  {
    assert ([c] + v)[1..] == v;
  }

  /** What comes before the closing quote; without one, all of it. */
  lemma {:induction false} SplitQuoted(t: string) returns (u: string, closed: bool, rest: string)
    ensures closed ==> t == Doubled(u) + ("\"" + rest) && NoQuoteNext(rest)
    ensures !closed ==> t == Doubled(u)
    decreases |t|, 1
  {
    if t == "" {
      u, closed, rest := "", false, "";
    } else if t[0] == '"' && NoQuoteNext(t[1..]) {
      u, closed, rest := "", true, t[1..];
    } else {
      u, closed, rest := SplitLater(t);
    }
  }

  lemma {:induction false} SplitLater(t: string) returns (u: string, closed: bool, rest: string)
    requires t != "" && (t[0] == '"' ==> !NoQuoteNext(t[1..]))
    ensures closed ==> t == Doubled(u) + ("\"" + rest) && NoQuoteNext(rest)
    ensures !closed ==> t == Doubled(u)
    decreases |t|, 0
  {
    var first := if t[0] == '"' then "\"\"" else [t[0]];
    var next := t[|first|..];
    assert t == first + next;
    var v;
    v, closed, rest := SplitQuoted(next);
    u := [t[0]] + v;
    DoubledFirst(t[0], v);
    Regroup(first, Doubled(v), "\"" + rest);
  }

  lemma SplitCell(t: string) returns (last: Last, rest: string)
    ensures LastOk(last) && t == LastText(last) + rest
    ensures rest == "" || (last.Closed? && rest[0] in ",\n\r")
  {
    if t != "" && t[0] == '"' {
      var u, closed, after := SplitQuoted(t[1..]);
      if closed {
        var tail;
        tail, rest := SplitPlain(after);
        last := Closed(Quoted(u, tail));
        assert t == "\"" + t[1..];
      } else {
        last, rest := Open(u), "";
        assert t == "\"" + t[1..];
      }
    } else {
      var u;
      u, rest := SplitPlain(t);
      last := Closed(Bare(u));
    }
  }

  lemma SplitSeparator(t: string) returns (sep: Separator, rest: string)
    requires t != "" && t[0] in ",\n\r"
    ensures t == SepText(sep) + rest
  {
    if t[0] == '\r' && |t| > 1 && t[1] == '\n' {
      sep, rest := CRLF, t[2..];
    } else {
      sep, rest := if t[0] == ',' then Comma else if t[0] == '\n' then LF else CR, t[1..];
    }
  }

  /** Every text is the text of such a list. */
  lemma {:induction false} EveryText(t: string) returns (ps: seq<Piece>, last: Last)
    ensures PiecesOk(ps) && LastOk(last) && TextOf(ps, last) == t
    decreases |t|
  {
    var rest;
    last, rest := SplitCell(t);
    if rest == "" {
      ps := [];
    } else {
      var sep, next := SplitSeparator(rest);
      var first, more := last.cell, [];
      more, last := EveryText(next);
      ps := [Piece(first, sep)] + more;
      assert ps[1..] == more;
    }
  }

  // ---- main results ----

  /** Cells bare or quoted, rows ended by line feeds, carriage returns or both, the last row with or without an
      end, with or without a byte order mark: the reader returns the rows that are not blank, or an error exactly
      when they are too many or the text ends inside a quoted cell. */
  lemma ReaderExactly(ps: seq<Piece>, last: Last, maxRows: nat)
    requires PiecesOk(ps) && LastOk(last)
    ensures Parsed([BOM] + TextOf(ps, last), maxRows) == Expected(ps, last, maxRows)
    ensures var t := TextOf(ps, last);
            t == "" || t[0] != BOM ==> Parsed(t, maxRows) == Expected(ps, last, maxRows)
  {
    var t := TextOf(ps, last);
    assert ([BOM] + t)[1..] == t && t[0..] == t;
    TextReads([], [], ps, last, maxRows);
    var end := if last.Closed? then CellValue(last.cell) else "";
    var rows := RowsOf(ps, end);
    assert Attached([], rows) == rows by { assert [] + rows[0] == rows[0]; }
    assert [] + NonBlank(rows) == NonBlank(rows);
    assert [] + NonBlank(Complete(rows)) == NonBlank(Complete(rows));
  }

  /** The text is an error for its quotes exactly when it ends inside a quoted cell, with few enough rows before. */
  lemma UnterminatedExactly(text: string, maxRows: nat)
    ensures Parsed(text, maxRows).Unterminated? <==>
            exists ps, u :: PiecesOk(ps) && text[Start(text)..] == TextOf(ps, Open(u))
                            && |NonBlank(Complete(RowsOf(ps, "")))| <= maxRows
  {
    var t := text[Start(text)..];
    var ps, last := EveryText(t);
    Unmarked(text, ps, last, maxRows);
    if last.Open? && Parsed(text, maxRows).Unterminated? {
      assert t == TextOf(ps, Open(last.s));
    }
    if qs, u :| PiecesOk(qs) && t == TextOf(qs, Open(u)) && |NonBlank(Complete(RowsOf(qs, "")))| <= maxRows {
      Unmarked(text, qs, Open(u), maxRows);
    }
  }

  lemma Unmarked(text: string, ps: seq<Piece>, last: Last, maxRows: nat)
    requires PiecesOk(ps) && LastOk(last) && text[Start(text)..] == TextOf(ps, last)
    ensures Parsed(text, maxRows) == Expected(ps, last, maxRows)
  {
    ReaderExactly(ps, last, maxRows);
    assert Parsed(text, maxRows) == Feed(Place(BEGIN, TextOf(ps, last)), maxRows);
    assert ([BOM] + TextOf(ps, last))[1..] == TextOf(ps, last);
  }
}
