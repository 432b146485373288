/** The VALUES clauses of a SQL dump (backend/internal/importer/sqldump.go): splitting a list of tuples,
    splitting a tuple into cells, and what that gives back for rows printed as quoted literals.
 */
module SqlDump {
  import opened Wrappers
  import opened Spaces

  datatype Error = Unbalanced | Unterminated

  predicate IsQuote(c: char) {
    c == '\'' || c == '"'
  }

  // ---- splitting the list ----

  /** The scanner of splitValueTuples: `text` is what has been read of the current tuple, if one is open. */
  datatype Scan = Scan(depth: int, quote: Option<char>, text: Option<string>, tuples: seq<string>)

  const START := Scan(0, None, None, [])

  function Grow(text: Option<string>, more: string): Option<string> {
    match text
    case None => None
    case Some(t) => Some(t + more)
  }

  /** How many characters one turn of the loop reads: an escape takes the next one along. */
  function Width(s: string, st: Scan): nat
    requires s != ""
  {
    if st.quote.Some? && s[0] == '\\' && |s| > 1 then 2 else 1
  }

  /** One turn of the loop; None when a tuple closes that was never opened. */
  function Turn(s: string, st: Scan): Option<Scan>
    requires s != ""
  {
    var c := s[0];
    var read := st.(text := Grow(st.text, s[..Width(s, st)]));
    if st.quote.Some? then Some(if c != '\\' && c == st.quote.value then read.(quote := None) else read)
    else if IsQuote(c) then Some(read.(quote := Some(c)))
    else if c == '(' then Some(read.(depth := st.depth + 1, text := if st.depth == 0 then Some("") else read.text))
    else if c == ')' then
      if st.depth == 1 then
        if st.text.None? then None else Some(Scan(0, None, None, st.tuples + [st.text.value]))
      else Some(read.(depth := st.depth - 1))
    else Some(read)
  }

  function ScanAll(s: string, st: Scan): Option<Scan>
    decreases |s|
  {
    if s == "" then Some(st)
    else
      var next := Turn(s, st);
      if next.None? then None else ScanAll(s[Width(s, st)..], next.value)
  }

  function Split(s: string): Result<seq<string>, Error> {
    var end := ScanAll(s, START);
    if end.None? || end.value.depth != 0 then Err(Unbalanced) else Ok(end.value.tuples)
  }

  /** The text of the open tuple, for the start index the loop keeps. */
  function Open(s: string, start: int, i: nat): Option<string>
    requires start <= i <= |s|
  {
    if start < 0 then None else Some(s[start..i])
  }

  lemma OpenGrows(s: string, start: int, i: nat, n: nat)
    requires start <= i && i + n <= |s|
    ensures Grow(Open(s, start, i), s[i..][..n]) == Open(s, start, i + n)
  {
    if start >= 0 {
      assert s[start..i] + s[i..][..n] == s[start..i + n];
    }
  }

  method SplitValueTuples(s: string) returns (r: Result<seq<string>, Error>)
    ensures r == Split(s)
  {
    hide Turn, IsQuote;
    var tuples: seq<string> := [];
    var depth, start, i := 0, -1, 0;
    var inQuote: Option<char> := None;
    assert s[0..] == s;
    while i < |s|
      invariant i <= |s| && start <= i
      invariant ScanAll(s, START) == ScanAll(s[i..], Scan(depth, inQuote, Open(s, start, i), tuples))
      decreases |s| - i
    {
      var c := s[i];
      ghost var st := Scan(depth, inQuote, Open(s, start, i), tuples);
      ghost var n := Width(s[i..], st);
      OpenGrows(s, start, i, n);
      assert s[i..][n..] == s[i + n..];
      Turns(s[i..], st);
      if inQuote.Some? {
        if c == '\\' {
          i := if i + 1 < |s| then i + 2 else i + 1;
          continue;
        }
        if c == inQuote.value {
          inQuote := None;
        }
      } else if c == '\'' || c == '"' {
        inQuote := Some(c);
      } else if c == '(' {
        if depth == 0 {
          start := i + 1;
          assert s[i + 1..i + 1] == "";
        }
        depth := depth + 1;
      } else if c == ')' {
        depth := depth - 1;
        if depth == 0 {
          if start < 0 {
            return Err(Unbalanced);
          }
          tuples := tuples + [s[start..i]];
          start := -1;
        }
      }
      i := i + 1;
    }
    assert s[i..] == "";
    if depth != 0 {
      return Err(Unbalanced);
    }
    return Ok(tuples);
  }

  /** A turn, case by case. */
  lemma Turns(s: string, st: Scan)
    requires s != ""
    ensures var (c, read) := (s[0], st.(text := Grow(st.text, s[..Width(s, st)])));
            && (st.quote.Some? && c == '\\' ==> Turn(s, st) == Some(read))
            && (st.quote.Some? && c != '\\' ==> Turn(s, st) == Some(if c == st.quote.value then read.(quote := None) else read))
            && (st.quote.None? && (c == '\'' || c == '"') ==> Turn(s, st) == Some(read.(quote := Some(c))))
            && (st.quote.None? && c == '(' ==> Turn(s, st) == Some(read.(depth := st.depth + 1, text := if st.depth == 0 then Some("") else read.text)))
            && (st.quote.None? && c == ')' && st.depth != 1 ==> Turn(s, st) == Some(read.(depth := st.depth - 1)))
            && (st.quote.None? && c == ')' && st.depth == 1 && st.text.Some? ==> Turn(s, st) == Some(Scan(0, None, None, st.tuples + [st.text.value])))
            && (st.quote.None? && c == ')' && st.depth == 1 && st.text.None? ==> Turn(s, st) == None)
            && (st.quote.None? && c != '\'' && c != '"' && c != '(' && c != ')' ==> Turn(s, st) == Some(read))
  {
  }

  // ---- splitting a tuple ----

  function Unescape(c: char): char {
    match c
    case 'n' => '\n'
    case 't' => '\t'
    case 'r' => '\r'
    case _ => c
  }

  predicate EqualsNull(s: string) {
    && |s| == 4 && (s[0] == 'N' || s[0] == 'n') && (s[1] == 'U' || s[1] == 'u')
    && (s[2] == 'L' || s[2] == 'l') && (s[3] == 'L' || s[3] == 'l')
  }

  function Normalize(s: string): string {
    var t := TrimSpace(s);
    if EqualsNull(t) then "" else t
  }

  datatype Cells = Cells(quote: Option<char>, cur: string, out: seq<string>)

  /** How many characters one turn of parseSQLTuple reads. */
  function CellWidth(s: string, st: Cells): nat
    requires s != ""
  {
    if st.quote.Some? && |s| > 1 && (s[0] == '\\' || (s[0] == st.quote.value && s[1] == st.quote.value)) then 2 else 1
  }

  function CellTurn(s: string, st: Cells): Cells
    requires s != ""
  {
    var c := s[0];
    if st.quote.Some? then
      if c == '\\' && |s| > 1 then st.(cur := st.cur + [Unescape(s[1])])
      else if c == st.quote.value then
        if |s| > 1 && s[1] == st.quote.value then st.(cur := st.cur + [c]) else st.(quote := None)
      else st.(cur := st.cur + [c])
    else if IsQuote(c) then st.(quote := Some(c))
    else if c == ',' then st.(cur := "", out := st.out + [Normalize(st.cur)])
    else st.(cur := st.cur + [c])
  }

  function CellsOf(s: string, st: Cells): Result<seq<string>, Error>
    decreases |s|
  {
    if s == "" then if st.quote.Some? then Err(Unterminated) else Ok(st.out + [Normalize(st.cur)])
    else CellsOf(s[CellWidth(s, st)..], CellTurn(s, st))
  }

  function Parse(tuple: string): Result<seq<string>, Error> {
    CellsOf(tuple, Cells(None, "", []))
  }

  method ParseSQLTuple(tuple: string) returns (r: Result<seq<string>, Error>)
    ensures r == Parse(tuple)
  {
    var out: seq<string> := [];
    var cur := "";
    var inQuote: Option<char> := None;
    var i := 0;
    assert tuple[0..] == tuple;
    while i < |tuple|
      invariant i <= |tuple|
      invariant Parse(tuple) == CellsOf(tuple[i..], Cells(inQuote, cur, out))
      decreases |tuple| - i
    {
      var c := tuple[i];
      ghost var n := CellWidth(tuple[i..], Cells(inQuote, cur, out));
      assert tuple[i..][n..] == tuple[i + n..];
      if inQuote.Some? {
        if c == '\\' && i + 1 < |tuple| {
          cur := cur + [Unescape(tuple[i + 1])];
          i := i + 2;
          continue;
        }
        if c == inQuote.value {
          if i + 1 < |tuple| && tuple[i + 1] == inQuote.value {
            cur := cur + [c];
            i := i + 2;
            continue;
          }
          inQuote := None;
        } else {
          cur := cur + [c];
        }
      } else if c == '\'' || c == '"' {
        inQuote := Some(c);
      } else if c == ',' {
        out, cur := out + [Normalize(cur)], "";
      } else {
        cur := cur + [c];
      }
      i := i + 1;
    }
    assert tuple[i..] == "";
    if inQuote.Some? {
      return Err(Unterminated);
    }
    return Ok(out + [Normalize(cur)]);
  }

  // ---- printing ----

  /** How a printer writes the quote character inside a literal. */
  datatype Style = Backslash | Doubled

  /** A cell to print: white space before the literal, its quote character and its style. */
  datatype Cell = Cell(text: string, quote: char, style: Style, gap: string)

  predicate Printable(c: Cell) {
    IsQuote(c.quote) && forall i | 0 <= i < |c.gap| :: IsSpace(c.gap[i])
  }

  function EscapeChar(c: char, quote: char, style: Style): string {
    if c == '\\' then ['\\', '\\']
    else if c == quote then (if style == Backslash then ['\\', c] else [c, c])
    else if style == Backslash && c == '\n' then ['\\', 'n']
    else if style == Backslash && c == '\r' then ['\\', 'r']
    else if style == Backslash && c == '\t' then ['\\', 't']
    else [c]
  }

  function Escape(s: string, quote: char, style: Style): string {
    if s == "" then "" else EscapeChar(s[0], quote, style) + Escape(s[1..], quote, style)
  }

  function PrintCell(c: Cell): string {
    c.gap + [c.quote] + Escape(c.text, c.quote, c.style) + [c.quote]
  }

  function PrintRow(row: seq<Cell>): string {
    if row == [] then "" else if |row| == 1 then PrintCell(row[0]) else PrintCell(row[0]) + "," + PrintRow(row[1..])
  }

  /** A comma with anything around it that neither opens, closes nor quotes. */
  predicate Separator(s: string) {
    forall i | 0 <= i < |s| :: !IsQuote(s[i]) && s[i] != '(' && s[i] != ')'
  }

  function PrintRows(rows: seq<seq<Cell>>, between: string): string {
    if rows == [] then ""
    else if |rows| == 1 then "(" + PrintRow(rows[0]) + ")"
    else "(" + PrintRow(rows[0]) + ")" + between + PrintRows(rows[1..], between)
  }

  // ---- splitting what was printed ----

  /** Scanning a piece of text inside an open tuple only adds it to the tuple. */
  ghost predicate Passes(piece: string, before: Scan, after: Scan) {
    forall rest {:trigger ScanAll(piece + rest, before)} :: ScanAll(piece + rest, before) == ScanAll(rest, after)
  }

  lemma PassConcat(a: string, b: string, x: Scan, y: Scan, z: Scan)
    requires Passes(a, x, y) && Passes(b, y, z)
    ensures Passes(a + b, x, z)
  {
    hide ScanAll;
    forall rest
      ensures ScanAll(a + b + rest, x) == ScanAll(rest, z)
    {
      assert a + b + rest == a + (b + rest);
    }
  }

  function Within(st: Scan, more: string): Scan {
    st.(text := Grow(st.text, more))
  }

  lemma WithinConcat(st: Scan, a: string, b: string)
    ensures Within(Within(st, a), b) == Within(st, a + b)
  {
    if st.text.Some? {
      assert st.text.value + a + b == st.text.value + (a + b);
    }
  }

  /** A piece that is read in one turn, and what the turn does. */
  lemma OneTurn(piece: string, st: Scan)
    requires piece != ""
    requires if st.quote.Some? && piece[0] == '\\' then |piece| == 2 else |piece| == 1
    ensures var (c, read) := (piece[0], Within(st, piece));
            && (st.quote.Some? && (c == '\\' || c != st.quote.value) ==> Passes(piece, st, read))
            && (st.quote.Some? && c != '\\' && c == st.quote.value ==> Passes(piece, st, read.(quote := None)))
            && (st.quote.None? && IsQuote(c) ==> Passes(piece, st, read.(quote := Some(c))))
            && (st.quote.None? && !IsQuote(c) && c != '(' && c != ')' ==> Passes(piece, st, read))
            && (st.quote.None? && c == '(' && st.depth == 0 ==> Passes(piece, st, st.(depth := 1, text := Some(""))))
            && (st.quote.None? && c == ')' && st.depth == 1 && st.text.Some? ==>
                  Passes(piece, st, Scan(0, None, None, st.tuples + [st.text.value])))
  {
    hide Turn;
    assert piece[..|piece|] == piece;
    forall rest
      ensures Turn(piece + rest, st) == Turn(piece, st)
      ensures Turn(piece, st).Some? ==> ScanAll(piece + rest, st) == ScanAll(rest, Turn(piece, st).value)
    {
      var s := piece + rest;
      assert s[0] == piece[0] && Width(s, st) == |piece| && s[..|piece|] == piece && s[|piece|..] == rest;
      SameTurn(piece, s, st);
    }
    Turns(piece, st);
  }

  lemma SameTurn(a: string, b: string, st: Scan)
    requires a != "" && b != "" && a[0] == b[0] && a[..Width(a, st)] == b[..Width(b, st)]
    ensures Turn(a, st) == Turn(b, st)
  {
  }

  lemma EscapedCharPasses(c: char, st: Scan, style: Style)
    requires st.quote.Some? && IsQuote(st.quote.value)
    ensures Passes(EscapeChar(c, st.quote.value, style), st, Within(st, EscapeChar(c, st.quote.value, style)))
  {
    hide ScanAll, Passes;
    var q := st.quote.value;
    var e := EscapeChar(c, q, style);
    if style == Doubled && c == q {
      var open := Within(st.(quote := None), [q]);
      OneTurn([q], st);
      OneTurn([q], open);
      WithinConcat(st, [q], [q]);
      assert [q] + [q] == e;
      PassConcat([q], [q], st, open, Within(st, e));
    } else {
      OneTurn(e, st);
    }
  }

  lemma NothingPasses(st: Scan)
    ensures Passes("", st, Within(st, ""))
  {
    forall rest
      ensures ScanAll("" + rest, st) == ScanAll(rest, Within(st, ""))
    {
      assert "" + rest == rest;
      if st.text.Some? {
        assert st.text.value + "" == st.text.value;
      }
    }
  }

  lemma {:induction false} EscapedPasses(s: string, st: Scan, style: Style)
    requires st.quote.Some? && IsQuote(st.quote.value)
    ensures Passes(Escape(s, st.quote.value, style), st, Within(st, Escape(s, st.quote.value, style)))
    decreases |s|
  {
    hide ScanAll, Passes, EscapeChar;
    var q := st.quote.value;
    if s == "" {
      NothingPasses(st);
    } else {
      var (a, b) := (EscapeChar(s[0], q, style), Escape(s[1..], q, style));
      EscapedCharPasses(s[0], st, style);
      EscapedPasses(s[1..], Within(st, a), style);
      WithinConcat(st, a, b);
      PassConcat(a, b, st, Within(st, a), Within(st, a + b));
    }
  }

  lemma {:induction false} PlainPasses(s: string, st: Scan)
    requires st.quote.None? && Separator(s)
    ensures Passes(s, st, Within(st, s))
    decreases |s|
  {
    hide ScanAll, Passes;
    if s == "" {
      NothingPasses(st);
    } else {
      OneTurn([s[0]], st);
      PlainPasses(s[1..], Within(st, [s[0]]));
      WithinConcat(st, [s[0]], s[1..]);
      assert [s[0]] + s[1..] == s;
      PassConcat([s[0]], s[1..], st, Within(st, [s[0]]), Within(st, s));
    }
  }

  lemma CellPasses(c: Cell, st: Scan)
    requires st.quote.None? && Printable(c)
    ensures Passes(PrintCell(c), st, Within(st, PrintCell(c)))
  {
    hide ScanAll, Passes, Escape;
    var q := [c.quote];
    var body := Escape(c.text, c.quote, c.style);
    PlainPasses(c.gap, st);
    var s1 := Within(st, c.gap);
    OneTurn(q, s1);
    WithinConcat(st, c.gap, q);
    var s2 := Within(st, c.gap + q).(quote := Some(c.quote));
    PassConcat(c.gap, q, st, s1, s2);
    EscapedPasses(c.text, s2, c.style);
    WithinConcat(st, c.gap + q, body);
    var s3 := Within(st, c.gap + q + body).(quote := Some(c.quote));
    PassConcat(c.gap + q, body, st, s2, s3);
    OneTurn(q, s3);
    WithinConcat(st, c.gap + q + body, q);
    PassConcat(c.gap + q + body, q, st, s3, Within(st, PrintCell(c)));
  }

  lemma {:induction false} RowPasses(row: seq<Cell>, st: Scan)
    requires st.quote.None? && forall c | c in row :: Printable(c)
    ensures Passes(PrintRow(row), st, Within(st, PrintRow(row)))
    decreases |row|
  {
    hide ScanAll, Passes, PrintCell, Printable;
    if row == [] {
      NothingPasses(st);
    } else {
      CellPasses(row[0], st);
      if |row| > 1 {
        var (a, b) := (PrintCell(row[0]), PrintRow(row[1..]));
        PlainPasses(",", Within(st, a));
        WithinConcat(st, a, ",");
        PassConcat(a, ",", st, Within(st, a), Within(st, a + ","));
        RowPasses(row[1..], Within(st, a + ","));
        WithinConcat(st, a + ",", b);
        PassConcat(a + ",", b, st, Within(st, a + ","), Within(st, a + "," + b));
      }
    }
  }

  /** One tuple, from its opening to its closing parenthesis. */
  lemma TuplePasses(row: seq<Cell>, tuples: seq<string>)
    requires forall c | c in row :: Printable(c)
    ensures Passes("(" + PrintRow(row) + ")", Scan(0, None, None, tuples), Scan(0, None, None, tuples + [PrintRow(row)]))
  {
    hide ScanAll, Passes, PrintRow, Printable;
    var closed := Scan(0, None, None, tuples);
    var within := Scan(1, None, Some(""), tuples);
    var body := PrintRow(row);
    OneTurn("(", closed);
    RowPasses(row, within);
    assert Within(within, body) == Scan(1, None, Some(body), tuples) by { assert "" + body == body; }
    PassConcat("(", body, closed, within, Within(within, body));
    OneTurn(")", Within(within, body));
    PassConcat("(" + body, ")", closed, Within(within, body), Scan(0, None, None, tuples + [body]));
  }

  function Bodies(rows: seq<seq<Cell>>): seq<string> {
    if rows == [] then [] else [PrintRow(rows[0])] + Bodies(rows[1..])
  }

  ghost predicate AllPrintable(rows: seq<seq<Cell>>) {
    forall row | row in rows :: forall c | c in row :: Printable(c)
  }

  lemma {:induction false} RowsPass(rows: seq<seq<Cell>>, between: string, tuples: seq<string>)
    requires AllPrintable(rows) && Separator(between)
    ensures Passes(PrintRows(rows, between), Scan(0, None, None, tuples), Scan(0, None, None, tuples + Bodies(rows)))
    decreases |rows|
  {
    hide ScanAll, Passes, PrintRow, Printable, Separator;
    var closed := Scan(0, None, None, tuples);
    if rows == [] {
      NothingPasses(closed);
      assert tuples + [] == tuples;
    } else {
      var one := "(" + PrintRow(rows[0]) + ")";
      var after := Scan(0, None, None, tuples + [PrintRow(rows[0])]);
      assert rows[0] in rows && forall row | row in rows[1..] :: row in rows;
      TuplePasses(rows[0], tuples);
      assert tuples + Bodies(rows) == tuples + [PrintRow(rows[0])] + Bodies(rows[1..]);
      if |rows| > 1 {
        PlainPasses(between, after);
        PassConcat(one, between, closed, after, after);
        RowsPass(rows[1..], between, after.tuples);
        PassConcat(one + between, PrintRows(rows[1..], between), closed, after, Scan(0, None, None, tuples + Bodies(rows)));
      } else {
        assert Bodies(rows[1..]) == [];
        assert tuples + Bodies(rows) == after.tuples;
        assert PrintRows(rows, between) == one;
      }
    }
  }

  /** Whatever commas, parentheses, quotes or backslashes the cells hold, the list splits into one tuple a row. */
  lemma SplitsPrinted(rows: seq<seq<Cell>>, between: string)
    requires AllPrintable(rows) && Separator(between)
    ensures Split(PrintRows(rows, between)) == Ok(Bodies(rows))
  {
    hide PrintRows, Bodies;
    RowsPass(rows, between, []);
    assert PrintRows(rows, between) + "" == PrintRows(rows, between);
    assert [] + Bodies(rows) == Bodies(rows);
    assert ScanAll(PrintRows(rows, between) + "", START) == ScanAll("", Scan(0, None, None, [] + Bodies(rows)));
  }

  // ---- parsing what was printed ----

  lemma CellsStep(s: string, rest: string, st: Cells)
    requires s != "" && CellWidth(s + rest, st) == |s|
    ensures CellsOf(s + rest, st) == CellsOf(rest, CellTurn(s + rest, st))
  {
    assert (s + rest)[|s|..] == rest;
  }

  lemma EscapedCharParses(c: char, rest: string, st: Cells, style: Style)
    requires st.quote.Some? && IsQuote(st.quote.value)
    ensures CellsOf(EscapeChar(c, st.quote.value, style) + rest, st) == CellsOf(rest, st.(cur := st.cur + [c]))
  {
    hide CellsOf;
    var e := EscapeChar(c, st.quote.value, style);
    assert (e + rest)[0] == e[0];
    if |e| == 2 {
      assert (e + rest)[1] == e[1];
    }
    CellsStep(e, rest, st);
  }

  lemma {:induction false} EscapedParses(s: string, rest: string, st: Cells, style: Style)
    requires st.quote.Some? && IsQuote(st.quote.value)
    ensures CellsOf(Escape(s, st.quote.value, style) + rest, st) == CellsOf(rest, st.(cur := st.cur + s))
    decreases |s|
  {
    hide CellsOf, EscapeChar;
    var q := st.quote.value;
    if s == "" {
      assert "" + rest == rest && st.cur + "" == st.cur;
    } else {
      var (a, b) := (EscapeChar(s[0], q, style), Escape(s[1..], q, style));
      assert a + b + rest == a + (b + rest);
      EscapedCharParses(s[0], b + rest, st, style);
      EscapedParses(s[1..], rest, st.(cur := st.cur + [s[0]]), style);
      assert st.cur + [s[0]] + s[1..] == st.cur + s;
    }
  }

  lemma {:induction false} GapParses(gap: string, rest: string, st: Cells)
    requires st.quote.None? && forall i | 0 <= i < |gap| :: IsSpace(gap[i])
    ensures CellsOf(gap + rest, st) == CellsOf(rest, st.(cur := st.cur + gap))
    decreases |gap|
  {
    hide CellsOf;
    if gap == "" {
      assert "" + rest == rest && st.cur + "" == st.cur;
    } else {
      assert gap + rest == [gap[0]] + (gap[1..] + rest);
      CellsStep([gap[0]], gap[1..] + rest, st);
      GapParses(gap[1..], rest, st.(cur := st.cur + [gap[0]]));
      assert st.cur + [gap[0]] + gap[1..] == st.cur + gap;
    }
  }

  /** A printed cell, up to the comma or the end behind it. */
  lemma CellParses(c: Cell, rest: string, out: seq<string>)
    requires Printable(c) && (rest == "" || rest[0] == ',')
    ensures CellsOf(PrintCell(c) + rest, Cells(None, "", out)) == CellsOf(rest, Cells(None, c.gap + c.text, out))
  {
    hide CellsOf, Escape;
    var body := Escape(c.text, c.quote, c.style);
    var q := [c.quote];
    var st := Cells(None, "", out);
    assert PrintCell(c) + rest == c.gap + (q + (body + (q + rest)));
    GapParses(c.gap, q + (body + (q + rest)), st);
    assert "" + c.gap == c.gap;
    CellsStep(q, body + (q + rest), st.(cur := c.gap));
    EscapedParses(c.text, q + rest, Cells(Some(c.quote), c.gap, out), c.style);
    CellsStep(q, rest, Cells(Some(c.quote), c.gap + c.text, out));
  }

  function Texts(row: seq<Cell>): seq<string> {
    if row == [] then [] else [Normalize(row[0].text)] + Texts(row[1..])
  }

  lemma NormalizeSkips(gap: string, text: string)
    requires forall i | 0 <= i < |gap| :: IsSpace(gap[i])
    ensures Normalize(gap + text) == Normalize(text)
  {
    TrimSkips(gap, text);
  }

  /** The last cell of a tuple. */
  lemma LastCellParses(c: Cell, out: seq<string>)
    requires Printable(c)
    ensures CellsOf(PrintCell(c), Cells(None, "", out)) == Ok(out + [Normalize(c.text)])
  {
    hide PrintCell, Normalize;
    CellParses(c, "", out);
    NormalizeSkips(c.gap, c.text);
    assert PrintCell(c) + "" == PrintCell(c);
  }

  /** A cell with more behind it. */
  lemma FirstCellParses(c: Cell, rest: string, out: seq<string>)
    requires Printable(c)
    ensures CellsOf(PrintCell(c) + "," + rest, Cells(None, "", out)) == CellsOf(rest, Cells(None, "", out + [Normalize(c.text)]))
  {
    hide PrintCell, Normalize, CellsOf;
    CellParses(c, "," + rest, out);
    NormalizeSkips(c.gap, c.text);
    assert PrintCell(c) + ("," + rest) == PrintCell(c) + "," + rest;
    CellsStep(",", rest, Cells(None, c.gap + c.text, out));
  }

  lemma {:induction false} RowParses(row: seq<Cell>, out: seq<string>)
    requires row != [] && forall c | c in row :: Printable(c)
    ensures CellsOf(PrintRow(row), Cells(None, "", out)) == Ok(out + Texts(row))
    decreases |row|
  {
    hide PrintCell, Normalize, CellsOf, Printable;
    var c := row[0];
    if |row| == 1 {
      LastCellParses(c, out);
      FirstText(row, out);
      assert out + [Normalize(c.text)] + Texts(row[1..]) == out + [Normalize(c.text)];
    } else {
      FirstCellParses(c, PrintRow(row[1..]), out);
      RowParses(row[1..], out + [Normalize(c.text)]);
      FirstText(row, out);
    }
  }

  lemma FirstText(row: seq<Cell>, out: seq<string>)
    requires row != []
    ensures out + Texts(row) == out + [Normalize(row[0].text)] + Texts(row[1..])
  {
    hide Normalize;
  }

  /** A row comes back cell by cell, each normalized, whatever its quoting. */
  lemma ParsesPrinted(row: seq<Cell>)
    requires row != [] && forall c | c in row :: Printable(c)
    ensures Parse(PrintRow(row)) == Ok(Texts(row))
  {
    hide CellsOf, PrintRow, Texts;
    RowParses(row, []);
    assert [] + Texts(row) == Texts(row);
  }

  /** The whole way: printing rows and reading them back gives the normalized cells of every row, in order. */
  lemma RoundTrip(rows: seq<seq<Cell>>, between: string, i: nat)
    requires AllPrintable(rows) && Separator(between) && i < |rows| && rows[i] != []
    ensures Split(PrintRows(rows, between)).Ok?
    ensures var tuples := Split(PrintRows(rows, between)).value;
            && |tuples| == |rows| && Parse(tuples[i]) == Ok(Texts(rows[i]))
            && |Texts(rows[i])| == |rows[i]| && forall k | 0 <= k < |rows[i]| :: Texts(rows[i])[k] == Normalize(rows[i][k].text)
  {
    hide Split, PrintRows, Parse, PrintRow, Printable;
    SplitsPrinted(rows, between);
    BodyOf(rows, i);
    assert rows[i] in rows;
    ParsesPrinted(rows[i]);
    TextsOf(rows[i]);
  }

  lemma {:induction false} BodyOf(rows: seq<seq<Cell>>, i: nat)
    requires i < |rows|
    ensures |Bodies(rows)| == |rows| && Bodies(rows)[i] == PrintRow(rows[i])
  {
    if |rows| > 1 {
      BodyOf(rows[1..], if i == 0 then 0 else i - 1);
    }
  }

  lemma {:induction false} TextsOf(row: seq<Cell>)
    ensures |Texts(row)| == |row| && forall k | 0 <= k < |row| :: Texts(row)[k] == Normalize(row[k].text)
  {
    hide Normalize;
    if row != [] {
      TextsOf(row[1..]);
    }
  }

  /** A cell comes back unchanged exactly when it has no white space around it and does not spell NULL. */
  lemma RecoveredExactly(text: string)
    ensures Normalize(text) == text <==>
            (text != "" ==> !IsSpace(text[0]) && !IsSpace(text[|text| - 1])) && !EqualsNull(text)
  {
    TrimIsTrimmed(text);
    if text == "" || (!IsSpace(text[0]) && !IsSpace(text[|text| - 1])) {
      TrimNothing(text);
    }
  }

  // ---- when splitting fails ----

  /** A tuple is open exactly at depth one and deeper. */
  predicate Balanced(st: Scan) {
    st.text.Some? <==> st.depth >= 1
  }

  lemma {:induction false} NeverStuck(s: string, st: Scan)
    requires Balanced(st)
    ensures ScanAll(s, st).Some? && Balanced(ScanAll(s, st).value)
    decreases |s|
  {
    if s != "" {
      NeverStuck(s[Width(s, st)..], Turn(s, st).value);
    }
  }

  /** Splitting fails exactly when the parentheses outside quotes do not add up at the end: the error for a
      tuple that closes without having been opened is never the one that is met. */
  lemma FailsExactly(s: string)
    ensures ScanAll(s, START).Some? && (Split(s).Err? <==> ScanAll(s, START).value.depth != 0)
  {
    NeverStuck(s, START);
  }
}
