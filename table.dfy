/** The CLI's text output: `stripAnsi`, `padString`, `getValue`, the column
    widths, `renderTable` in its CSV and table forms, and `printKeyValue`.
    picocolors styling is modelled as the SGR escape sequences it wraps
    around a string when colours are on, and as the identity when they are
    off. */
module Table {
  import opened Wrappers
  import opened Text

  const Esc: char := '\U{1B}'

  /** A character the pattern `[0-9;]` accepts. */
  predicate IsParamChar(c: char) {
    IsDigit(c) || c == ';'
  }

  /** Length of the longest prefix of `s` made of digits and semicolons. */
  function ParamRun(s: string): (k: nat)
    ensures k <= |s|
  {
    if s == [] || !IsParamChar(s[0]) then 0 else 1 + ParamRun(s[1..])
  }

  /** Length of the match of `\x1b\[[0-9;]*m` at the front of `s`, or 0 when
      the pattern does not match there. The run of parameters is greedy and
      no parameter character is an `m`, so the match is unique. */
  function EscapeLength(s: string): (n: nat)
    ensures n <= |s|
  {
    if |s| >= 2 && s[0] == Esc && s[1] == '[' then
      var k := ParamRun(s[2..]);
      if 2 + k < |s| && s[2 + k] == 'm' then 3 + k else 0
    else 0
  }

  /** `str.replace(/\x1b\[[0-9;]*m/g, '')`: scanning from the left, every
      match is removed and the scan resumes after it; where nothing matches
      one character is kept. */
  function StripAnsi(s: string): (r: string)
    ensures |r| <= |s|
    decreases |s|
  {
    if s == [] then []
    else if s[0] != Esc then [s[0]] + StripAnsi(s[1..])
    else
      var n := EscapeLength(s);
      if n > 0 then StripAnsi(s[n..]) else [s[0]] + StripAnsi(s[1..])
  }

  /** Text without an escape character passes through untouched, and so
      does such a prefix of any text. */
  lemma {:induction false} StripAnsiPlainPrefix(x: string, y: string)
    requires Esc !in x
    ensures StripAnsi(x + y) == x + StripAnsi(y)
    decreases |x|
  {
    if x == [] {
      assert x + y == y;
    } else {
      assert x == [x[0]] + x[1..];
      StripAnsiPlainPrefix(x[1..], y);
      StripAnsiKeepsPlainChar(x, y);
    }
  }

  /** A first character that is not an escape is kept. */
  lemma StripAnsiKeepsPlainChar(x: string, y: string)
    requires x != [] && x[0] != Esc
    ensures StripAnsi(x + y) == [x[0]] + StripAnsi(x[1..] + y)
  {
    var s := x + y;
    assert s[0] == x[0];
    assert s[1..] == x[1..] + y;
  }

  lemma StripAnsiPlain(x: string)
    requires Esc !in x
    ensures StripAnsi(x) == x
  {
    StripAnsiPlainPrefix(x, []);
    assert x + [] == x;
  }

  /** A text that cannot continue an escape sequence begun before it: it is
      empty or starts with something that is neither `[`, a parameter nor
      `m`. Spaces and escape characters are such barriers. */
  predicate Barrier(y: string) {
    y == [] || !(IsParamChar(y[0]) || y[0] == '[' || y[0] == 'm')
  }

  lemma {:induction false} ParamRunBarrier(x: string, y: string)
    requires Barrier(y)
    ensures ParamRun(x + y) == ParamRun(x)
    decreases |x|
  {
    if x != [] && IsParamChar(x[0]) {
      assert (x + y)[1..] == x[1..] + y;
      ParamRunBarrier(x[1..], y);
    }
  }

  lemma EscapeLengthBarrier(x: string, y: string)
    requires x != [] && Barrier(y)
    ensures EscapeLength(x + y) == EscapeLength(x)
  {
    var s := x + y;
    if |x| >= 2 && x[0] == Esc && x[1] == '[' {
      assert s[2..] == x[2..] + y;
      ParamRunBarrier(x[2..], y);
    }
  }

  /** Stripping distributes over a concatenation whose second part is a
      barrier: no escape sequence straddles the seam. */
  lemma {:induction false} StripAnsiConcat(x: string, y: string)
    requires Barrier(y)
    ensures StripAnsi(x + y) == StripAnsi(x) + StripAnsi(y)
    decreases |x|
  {
    if x == [] {
      assert x + y == y;
    } else {
      var n := EscapeLength(x);
      EscapeLengthBarrier(x, y);
      if n > 0 {
        assert (x + y)[n..] == x[n..] + y;
        StripAnsiConcat(x[n..], y);
      } else {
        assert (x + y)[1..] == x[1..] + y;
        StripAnsiConcat(x[1..], y);
      }
    }
  }

  /** The global replacement is not idempotent: removing a sequence can
      join its neighbours into a new one. */
  lemma StripAnsiNotIdempotent()
    ensures StripAnsi([Esc, Esc, '[', 'm', '[', 'm']) == [Esc, '[', 'm']
    ensures StripAnsi([Esc, '[', 'm']) == []
  {
    var s := [Esc, Esc, '[', 'm', '[', 'm'];
    assert EscapeLength(s) == 0;
    assert s[1..] == [Esc, '[', 'm', '[', 'm'];
    assert EscapeLength(s[1..]) == 3;
    assert s[1..][3..] == ['[', 'm'];
    assert StripAnsi(['[', 'm']) == ['[', 'm'] by {
      StripAnsiPlain(['[', 'm']);
    }
    assert EscapeLength([Esc, '[', 'm']) == 3;
    assert [Esc, '[', 'm'][3..] == [];
  }

  /** The picocolors styles the CLI uses. */
  datatype Color = Bold | Cyan | Dim | Red | Yellow

  function OpenCode(c: Color): nat {
    match c
    case Bold => 1
    case Cyan => 36
    case Dim => 2
    case Red => 31
    case Yellow => 33
  }

  function CloseCode(c: Color): nat {
    match c
    case Bold => 22
    case Cyan => 39
    case Dim => 22
    case Red => 39
    case Yellow => 39
  }

  /** The escape sequence `ESC [ code m`. */
  function Sgr(code: nat): string {
    [Esc, '['] + NatToString(code) + "m"
  }

  /** `pc.bold(s)`, `pc.cyan(s)`, `pc.red(s)`, ...: wrapped in the opening and
      closing sequences when colours are on, unchanged otherwise. */
  function Paint(c: Color, s: string, colors: bool): string {
    if colors then Sgr(OpenCode(c)) + s + Sgr(CloseCode(c)) else s
  }

  lemma {:induction false} ParamRunOfDigits(ds: string, rest: string)
    requires forall i :: 0 <= i < |ds| ==> IsDigit(ds[i])
    requires rest == [] || !IsParamChar(rest[0])
    ensures ParamRun(ds + rest) == |ds|
    decreases |ds|
  {
    if ds != [] {
      assert (ds + rest)[1..] == ds[1..] + rest;
      ParamRunOfDigits(ds[1..], rest);
    }
  }

  /** An SGR sequence is one match of the pattern, whatever follows it. */
  lemma SgrMatches(code: nat, rest: string)
    ensures EscapeLength(Sgr(code) + rest) == |Sgr(code)|
  {
    var ds := NatToString(code);
    var s := Sgr(code) + rest;
    assert s[2..] == ds + ("m" + rest);
    ParamRunOfDigits(ds, "m" + rest);
  }

  lemma StripAnsiDropsSgr(code: nat, rest: string)
    ensures StripAnsi(Sgr(code) + rest) == StripAnsi(rest)
  {
    SgrMatches(code, rest);
    assert (Sgr(code) + rest)[|Sgr(code)|..] == rest;
  }

  /** Stripping undoes styling, coloured or not. */
  lemma StripAnsiUndoesPaint(c: Color, s: string, colors: bool)
    ensures StripAnsi(Paint(c, s, colors)) == StripAnsi(s)
  {
    if colors {
      var close := Sgr(CloseCode(c));
      assert Paint(c, s, colors) == Sgr(OpenCode(c)) + (s + close);
      StripAnsiDropsSgr(OpenCode(c), s + close);
      StripAnsiConcat(s, close);
      StripAnsiDropsSgr(CloseCode(c), []);
      assert close + [] == close;
    }
  }

  datatype Align = Left | Right | Center

  function Max(a: int, b: int): int {
    if a >= b then a else b
  }

  /** How many of the `p` padding spaces go before the text. */
  function LeftPadding(p: nat, align: Align): (l: nat)
    ensures l <= p
  {
    match align
    case Right => p
    case Center => p / 2
    case Left => 0
  }

  /** `padString(str, width, align)`: `str` kept whole, with padding spaces
      around it up to `width` visible characters. */
  function PadString(str: string, width: int, align: Align): (r: string)
    ensures |r| == |str| + Shortfall(str, width)
  {
    Padded(str, Shortfall(str, width), align)
  }

  /** How many visible characters `str` is short of `width`. */
  function Shortfall(str: string, width: int): nat {
    Max(0, width - |StripAnsi(str)|)
  }

  /** `str` with `p` padding spaces placed as the alignment says. */
  function Padded(str: string, p: nat, align: Align): (r: string)
    ensures |r| == |str| + p
  {
    match align
    case Right => Spaces(p) + str
    case Center => Spaces(p / 2) + str + Spaces(p - p / 2)
    case Left => str + Spaces(p)
  }

  /** The padding spaces all go before the text, all after it, or are
      split with the odd one after, as the alignment says. */
  lemma PadStringLayout(str: string, width: int, align: Align)
    ensures var p := Shortfall(str, width);
      PadString(str, width, align) == Spaces(LeftPadding(p, align)) + str + Spaces(p - LeftPadding(p, align))
  {
    PaddedLayout(str, Shortfall(str, width), align);
  }

  lemma PaddedLayout(str: string, p: nat, align: Align)
    ensures Padded(str, p, align) == Spaces(LeftPadding(p, align)) + str + Spaces(p - LeftPadding(p, align))
  {
    match align
    case Right => assert Spaces(0) == [];
    case Center =>
    case Left => assert Spaces(0) == [];
  }

  lemma SpacesArePlain(n: nat)
    ensures Esc !in Spaces(n) && Barrier(Spaces(n)) && StripAnsi(Spaces(n)) == Spaces(n)
  {
    StripAnsiPlain(Spaces(n));
  }

  /** What `padString` shows: the visible text with `p` spaces split around
      it as the alignment says, `p` being what is missing to `width`; the
      visible length is `max(width, visible length of str)`. */
  lemma PadStringVisible(str: string, width: int, align: Align)
    ensures var p := Shortfall(str, width);
      var l := LeftPadding(p, align);
      && StripAnsi(PadString(str, width, align)) == Spaces(l) + StripAnsi(str) + Spaces(p - l)
      && |StripAnsi(PadString(str, width, align))| == Max(width, |StripAnsi(str)|)
  {
    var p := Shortfall(str, width);
    assert PadString(str, width, align) == Padded(str, p, align);
    PaddedVisible(str, p, align);
  }

  /** Stripping keeps the padding spaces on both sides of a string. */
  lemma PaddedVisible(str: string, p: nat, align: Align)
    ensures var l := LeftPadding(p, align);
      && StripAnsi(Padded(str, p, align)) == Spaces(l) + StripAnsi(str) + Spaces(p - l)
      && |StripAnsi(Padded(str, p, align))| == p + |StripAnsi(str)|
  {
    var l := LeftPadding(p, align);
    PaddedLayout(str, p, align);
    SpacesArePlain(l);
    SpacesArePlain(p - l);
    StripAnsiBetweenPlain(Spaces(l), str, Spaces(p - l));
  }

  /** Plain text around a string is kept as it is when stripping. */
  lemma StripAnsiBetweenPlain(before: string, str: string, after: string)
    requires Esc !in before && Esc !in after && Barrier(after)
    ensures StripAnsi(before + str + after) == before + StripAnsi(str) + after
  {
    assert before + str + after == before + (str + after);
    StripAnsiPlainPrefix(before, str + after);
    StripAnsiConcat(str, after);
    StripAnsiPlain(after);
  }

  /** A cell value: `null`/`undefined`, a string or an integer. */
  datatype Value = Null | Str(s: string) | Num(n: int)

  /** One column: how to read its value from a row, its header, alignment
      (`'left'` when absent), explicit width and colouring. */
  datatype Column<!T> = Column(key: T -> Value, header: string, align: Align, width: Option<nat>, color: Option<string -> string>)

  /** `String(value ?? '')`. */
  function Display(v: Value): (r: string)
    ensures v.Null? ==> r == ""
    ensures v.Num? ==> ParseInt(r) == Some(v.n)
  {
    match v
    case Null => ""
    case Str(s) => s
    case Num(n) =>
      ParseIntReadsDecimalPrefix(n, []);
      assert IntToString(n) + [] == IntToString(n);
      IntToString(n)
  }

  /** `getValue(row, column)`. */
  function GetValue<T>(row: T, col: Column<T>): string {
    Display(col.key(row))
  }

  /** `Math.max(...cells.map(c => stripAnsi(c).length), 0)`. */
  function MaxVisible(cells: seq<string>): (m: nat)
    ensures forall i :: 0 <= i < |cells| ==> |StripAnsi(cells[i])| <= m
    ensures m == 0 || exists i :: 0 <= i < |cells| && |StripAnsi(cells[i])| == m
  {
    if cells == [] then 0
    else
      var rest := MaxVisible(cells[1..]);
      assert forall i :: 1 <= i < |cells| ==> cells[i] == cells[1..][i - 1];
      if |StripAnsi(cells[0])| >= rest then |StripAnsi(cells[0])| else rest
  }

  function Cells<T>(rows: seq<T>, col: Column<T>): seq<string> {
    seq(|rows|, i requires 0 <= i < |rows| => GetValue(rows[i], col))
  }

  /** A column's width: the explicit one if given, otherwise the widest of
      the header and the visible cell texts. */
  function ColumnWidth<T>(col: Column<T>, rows: seq<T>): (w: nat)
    ensures col.width.Some? ==> w == col.width.value
    ensures col.width.None? ==> w >= |col.header| && forall i :: 0 <= i < |rows| ==> w >= |StripAnsi(GetValue(rows[i], col))|
    ensures col.width.None? ==> w == |col.header| || exists i :: 0 <= i < |rows| && w == |StripAnsi(GetValue(rows[i], col))|
  {
    var cells := Cells(rows, col);
    assert forall i :: 0 <= i < |rows| ==> cells[i] == GetValue(rows[i], col);
    match col.width
    case Some(w) => w
    case None => Max(|col.header|, MaxVisible(cells))
  }

  function Widths<T>(columns: seq<Column<T>>, rows: seq<T>): (ws: seq<nat>)
    ensures |ws| == |columns|
  {
    seq(|columns|, j requires 0 <= j < |columns| => ColumnWidth(columns[j], rows))
  }

  datatype Format = Table | Json | Csv

  /** `"${getValue(row, c)}"`: no quote inside is escaped. */
  function Quoted(s: string): string {
    "\"" + s + "\""
  }

  function CsvRow<T>(columns: seq<Column<T>>, row: T): string {
    Join(seq(|columns|, j requires 0 <= j < |columns| => Quoted(GetValue(row, columns[j]))), ",")
  }

  /** The CSV form: the headers, then one line per row. */
  function CsvLines<T>(columns: seq<Column<T>>, rows: seq<T>): (lines: seq<string>)
    ensures |lines| == |rows| + 1
  {
    [Join(seq(|columns|, j requires 0 <= j < |columns| => columns[j].header), ",")]
      + seq(|rows|, i requires 0 <= i < |rows| => CsvRow(columns, rows[i]))
  }

  /** The CSV text reads back when no header or value holds a comma or a
      line break: its lines are the header line and one line per row, and
      each line splits at commas into the headers and the quoted values.
      Nothing is escaped, so a comma or line break inside a value breaks
      this. */
  lemma CsvReadsBack<T>(columns: seq<Column<T>>, rows: seq<T>)
    requires |columns| >= 1
    requires forall j :: 0 <= j < |columns| ==> ',' !in columns[j].header && '\n' !in columns[j].header
    requires forall i, j :: 0 <= i < |rows| && 0 <= j < |columns| ==> ',' !in GetValue(rows[i], columns[j]) && '\n' !in GetValue(rows[i], columns[j])
    ensures Split(Join(CsvLines(columns, rows), "\n"), "\n") == CsvLines(columns, rows)
    ensures Split(CsvLines(columns, rows)[0], ",") == seq(|columns|, j requires 0 <= j < |columns| => columns[j].header)
    ensures forall i :: 0 <= i < |rows| ==>
      Split(CsvLines(columns, rows)[i + 1], ",") == seq(|columns|, j requires 0 <= j < |columns| => Quoted(GetValue(rows[i], columns[j])))
  {
    var lines := CsvLines(columns, rows);
    var headers := seq(|columns|, j requires 0 <= j < |columns| => columns[j].header);
    SplitJoin(headers, ",");
    JoinAvoids(headers, ",", '\n');
    forall i | 0 <= i < |rows|
      ensures Split(lines[i + 1], ",") == seq(|columns|, j requires 0 <= j < |columns| => Quoted(GetValue(rows[i], columns[j])))
      ensures '\n' !in lines[i + 1]
    {
      var cells := seq(|columns|, j requires 0 <= j < |columns| => Quoted(GetValue(rows[i], columns[j])));
      assert lines[i + 1] == Join(cells, ",");
      forall j | 0 <= j < |columns| ensures ',' !in cells[j] && '\n' !in cells[j] {
        assert cells[j] == "\"" + GetValue(rows[i], columns[j]) + "\"";
      }
      SplitJoin(cells, ",");
      JoinAvoids(cells, ",", '\n');
    }
    SplitJoin(lines, "\n");
  }

  /** The title lines: a blank line, the title in bold and a blank line,
      only for a non-empty title. */
  function TitleLines(title: Option<string>, colors: bool): seq<string> {
    if title.Some? && title.value != "" then ["", Paint(Bold, title.value, colors), ""] else []
  }

  function HeaderLine<T>(columns: seq<Column<T>>, widths: seq<nat>, colors: bool): string
    requires |widths| == |columns|
  {
    Join(seq(|columns|, j requires 0 <= j < |columns| =>
      Paint(Bold, Paint(Cyan, PadString(columns[j].header, widths[j], columns[j].align), colors), colors)), "  ")
  }

  function SeparatorLine(widths: seq<nat>, colors: bool): string {
    Join(seq(|widths|, j requires 0 <= j < |widths| => Paint(Dim, Repeat('─', widths[j]), colors)), "  ")
  }

  /** The cell text after the column's colour function, if any. */
  function Colored<T>(col: Column<T>, value: string): string {
    if col.color.Some? then col.color.value(value) else value
  }

  function RowLine<T>(columns: seq<Column<T>>, widths: seq<nat>, row: T): string
    requires |widths| == |columns|
  {
    Join(seq(|columns|, j requires 0 <= j < |columns| =>
      PadString(Colored(columns[j], GetValue(row, columns[j])), widths[j], columns[j].align)), "  ")
  }

  function RowLines<T>(columns: seq<Column<T>>, widths: seq<nat>, rows: seq<T>): (lines: seq<string>)
    requires |widths| == |columns|
    ensures |lines| == |rows|
  {
    seq(|rows|, i requires 0 <= i < |rows| => RowLine(columns, widths, rows[i]))
  }

  lemma RowLinesSnoc<T>(columns: seq<Column<T>>, widths: seq<nat>, rows: seq<T>, i: nat)
    requires |widths| == |columns| && i < |rows|
    ensures RowLines(columns, widths, rows[..i + 1]) == RowLines(columns, widths, rows[..i]) + [RowLine(columns, widths, rows[i])]
  {
    var a := RowLines(columns, widths, rows[..i + 1]);
    var b := RowLines(columns, widths, rows[..i]) + [RowLine(columns, widths, rows[i])];
    assert |a| == |b|;
    forall k | 0 <= k < |a| ensures a[k] == b[k] {
      assert rows[..i + 1][k] == rows[k];
    }
  }

  /** The table form, line by line. */
  function TableLines<T>(columns: seq<Column<T>>, rows: seq<T>, title: Option<string>, colors: bool): seq<string> {
    var widths := Widths(columns, rows);
    TitleLines(title, colors) + [HeaderLine(columns, widths, colors), SeparatorLine(widths, colors)]
      + RowLines(columns, widths, rows) + [""]
  }

  /** `renderTable`: `stringify` is `JSON.stringify(rows, null, 2)`. */
  method RenderTable<T>(columns: seq<Column<T>>, rows: seq<T>, format: Format, title: Option<string>,
                        colors: bool, stringify: seq<T> -> string)
    returns (out: string)
    ensures format == Json ==> out == stringify(rows)
    ensures format == Csv ==> out == Join(CsvLines(columns, rows), "\n")
    ensures format == Table ==> out == Join(TableLines(columns, rows, title, colors), "\n")
  {
    if format == Json {
      return stringify(rows);
    }
    if format == Csv {
      return Join(CsvLines(columns, rows), "\n");
    }
    var lines := BuildTableLines(columns, rows, title, colors);
    out := Join(lines, "\n");
  }

  /** The `lines` array of the table form, filled row by row. */
  method BuildTableLines<T>(columns: seq<Column<T>>, rows: seq<T>, title: Option<string>, colors: bool)
    returns (lines: seq<string>)
    ensures lines == TableLines(columns, rows, title, colors)
  {
    var widths := Widths(columns, rows);
    var head := TitleLines(title, colors) + [HeaderLine(columns, widths, colors), SeparatorLine(widths, colors)];
    lines := AppendRowLines(head, columns, widths, rows);
    lines := lines + [""];
  }

  /** The row loop: one padded line per row, in row order, after `head`. */
  method AppendRowLines<T>(head: seq<string>, columns: seq<Column<T>>, widths: seq<nat>, rows: seq<T>)
    returns (lines: seq<string>)
    requires |widths| == |columns|
    ensures lines == head + RowLines(columns, widths, rows)
  {
    lines := head;
    for i := 0 to |rows|
      invariant lines == head + RowLines(columns, widths, rows[..i])
    {
      RowLinesSnoc(columns, widths, rows, i);
      lines := lines + [RowLine(columns, widths, rows[i])];
    }
    assert rows[..|rows|] == rows;
  }

  function JoinedWidth(ws: seq<nat>): nat {
    if ws == [] then 0 else if |ws| == 1 then ws[0] else ws[0] + 2 + JoinedWidth(ws[1..])
  }

  /** Pieces of known visible widths, joined by two spaces, show
      `JoinedWidth` characters. */
  lemma {:induction false} VisibleJoin(parts: seq<string>, ws: seq<nat>)
    requires |parts| == |ws|
    requires forall j :: 0 <= j < |parts| ==> |StripAnsi(parts[j])| == ws[j]
    ensures |StripAnsi(Join(parts, "  "))| == JoinedWidth(ws)
    decreases |parts|
  {
    if |parts| > 1 {
      VisibleJoin(parts[1..], ws[1..]);
      StripAnsiJoinedPair(parts[0], "  ", Join(parts[1..], "  "));
    }
  }

  /** A colour function that leaves the visible text alone, as every
      picocolors style does. */
  ghost predicate KeepsVisible(f: string -> string) {
    forall v :: StripAnsi(f(v)) == StripAnsi(v)
  }

  /** Without explicit widths, and with colour functions that keep the
      visible text, the header, the separator and every row show the same
      number of characters: the columns line up. */
  lemma TableIsAligned<T>(columns: seq<Column<T>>, rows: seq<T>, colors: bool)
    requires forall j :: 0 <= j < |columns| ==> columns[j].width.None?
    requires forall j :: 0 <= j < |columns| && columns[j].color.Some? ==> KeepsVisible(columns[j].color.value)
    ensures var widths := Widths(columns, rows);
      && |StripAnsi(HeaderLine(columns, widths, colors))| == JoinedWidth(widths)
      && |StripAnsi(SeparatorLine(widths, colors))| == JoinedWidth(widths)
      && forall i :: 0 <= i < |rows| ==> |StripAnsi(RowLine(columns, widths, rows[i]))| == JoinedWidth(widths)
  {
    var widths := Widths(columns, rows);
    var headers := seq(|columns|, j requires 0 <= j < |columns| =>
      Paint(Bold, Paint(Cyan, PadString(columns[j].header, widths[j], columns[j].align), colors), colors));
    forall j | 0 <= j < |columns| ensures |StripAnsi(headers[j])| == widths[j] {
      var h := columns[j].header;
      var padded := PadString(h, widths[j], columns[j].align);
      StripAnsiUndoesPaint(Bold, Paint(Cyan, padded, colors), colors);
      StripAnsiUndoesPaint(Cyan, padded, colors);
      PadStringVisible(h, widths[j], columns[j].align);
    }
    VisibleJoin(headers, widths);
    var rules := seq(|widths|, j requires 0 <= j < |widths| => Paint(Dim, Repeat('─', widths[j]), colors));
    forall j | 0 <= j < |widths| ensures |StripAnsi(rules[j])| == widths[j] {
      StripAnsiUndoesPaint(Dim, Repeat('─', widths[j]), colors);
      StripAnsiPlain(Repeat('─', widths[j]));
    }
    VisibleJoin(rules, widths);
    forall i | 0 <= i < |rows| ensures |StripAnsi(RowLine(columns, widths, rows[i]))| == JoinedWidth(widths) {
      var cells := seq(|columns|, j requires 0 <= j < |columns| =>
        PadString(Colored(columns[j], GetValue(rows[i], columns[j])), widths[j], columns[j].align));
      forall j | 0 <= j < |columns| ensures |StripAnsi(cells[j])| == widths[j] {
        var value := GetValue(rows[i], columns[j]);
        var colored := Colored(columns[j], value);
        assert |StripAnsi(colored)| == |StripAnsi(value)|;
        PadStringVisible(colored, widths[j], columns[j].align);
      }
      VisibleJoin(cells, widths);
    }
  }

  /** A printable value of `printKeyValue`. */
  datatype Scalar = Text(text: string) | Number(number: int) | Boolean(flag: bool)

  datatype Item = Item(key: string, value: Option<Scalar>)

  /** `String(value)`, and `pc.dim('N/A')` for `null`. */
  function ValueText(v: Option<Scalar>, colors: bool): string {
    match v
    case None => Paint(Dim, "N/A", colors)
    case Some(Text(t)) => t
    case Some(Number(n)) => IntToString(n)
    case Some(Boolean(b)) => if b then "true" else "false"
  }

  /** `key.padEnd(n)`. */
  function PadEnd(s: string, n: int): (r: string)
    ensures |r| == Max(n, |s|) && r[..|s|] == s
    ensures forall i :: |s| <= i < |r| ==> r[i] == ' '
  {
    s + Spaces(Max(0, n - |s|))
  }

  /** The longest key; `Math.max()` of nothing is never used, as there are
      then no lines. */
  function MaxKeyLength(items: seq<Item>): (m: nat)
    ensures forall i :: 0 <= i < |items| ==> |items[i].key| <= m
    ensures items != [] ==> exists i :: 0 <= i < |items| && |items[i].key| == m
  {
    if items == [] then 0
    else
      var rest := MaxKeyLength(items[1..]);
      assert forall i :: 1 <= i < |items| ==> items[i] == items[1..][i - 1];
      if |items[0].key| >= rest then |items[0].key| else rest
  }

  /** The lines `printKeyValue` prints, one per item. */
  function KeyValueLines(items: seq<Item>, colors: bool): (lines: seq<string>)
    ensures |lines| == |items|
  {
    var m := MaxKeyLength(items);
    seq(|items|, i requires 0 <= i < |items| => Paint(Cyan, PadEnd(items[i].key, m), colors) + "  " + ValueText(items[i].value, colors))
  }

  /** One line of `printKeyValue`, as shown: the padded key, two spaces
      and the value. */
  lemma KeyValueLineVisible(key: string, m: nat, v: Option<Scalar>, colors: bool)
    requires Esc !in key
    ensures StripAnsi(Paint(Cyan, PadEnd(key, m), colors) + "  " + ValueText(v, colors))
      == PadEnd(key, m) + "  " + StripAnsi(ValueText(v, colors))
  {
    var padded := PadEnd(key, m);
    SpacesArePlain(Max(0, m - |key|));
    StripAnsiUndoesPaint(Cyan, padded, colors);
    StripAnsiPlain(padded);
    StripAnsiJoinedPair(Paint(Cyan, padded, colors), "  ", ValueText(v, colors));
  }

  /** Stripping a join with a plain separator strips each side. */
  lemma StripAnsiJoinedPair(a: string, gap: string, b: string)
    requires gap != [] && Esc !in gap && Barrier(gap)
    ensures StripAnsi(a + gap + b) == StripAnsi(a) + gap + StripAnsi(b)
  {
    assert a + gap + b == a + (gap + b);
    assert (gap + b)[0] == gap[0];
    StripAnsiConcat(a, gap + b);
    StripAnsiPlainPrefix(gap, b);
  }

  /** Every key is padded to the longest key, so the values all start in
      the same column; `null` shows as `N/A`. */
  lemma KeyValuesAligned(items: seq<Item>, colors: bool)
    requires forall i :: 0 <= i < |items| ==> Esc !in items[i].key
    ensures var m := MaxKeyLength(items);
      forall i :: 0 <= i < |items| ==>
        && StripAnsi(KeyValueLines(items, colors)[i]) == PadEnd(items[i].key, m) + "  " + StripAnsi(ValueText(items[i].value, colors))
        && |PadEnd(items[i].key, m)| == m
    ensures forall i :: 0 <= i < |items| && items[i].value.None? ==> StripAnsi(ValueText(items[i].value, colors)) == "N/A"
  {
    var m := MaxKeyLength(items);
    forall i | 0 <= i < |items|
      ensures StripAnsi(KeyValueLines(items, colors)[i]) == PadEnd(items[i].key, m) + "  " + StripAnsi(ValueText(items[i].value, colors))
    {
      KeyValueLineVisible(items[i].key, m, items[i].value, colors);
    }
    StripAnsiUndoesPaint(Dim, "N/A", colors);
    StripAnsiPlain("N/A");
  }
}
