/** Splitting a table without a caption over several messages (core/deliveries/renderer.go:1065-1128). Which
    texts are valid and which carry inline formatting is a parameter. */
module TableSplit {
  import opened Prelude

  const MAX_ROWS := 100
  const MAX_COLUMNS := 20
  const MAX_CHARACTERS := 10000

  datatype CellKind = RawText | RawNumber | RichText | UnknownKind

  /** `printed` and `plain` are the two ways the source formats the number of a number cell. */
  datatype Cell = Cell(kind: CellKind, text: string, printed: string, plain: string)
  datatype Column = Column(header: string, wrapped: bool, align: string)
  datatype Table = Table(columns: seq<Column>, rows: seq<seq<Cell>>, pageSize: int, rowHeaderColumn: int)

  datatype Shown = PlainCell(text: string) | FormattedCell(text: string) | NumberCell(printed: string, text: string)
  datatype Part = Part(columns: seq<Column>, rows: seq<seq<Shown>>)

  datatype Texts = Texts(valid: string -> bool, formatted: string -> bool)

  datatype Error = InvalidShape | RowTooLong(row: nat) | InvalidCell(row: nat) | HeaderAndRowTooLong | InvalidAlignment

  // ---------------------------------------------------------------- cells, rows and their size

  predicate ValidCell(t: Texts, cell: Cell) {
    match cell.kind
    case RawText => cell.text != "" ==> t.valid(cell.text)
    case RawNumber => true
    case RichText => t.valid(cell.text)
    case UnknownKind => false
  }

  function ShowCell(t: Texts, cell: Cell): Shown {
    if cell.kind.RawNumber? then NumberCell(cell.printed, if cell.text == "" then cell.plain else cell.text)
    else if cell.kind.RichText? || t.formatted(cell.text) then FormattedCell(cell.text)
    else PlainCell(cell.text)
  }

  predicate ValidRow(t: Texts, row: seq<Cell>) {
    forall cell :: cell in row ==> ValidCell(t, cell)
  }

  function ShowRow(t: Texts, row: seq<Cell>): seq<Shown> {
    seq(|row|, i requires 0 <= i < |row| => ShowCell(t, row[i]))
  }

  /** A number counts by its printed value, whatever text is shown for it. */
  function CellCharacters(cell: Cell): nat {
    if cell.kind.RawNumber? then |cell.printed| else |cell.text|
  }

  function RowCharacters(row: seq<Cell>): nat {
    if row == [] then 0 else RowCharacters(row[..|row| - 1]) + CellCharacters(row[|row| - 1])
  }

  function HeaderCharacters(columns: seq<Column>): nat {
    if columns == [] then 0 else HeaderCharacters(columns[..|columns| - 1]) + |columns[|columns| - 1].header|
  }

  // ---------------------------------------------------------------- cuts

  function Characters(rows: seq<seq<Cell>>): nat {
    if rows == [] then 0 else Characters(rows[..|rows| - 1]) + RowCharacters(rows[|rows| - 1])
  }

  lemma {:induction false} CharactersSplit(a: seq<seq<Cell>>, b: seq<seq<Cell>>)
    ensures Characters(a + b) == Characters(a) + Characters(b)
  {
    if b == [] {
      assert a + b == a;
    } else {
      CharactersSplit(a, b[..|b| - 1]);
      assert (a + b)[..|a + b| - 1] == a + b[..|b| - 1];
    }
  }

  /** Rows i to j fit under one header: within the row limit, header included, and the character limit. */
  predicate Fits(table: Table, i: int, j: int) {
    0 <= i < j <= |table.rows| && 1 + (j - i) <= MAX_ROWS
    && HeaderCharacters(table.columns) + Characters(table.rows[i..j]) <= MAX_CHARACTERS
  }

  /** The ends of consecutive parts that take the table from `start` to its last row. */
  predicate IsCut(table: Table, start: int, ends: seq<int>)
    decreases |ends|
  {
    if ends == [] then start == |table.rows|
    else Fits(table, start, ends[0]) && IsCut(table, ends[0], ends[1..])
  }

  /** Each part ends only where one more row would not fit. */
  predicate Greedy(table: Table, start: int, ends: seq<int>)
    decreases |ends|
  {
    ends != [] ==> !Fits(table, start, ends[0] + 1) && Greedy(table, ends[0], ends[1..])
  }

  /** The limits in numbers: at most 99 rows under a header, and 10,000 characters with it. */
  lemma LimitsAre(table: Table, i: int, j: int)
    ensures Fits(table, i, j) <==>
      0 <= i < j <= |table.rows| && j - i <= 99
      && HeaderCharacters(table.columns) + Characters(table.rows[i..j]) <= 10000
    ensures ValidShape(table) <==>
      && 1 <= |table.columns| <= 20 && table.pageSize == 0 && table.rowHeaderColumn == 0
      && forall row :: row in table.rows ==> |row| == |table.columns|
  {
  }

  /** Fewer rows fit wherever more did. */
  lemma Narrower(table: Table, i: int, k: int, j: int, l: int)
    requires Fits(table, i, j) && i <= k < l <= j
    ensures Fits(table, k, l)
  {
    assert table.rows[i..j] == table.rows[i..k] + table.rows[k..l] + table.rows[l..j];
    CharactersSplit(table.rows[i..k] + table.rows[k..l], table.rows[l..j]);
    CharactersSplit(table.rows[i..k], table.rows[k..l]);
  }

  /** A greedy cut that starts no earlier needs no more parts than any other cut. */
  lemma {:induction false} GreedyStaysAhead(table: Table, a: int, greedy: seq<int>, b: int, other: seq<int>)
    requires b <= a && IsCut(table, a, greedy) && Greedy(table, a, greedy) && IsCut(table, b, other)
    ensures |greedy| <= |other|
    decreases |greedy|
  {
    if greedy != [] {
      assert other != [] by { CutEnds(table, a, greedy); }
      if other[0] > greedy[0] {
        Narrower(table, b, a, other[0], greedy[0] + 1);
      }
      GreedyStaysAhead(table, greedy[0], greedy[1..], other[0], other[1..]);
    }
  }

  lemma {:induction false} CutEnds(table: Table, start: int, ends: seq<int>)
    requires IsCut(table, start, ends)
    ensures start <= |table.rows| && (ends != [] ==> start < |table.rows|)
    decreases |ends|
  {
    if ends != [] {
      CutEnds(table, ends[0], ends[1..]);
    }
  }

  /** Cutting at the ends of a greedy cut uses the fewest parts of any cut into consecutive tables. */
  lemma GreedyIsFewest(table: Table, greedy: seq<int>, other: seq<int>)
    requires IsCut(table, 0, greedy) && Greedy(table, 0, greedy) && IsCut(table, 0, other)
    ensures |greedy| <= |other|
  {
    GreedyStaysAhead(table, 0, greedy, 0, other);
  }

  lemma {:induction false} CutAppend(table: Table, start: int, ends: seq<int>, last: int, end: int)
    requires IsCutTo(table, start, ends, last) && Fits(table, last, end) && !Fits(table, last, end + 1)
    ensures IsCutTo(table, start, ends + [end], end)
    decreases |ends|
  {
    if ends != [] {
      CutAppend(table, ends[0], ends[1..], last, end);
      assert (ends + [end])[1..] == ends[1..] + [end];
    }
  }

  /** A greedy cut of the rows from `start` up to `last`. */
  predicate IsCutTo(table: Table, start: int, ends: seq<int>, last: int)
    decreases |ends|
  {
    if ends == [] then start == last
    else Fits(table, start, ends[0]) && !Fits(table, start, ends[0] + 1) && IsCutTo(table, ends[0], ends[1..], last)
  }

  lemma {:induction false} CompleteCut(table: Table, start: int, ends: seq<int>)
    requires IsCutTo(table, start, ends, |table.rows|)
    ensures IsCut(table, start, ends) && Greedy(table, start, ends)
    decreases |ends|
  {
    if ends != [] {
      CompleteCut(table, ends[0], ends[1..]);
    }
  }

  // ---------------------------------------------------------------- what a split must satisfy

  predicate ValidShape(table: Table) {
    && 1 <= |table.columns| <= MAX_COLUMNS
    && (forall row :: row in table.rows ==> |row| == |table.columns|)
    && table.pageSize == 0 && table.rowHeaderColumn == 0
  }

  predicate ValidAlignments(columns: seq<Column>) {
    forall column :: column in columns ==> column.align in {"", "left", "center", "right"}
  }

  /** The row is valid and fits under the header on its own. */
  predicate RowOk(t: Texts, table: Table, i: int) {
    0 <= i < |table.rows| ==>
      ValidRow(t, table.rows[i]) && HeaderCharacters(table.columns) + RowCharacters(table.rows[i]) <= MAX_CHARACTERS
  }

  /** Exactly the tables that can be split. */
  predicate Splittable(t: Texts, table: Table) {
    && ValidShape(table) && ValidAlignments(table.columns)
    && forall i {:trigger RowOk(t, table, i)} :: 0 <= i < |table.rows| ==> RowOk(t, table, i)
  }

  function ShowRows(t: Texts, rows: seq<seq<Cell>>): seq<seq<Shown>> {
    seq(|rows|, i requires 0 <= i < |rows| => ShowRow(t, rows[i]))
  }

  /** The parts show the rows between consecutive ends, all of them under the table's own header. */
  predicate ShowsCut(t: Texts, table: Table, start: int, ends: seq<int>, parts: seq<Part>)
    decreases |ends|
  {
    |parts| == |ends|
    && (ends != [] ==>
          0 <= start <= ends[0] <= |table.rows|
          && parts[0] == Part(table.columns, ShowRows(t, table.rows[start..ends[0]]))
          && ShowsCut(t, table, ends[0], ends[1..], parts[1..]))
  }

  function AllRows(parts: seq<Part>): seq<seq<Shown>> {
    if parts == [] then [] else parts[0].rows + AllRows(parts[1..])
  }

  /** The parts of a cut together show every row once and in order. */
  lemma {:induction false} EveryRowOnceInOrder(t: Texts, table: Table, start: int, ends: seq<int>, parts: seq<Part>)
    requires 0 <= start && IsCut(table, start, ends) && ShowsCut(t, table, start, ends, parts)
    ensures start <= |table.rows| && AllRows(parts) == ShowRows(t, table.rows[start..])
    decreases |ends|
  {
    CutEnds(table, start, ends);
    if ends != [] {
      EveryRowOnceInOrder(t, table, ends[0], ends[1..], parts[1..]);
      assert table.rows[start..] == table.rows[start..ends[0]] + table.rows[ends[0]..];
      assert ShowRows(t, table.rows[start..]) == ShowRows(t, table.rows[start..ends[0]])
        + ShowRows(t, table.rows[ends[0]..]);
    }
  }

  lemma {:induction false} ShowsAppend(
    t: Texts, table: Table, start: int, ends: seq<int>, parts: seq<Part>, last: int, end: int, part: Part)
    requires IsCutTo(table, start, ends, last) && ShowsCut(t, table, start, ends, parts)
    requires 0 <= start && 0 <= last <= end <= |table.rows|
      && part == Part(table.columns, ShowRows(t, table.rows[last..end]))
    ensures ShowsCut(t, table, start, ends + [end], parts + [part])
    decreases |ends|
  {
    if ends == [] {
      assert parts == [] && (parts + [part])[1..] == [] && (ends + [end])[1..] == [];
    } else {
      ShowsAppend(t, table, ends[0], ends[1..], parts[1..], last, end, part);
      assert (ends + [end])[1..] == ends[1..] + [end] && (parts + [part])[1..] == parts[1..] + [part];
    }
  }

  // ---------------------------------------------------------------- the splitter

  method CheckCells(t: Texts, row: seq<Cell>) returns (valid: bool)
    ensures valid <==> ValidRow(t, row)
  {
    for i := 0 to |row|
      invariant forall k :: 0 <= k < i ==> ValidCell(t, row[k])
    {
      if !ValidCell(t, row[i]) {
        return false;
      }
    }
    return true;
  }

  method CheckShape(table: Table) returns (valid: bool)
    ensures valid <==> ValidShape(table)
  {
    if |table.columns| == 0 || |table.columns| > MAX_COLUMNS {
      return false;
    }
    for i := 0 to |table.rows|
      invariant forall k :: 0 <= k < i ==> |table.rows[k]| == |table.columns|
    {
      if |table.rows[i]| != |table.columns| {
        return false;
      }
    }
    return table.pageSize == 0 && table.rowHeaderColumn == 0;
  }

  method CheckAlignments(columns: seq<Column>) returns (valid: bool)
    ensures valid <==> ValidAlignments(columns)
  {
    for i := 0 to |columns|
      invariant forall k :: 0 <= k < i ==> columns[k].align in {"", "left", "center", "right"}
    {
      if columns[i].align !in {"", "left", "center", "right"} {
        return false;
      }
    }
    return true;
  }

  lemma OneMore(table: Table, start: int, end: int)
    requires 0 <= start <= end < |table.rows|
    ensures Characters(table.rows[start..end + 1]) == Characters(table.rows[start..end])
      + RowCharacters(table.rows[end])
  {
    assert table.rows[start..end + 1] == table.rows[start..end] + [table.rows[end]];
  }

  /** A row that fits at the end of a part fits alone. */
  lemma SmallerPart(table: Table, start: int, end: int)
    requires 0 <= start <= end < |table.rows|
    ensures RowCharacters(table.rows[end]) <= Characters(table.rows[start..end + 1])
  {
    OneMore(table, start, end);
  }

  /** The error of a row names a row that has it. */
  predicate Blames(t: Texts, table: Table, error: Error) {
    match error
    case RowTooLong(i) => i < |table.rows| && RowCharacters(table.rows[i]) > MAX_CHARACTERS
    case InvalidCell(i) => i < |table.rows| && !ValidRow(t, table.rows[i])
    case InvalidShape => !ValidShape(table)
    case InvalidAlignment => !ValidAlignments(table.columns)
    case HeaderAndRowTooLong =>
      exists i :: 0 <= i < |table.rows|
        && HeaderCharacters(table.columns) + RowCharacters(table.rows[i]) > MAX_CHARACTERS
  }

  /** Takes rows until the table ends, the part is full, or the next row would not fit. */
  method Fill(t: Texts, table: Table, start: nat) returns (r: Result<(nat, seq<seq<Shown>>), Error>)
    requires start < |table.rows|
    ensures r.Ok? ==>
      var (end, rows) := r.value;
      && start <= end <= |table.rows| && rows == ShowRows(t, table.rows[start..end])
      && (forall i {:trigger RowOk(t, table, i)} :: start <= i < end ==> RowOk(t, table, i))
      && (end > start ==> Fits(table, start, end)) && !Fits(table, start, end + 1)
    ensures r.Err? ==> exists i :: start <= i < |table.rows| && !RowOk(t, table, i)
    ensures r.Err? ==> Blames(t, table, r.error)
    ensures r.Ok? && r.value.0 == start ==>
      HeaderCharacters(table.columns) + RowCharacters(table.rows[start]) > MAX_CHARACTERS
  {
    var end := start;
    var rows: seq<seq<Shown>> := [];
    var characters := HeaderCharacters(table.columns);
    while end < |table.rows| && 1 + |rows| < MAX_ROWS
      invariant start <= end <= |table.rows| && |rows| == end - start <= MAX_ROWS - 1
      invariant rows == ShowRows(t, table.rows[start..end])
      invariant forall i {:trigger RowOk(t, table, i)} :: start <= i < end ==> RowOk(t, table, i)
      invariant characters == HeaderCharacters(table.columns) + Characters(table.rows[start..end])
      invariant end > start ==> characters <= MAX_CHARACTERS
    {
      var size := RowCharacters(table.rows[end]);
      OneMore(table, start, end);
      if size > MAX_CHARACTERS {
        assert !RowOk(t, table, end);
        return Err(RowTooLong(end));
      }
      if characters + size > MAX_CHARACTERS {
        break;
      }
      var valid := CheckCells(t, table.rows[end]);
      if !valid {
        assert !RowOk(t, table, end);
        return Err(InvalidCell(end));
      }
      assert RowOk(t, table, end) by { SmallerPart(table, start, end); }
      rows := rows + [ShowRow(t, table.rows[end])];
      characters := characters + size;
      end := end + 1;
    }
    if end < |table.rows| {
      OneMore(table, start, end);
    }
    return Ok((end, rows));
  }

  /** The first rows are valid and cut greedily into the parts. */
  ghost predicate SoFar(t: Texts, table: Table, ends: seq<int>, parts: seq<Part>, start: int) {
    0 <= start <= |table.rows| && IsCutTo(table, 0, ends, start) && ShowsCut(t, table, 0, ends, parts)
    && forall i {:trigger RowOk(t, table, i)} :: 0 <= i < start ==> RowOk(t, table, i)
  }

  lemma NextPart(t: Texts, table: Table, ends: seq<int>, parts: seq<Part>, start: int, end: int)
    requires SoFar(t, table, ends, parts, start) && Fits(table, start, end) && !Fits(table, start, end + 1)
    requires forall i {:trigger RowOk(t, table, i)} :: start <= i < end ==> RowOk(t, table, i)
    ensures SoFar(t, table, ends + [end], parts + [Part(table.columns, ShowRows(t, table.rows[start..end]))], end)
  {
    CutAppend(table, 0, ends, start, end);
    ShowsAppend(t, table, 0, ends, parts, start, end, Part(table.columns, ShowRows(t, table.rows[start..end])));
  }

  /** Succeeds exactly on splittable tables, with a part for each end of a greedy cut; a table without
      rows becomes its header alone. */
  method RenderTables(t: Texts, table: Table) returns (r: Result<seq<Part>, Error>, ghost ends: seq<int>)
    ensures r.Ok? <==> Splittable(t, table)
    ensures r.Err? ==> Blames(t, table, r.error)
    ensures r.Ok? && table.rows == [] ==> r.value == [Part(table.columns, [])]
    ensures r.Ok? && table.rows != [] ==>
      IsCut(table, 0, ends) && Greedy(table, 0, ends) && ShowsCut(t, table, 0, ends, r.value)
  {
    ends := [];
    var shape := CheckShape(table);
    if !shape {
      return Err(InvalidShape), [];
    }
    if table.rows == [] {
      var aligned := CheckAlignments(table.columns);
      if !aligned {
        return Err(InvalidAlignment), [];
      }
      return Ok([Part(table.columns, [])]), [];
    }
    r, ends := RenderRows(t, table);
  }

  method RenderRows(t: Texts, table: Table) returns (r: Result<seq<Part>, Error>, ghost ends: seq<int>)
    requires ValidShape(table) && table.rows != []
    ensures r.Ok? <==> Splittable(t, table)
    ensures r.Err? ==> Blames(t, table, r.error)
    ensures r.Ok? ==> IsCut(table, 0, ends) && Greedy(table, 0, ends) && ShowsCut(t, table, 0, ends, r.value)
  {
    ends := [];
    var parts: seq<Part> := [];
    var start := 0;
    while start < |table.rows|
      invariant 0 <= start <= |table.rows| && (start > 0 ==> ValidAlignments(table.columns))
      invariant SoFar(t, table, ends, parts, start)
      decreases |table.rows| - start
    {
      var rendered := RenderPart(t, table, start);
      if rendered.Err? {
        return Err(rendered.error), ends;
      }
      var (end, part) := rendered.value;
      NextPart(t, table, ends, parts, start, end);
      parts, ends, start := parts + [part], ends + [end], end;
    }
    CompleteCut(table, 0, ends);
    return Ok(parts), ends;
  }

  /** One part, as long as the limits let it be. */
  method RenderPart(t: Texts, table: Table, start: nat) returns (r: Result<(nat, Part), Error>)
    requires start < |table.rows|
    ensures r.Ok? ==>
      var (end, part) := r.value;
      && start < end <= |table.rows| && part == Part(table.columns, ShowRows(t, table.rows[start..end]))
      && (forall i {:trigger RowOk(t, table, i)} :: start <= i < end ==> RowOk(t, table, i))
      && Fits(table, start, end) && !Fits(table, start, end + 1) && ValidAlignments(table.columns)
    ensures r.Err? ==> !Splittable(t, table) && Blames(t, table, r.error)
  {
    var filled := Fill(t, table, start);
    if filled.Err? {
      return Err(filled.error);
    }
    var (end, rows) := filled.value;
    if end == start {
      assert !RowOk(t, table, start);
      return Err(HeaderAndRowTooLong);
    }
    var aligned := CheckAlignments(table.columns);
    return if aligned then Ok((end, Part(table.columns, rows))) else Err(InvalidAlignment);
  }

  // ---------------------------------------------------------------- what is counted and what is shown

  function ShownCharacters(cells: seq<Shown>): nat {
    if cells == [] then 0 else ShownCharacters(cells[..|cells| - 1]) + |cells[|cells| - 1].text|
  }

  /** A cell shows its own text: as it stands when it is plain, with its formatting when it has any, and a number with
      the text that was given for it or else its plain form. */
  lemma CellIsShown(t: Texts, cell: Cell)
    ensures match ShowCell(t, cell)
      case PlainCell(text) => cell.kind != RawNumber && cell.kind != RichText && text == cell.text && !t.formatted(text)
      case FormattedCell(text) =>
        cell.kind != RawNumber && text == cell.text && (cell.kind == RichText || t.formatted(text))
      case NumberCell(printed, text) =>
        cell.kind == RawNumber && printed == cell.printed && text == (if cell.text != "" then cell.text else cell.plain)
    ensures ValidCell(t, cell) <==>
      || cell.kind == RawNumber || (cell.kind == RawText && (cell.text == "" || t.valid(cell.text)))
      || (cell.kind == RichText && t.valid(cell.text))
  {
  }

  function AllShown(rows: seq<seq<Shown>>): nat {
    if rows == [] then 0 else AllShown(rows[..|rows| - 1]) + ShownCharacters(rows[|rows| - 1])
  }

  /** What a cell shows beyond what it counts for: nothing, unless it is a number whose text has another
      length than its printed value. */
  function Excess(t: Texts, cell: Cell): int {
    |ShowCell(t, cell).text| - CellCharacters(cell)
  }

  function RowExcess(t: Texts, row: seq<Cell>): int {
    if row == [] then 0 else RowExcess(t, row[..|row| - 1]) + Excess(t, row[|row| - 1])
  }

  function AllExcess(t: Texts, rows: seq<seq<Cell>>): int {
    if rows == [] then 0 else AllExcess(t, rows[..|rows| - 1]) + RowExcess(t, rows[|rows| - 1])
  }

  lemma {:induction false} RowShows(t: Texts, row: seq<Cell>)
    ensures ShownCharacters(ShowRow(t, row)) == RowCharacters(row) + RowExcess(t, row)
  {
    if row != [] {
      RowShows(t, row[..|row| - 1]);
      assert ShowRow(t, row)[..|row| - 1] == ShowRow(t, row[..|row| - 1]);
    }
  }

  lemma {:induction false} RowsShow(t: Texts, rows: seq<seq<Cell>>)
    ensures AllShown(ShowRows(t, rows)) == Characters(rows) + AllExcess(t, rows)
  {
    if rows != [] {
      RowsShow(t, rows[..|rows| - 1]);
      RowShows(t, rows[|rows| - 1]);
      assert ShowRows(t, rows)[..|rows| - 1] == ShowRows(t, rows[..|rows| - 1]);
    }
  }

  /** What a part shows is what it was counted for and the excess of its numbers. So a part that fits shows
      more than the limit exactly when that excess is larger than the room the count left. */
  lemma CountedIsShown(t: Texts, table: Table, i: int, j: int)
    requires Fits(table, i, j)
    ensures var rows := table.rows[i..j];
      var counted, shown := HeaderCharacters(table.columns) + Characters(rows),
                            HeaderCharacters(table.columns) + AllShown(ShowRows(t, rows));
      shown == counted + AllExcess(t, rows)
        && (shown <= MAX_CHARACTERS <==> AllExcess(t, rows) <= MAX_CHARACTERS - counted)
    ensures forall cell :: Excess(t, cell) != 0 ==>
      cell.kind.RawNumber? && |if cell.text == "" then cell.plain else cell.text| != |cell.printed|
  {
    RowsShow(t, table.rows[i..j]);
  }

  /** The limit bounds what is counted, not what is shown: a number with any longer text of its own is
      accepted whatever the length of that text. */
  lemma LongNumberTextEscapes(t: Texts, text: string, printed: string, plain: string)
    requires text != "" && |printed| <= MAX_CHARACTERS
    ensures var row := [Cell(RawNumber, text, printed, plain)];
      Splittable(t, Table([Column("", false, "")], [row], 0, 0)) && ShownCharacters(ShowRow(t, row)) == |text|
  {
    var row := [Cell(RawNumber, text, printed, plain)];
    var table := Table([Column("", false, "")], [row], 0, 0);
    assert RowCharacters(row) == |printed| by { assert row[..0] == []; }
    assert HeaderCharacters(table.columns) == 0 by { assert table.columns[..0] == []; }
    assert RowOk(t, table, 0);
    assert ShowRow(t, row)[..0] == [] && ShowRow(t, row)[0].text == text;
  }
}
