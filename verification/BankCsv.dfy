/** Bank CSV import: the layout is read off the header row, and every row below it
    becomes a transaction, is passed over, or fails the file. How a header is
    normalised is a parameter. */
module BankCsv {
  import opened Wrappers
  import opened Calendar
  import opened CsvUtil
  import opened Decimal
  import opened Text
  import Camt053

  type Transaction = Camt053.Transaction

  datatype BankCsvError = Empty | UnknownLayout | BadDate(text: string) | BadAmount(text: string)

  /** What the parser takes from the file; the content hash is not modelled. */
  datatype CsvStatement = CsvStatement(fromDate: Option<Date>, toDate: Option<Date>, transactions: seq<Transaction>)

  datatype Layout = Layout(
    date: nat,
    amount: Option<nat>,
    inn: Option<nat>,
    out: Option<nat>,
    text: Option<nat>,
    reference: Option<nat>)

  const DATE_WORDS := ["bokforingsdato", "bokfort dato", "bokforingsdag", "utfort dato", "dato"]
  const DATE_AVOID := ["rentedato", "valuteringsdato"]
  const AMOUNT_WORDS := ["belop"]
  const AMOUNT_AVOID := ["valuta"]
  const IN_WORDS := ["inn pa konto", "inn"]
  const IN_AVOID := ["innskudd", "konto til"]
  const OUT_WORDS := ["ut fra konto", "ut"]
  const OUT_AVOID := ["utskudd", "konto fra", "utfort"]
  const TEXT_WORDS := ["beskrivelse", "forklaring", "tekst", "tittel", "melding", "type"]
  const REFERENCE_WORDS := ["kid", "referanse", "arkivref"]

  function LayoutOf(headers: seq<string>): Option<Layout> {
    var date := ColumnOf(headers, DATE_WORDS, DATE_AVOID);
    var amount := ColumnOf(headers, AMOUNT_WORDS, AMOUNT_AVOID);
    var inn := ColumnOf(headers, IN_WORDS, IN_AVOID);
    var out := ColumnOf(headers, OUT_WORDS, OUT_AVOID);
    if date == None || (amount == None && (inn == None || out == None)) then None
    else Some(Layout(date.value, amount, inn, out, ColumnOf(headers, TEXT_WORDS, []),
                     ColumnOf(headers, REFERENCE_WORDS, [])))
  }

  /** The trimmed cell of a column, blank when the row has no such cell. */
  function Cell(cells: seq<string>, column: Option<nat>): string {
    if column.Some? && column.value < |cells| then Trim(cells[column.value]) else ""
  }

  function AmountOf(layout: Layout, cells: seq<string>): Result<int, BankCsvError> {
    if layout.amount.Some? then
      match ParseAmount(Cell(cells, layout.amount))
      case Some(ore) => Ok(ore)
      case None => Err(BadAmount(Cell(cells, layout.amount)))
    else
      match ParseAmount(Cell(cells, layout.inn))
      case None => Err(BadAmount(Cell(cells, layout.inn)))
      case Some(inn) =>
        match ParseAmount(Cell(cells, layout.out))
        case None => Err(BadAmount(Cell(cells, layout.out)))
        case Some(out) => Ok(inn - Abs(out))
  }

  /** One row: `Ok([])` is a row passed over - no booking date, or nothing booked. */
  function ReadRow(layout: Layout, cells: seq<string>): Result<seq<Transaction>, BankCsvError> {
    var dateText := Cell(cells, Some(layout.date));
    if dateText == "" then Ok([])
    else if ParseDate(dateText) == None then Err(BadDate(dateText))
    else match AmountOf(layout, cells)
      case Err(e) => Err(e)
      case Ok(ore) =>
        var reference := Cell(cells, layout.reference);
        if ore == 0 then Ok([])
        else Ok([Camt053.Transaction(ParseDate(dateText).value, ore, Cell(cells, layout.text),
                                     if reference == "" then None else Some(reference))])
  }

  /** All rows in order; the first bad row fails the file. */
  function ReadRows(layout: Layout, delimiter: char, lines: seq<string>): Result<seq<Transaction>, BankCsvError> {
    if lines == [] then Ok([])
    else
      var front, last := ReadRows(layout, delimiter, lines[..|lines| - 1]), lines[|lines| - 1];
      if front.Err? || IsBlank(last) then front
      else match ReadRow(layout, Fields(last, delimiter))
        case Err(e) => Err(e)
        case Ok(row) => Ok(front.value + row)
  }

  function Earliest(transactions: seq<Transaction>): (d: Option<Date>)
    ensures d == None <==> transactions == []
    ensures d.Some? ==> exists t :: t in transactions && t.bookingDate == d.value
    ensures d.Some? ==> forall t | t in transactions :: NotAfter(d.value, t.bookingDate)
  {
    if transactions == [] then None
    else
      var last := transactions[|transactions| - 1];
      match Earliest(transactions[..|transactions| - 1])
      case None => Some(last.bookingDate)
      case Some(d) => Some(if Before(last.bookingDate, d) then last.bookingDate else d)
  }

  function Latest(transactions: seq<Transaction>): (d: Option<Date>)
    ensures d == None <==> transactions == []
    ensures d.Some? ==> exists t :: t in transactions && t.bookingDate == d.value
    ensures d.Some? ==> forall t | t in transactions :: NotAfter(t.bookingDate, d.value)
  {
    if transactions == [] then None
    else
      var last := transactions[|transactions| - 1];
      match Latest(transactions[..|transactions| - 1])
      case None => Some(last.bookingDate)
      case Some(d) => Some(if Before(last.bookingDate, d) then d else last.bookingDate)
  }

  function StatementOf(transactions: seq<Transaction>): CsvStatement {
    CsvStatement(Earliest(transactions), Latest(transactions), transactions)
  }

  function Parsed(text: string, norm: string -> string): Result<CsvStatement, BankCsvError> {
    match HeaderAndRest(Lines(DropBoms(text)))
    case None => Err(Empty)
    case Some(found) =>
      match LayoutOf(HeaderOf(found.0, norm).headers)
      case None => Err(UnknownLayout)
      case Some(layout) =>
        match ReadRows(layout, DetectDelimiter(found.0), found.1)
        case Err(e) => Err(e)
        case Ok(transactions) => Ok(StatementOf(transactions))
  }

  method FindLayout(headers: seq<string>) returns (layout: Option<Layout>)
    ensures layout == LayoutOf(headers)
  {
    var date := FindColumn(headers, DATE_WORDS, DATE_AVOID);
    var amount := FindColumn(headers, AMOUNT_WORDS, AMOUNT_AVOID);
    var inn := FindColumn(headers, IN_WORDS, IN_AVOID);
    var out := FindColumn(headers, OUT_WORDS, OUT_AVOID);
    var textColumn := FindColumn(headers, TEXT_WORDS, []);
    var reference := FindColumn(headers, REFERENCE_WORDS, []);
    var hasAmount := amount.Some? || (inn.Some? && out.Some?);
    if date == None || !hasAmount {
      return None;
    }
    layout := Some(Layout(date.value, amount, inn, out, textColumn, reference));
  }

  method Parse(text: string, norm: string -> string) returns (r: Result<CsvStatement, BankCsvError>)
    ensures r == Parsed(text, norm)
    ensures r.Ok? && r.value.transactions == [] ==> r.value.fromDate == r.value.toDate == None
    ensures r.Ok? && r.value.transactions != [] ==>
      && r.value.fromDate.Some? && r.value.toDate.Some?
      && (forall t | t in r.value.transactions :: NotAfter(r.value.fromDate.value, t.bookingDate))
      && (forall t | t in r.value.transactions :: NotAfter(t.bookingDate, r.value.toDate.value))
      && (exists t :: t in r.value.transactions && t.bookingDate == r.value.fromDate.value)
      && (exists t :: t in r.value.transactions && t.bookingDate == r.value.toDate.value)
  {
    hide ReadRow, LayoutOf, Lines, HeaderAndRest, Fields;
    var found := ReadHeader(text, norm);
    if found == None {
      return Err(Empty);
    }
    var (header, lines) := found.value;
    var detected := FindLayout(header.headers);
    if detected == None {
      return Err(UnknownLayout);
    }
    var layout := detected.value;
    var transactions: seq<Transaction> := [];
    for i := 0 to |lines|
      invariant ReadRows(layout, header.delimiter, lines[..i]) == Ok(transactions)
    {
      var line := lines[i];
      assert lines[..i + 1][..i] == lines[..i];
      if IsBlank(line) {
        continue;
      }
      var fields := SplitRecord(line, header.delimiter);
      var row := ParseRow(layout, fields);
      if row.Err? {
        ErrorStays(layout, header.delimiter, lines, i + 1);
        return Err(row.error);
      }
      transactions := transactions + row.value;
    }
    assert lines[..|lines|] == lines;
    r := Ok(StatementOf(transactions));
  }

  method ParseRow(layout: Layout, fields: seq<string>) returns (r: Result<seq<Transaction>, BankCsvError>)
    ensures r == ReadRow(layout, fields)
  {
    hide Trim, ParseAmount, ParseDate;
    var dateText := Cell(fields, Some(layout.date));
    if dateText == "" {
      return Ok([]);
    }
    var booked := ParseDate(dateText);
    if booked == None {
      return Err(BadDate(dateText));
    }
    var amount := AmountOf(layout, fields);
    if amount.Err? {
      return Err(amount.error);
    }
    if amount.value == 0 {
      return Ok([]);
    }
    var reference := Cell(fields, layout.reference);
    r := Ok([Camt053.Transaction(booked.value, amount.value, Cell(fields, layout.text),
                                 if reference == "" then None else Some(reference))]);
  }

  lemma {:induction false} ErrorStays(layout: Layout, delimiter: char, lines: seq<string>, n: nat)
    requires n <= |lines| && ReadRows(layout, delimiter, lines[..n]).Err?
    ensures ReadRows(layout, delimiter, lines) == ReadRows(layout, delimiter, lines[..n])
    decreases |lines|
  {
    if n == |lines| {
      assert lines[..n] == lines;
    } else {
      assert lines[..|lines| - 1][..n] == lines[..n];
      ErrorStays(layout, delimiter, lines[..|lines| - 1], n);
    }
  }

  /** No line is passed over because it cannot be read: a file is read if and only if
      every line that is not blank can be. Lines are physical lines here, as in the
      reader; what becomes of a row that has been broken over two is
      `BrokenRowsDisappear`. */
  lemma {:induction false} AllRowsOrNothing(layout: Layout, delimiter: char, lines: seq<string>)
    ensures ReadRows(layout, delimiter, lines).Ok?
       <==> forall i | 0 <= i < |lines| :: IsBlank(lines[i]) || ReadRow(layout, Fields(lines[i], delimiter)).Ok?
  {
    hide IsBlank, ReadRow, Fields;
    if lines != [] {
      var front, last := lines[..|lines| - 1], lines[|lines| - 1];
      AllRowsOrNothing(layout, delimiter, front);
      assert forall i | 0 <= i < |front| :: lines[i] == front[i];
      assert lines[|front|] == last;
    }
  }

  /** A column is called by `words`: the first named by one of them word for word, or else
      the first whose name holds one of them - but never one that holds a word of
      `avoid`. */
  ghost predicate IsCalled(headers: seq<string>, column: nat, words: seq<string>, avoid: seq<string>) {
    && column < |headers| && !HoldsOneOf(headers[column], avoid)
    && (if headers[column] in words then
          forall j | 0 <= j < column && headers[j] in words :: HoldsOneOf(headers[j], avoid)
        else
          && HoldsOneOf(headers[column], words)
          && (forall j | 0 <= j < |headers| && headers[j] in words :: HoldsOneOf(headers[j], avoid))
          && (forall j | 0 <= j < column && HoldsOneOf(headers[j], words) :: HoldsOneOf(headers[j], avoid)))
  }

  ghost predicate IsPickedBy(headers: seq<string>, column: Option<nat>, words: seq<string>, avoid: seq<string>) {
    match column
    case Some(i) => IsCalled(headers, i, words, avoid)
    case None => forall j | 0 <= j < |headers| && HoldsOneOf(headers[j], words) :: HoldsOneOf(headers[j], avoid)
  }

  lemma ColumnIsPicked(headers: seq<string>, words: seq<string>, avoid: seq<string>)
    ensures IsPickedBy(headers, ColumnOf(headers, words, avoid), words, avoid)
  {
    hide ColumnOf, HoldsOneOf;
    ExactHeaderWins(headers, words, avoid);
  }

  /** Which words name which column. The value date is never taken for the booking date,
      a currency never for an amount, and a file that has neither an amount column nor
      one for each direction is not recognised. */
  lemma LayoutGoesByItsWords(headers: seq<string>)
    returns (date: Option<nat>, amount: Option<nat>, inn: Option<nat>, out: Option<nat>, description: Option<nat>,
             reference: Option<nat>)
    ensures IsPickedBy(headers, date, ["bokforingsdato", "bokfort dato", "bokforingsdag", "utfort dato", "dato"],
                       ["rentedato", "valuteringsdato"])
    ensures IsPickedBy(headers, amount, ["belop"], ["valuta"])
    ensures IsPickedBy(headers, inn, ["inn pa konto", "inn"], ["innskudd", "konto til"])
    ensures IsPickedBy(headers, out, ["ut fra konto", "ut"], ["utskudd", "konto fra", "utfort"])
    ensures IsPickedBy(headers, description, ["beskrivelse", "forklaring", "tekst", "tittel", "melding", "type"], [])
    ensures IsPickedBy(headers, reference, ["kid", "referanse", "arkivref"], [])
    ensures
      match LayoutOf(headers)
      case None => date == None || (amount == None && (inn == None || out == None))
      case Some(layout) =>
        && date == Some(layout.date) && layout.amount == amount && layout.inn == inn && layout.out == out
        && layout.text == description && layout.reference == reference
        && (amount.Some? || (inn.Some? && out.Some?))
  {
    hide IsPickedBy, ColumnOf;
    ColumnIsPicked(headers, DATE_WORDS, DATE_AVOID);
    ColumnIsPicked(headers, AMOUNT_WORDS, AMOUNT_AVOID);
    ColumnIsPicked(headers, IN_WORDS, IN_AVOID);
    ColumnIsPicked(headers, OUT_WORDS, OUT_AVOID);
    ColumnIsPicked(headers, TEXT_WORDS, []);
    ColumnIsPicked(headers, REFERENCE_WORDS, []);
    date, amount := ColumnOf(headers, DATE_WORDS, DATE_AVOID), ColumnOf(headers, AMOUNT_WORDS, AMOUNT_AVOID);
    inn, out := ColumnOf(headers, IN_WORDS, IN_AVOID), ColumnOf(headers, OUT_WORDS, OUT_AVOID);
    description, reference := ColumnOf(headers, TEXT_WORDS, []), ColumnOf(headers, REFERENCE_WORDS, []);
  }

  /** What a cell shows: the text in the column without the space around it. A row that
      stops short of the column shows nothing there. */
  predicate Shows(cells: seq<string>, column: Option<nat>, shown: string) {
    if column == None || column.value >= |cells| then shown == "" else shown == Trim(cells[column.value])
  }

  /** A row in its cases. It is passed over if and only if it has no date or nothing is
      booked; it fails the file if and only if its date or one of its amounts cannot be
      read; and otherwise its transaction holds what its cells show: with a signed
      column that amount, with two columns what came in less what went out. */
  lemma RowInItsCases(layout: Layout, cells: seq<string>, date: string, description: string, reference: string,
                      amount: string, inn: string, out: string)
    requires Shows(cells, Some(layout.date), date) && Shows(cells, layout.text, description)
    requires Shows(cells, layout.reference, reference) && Shows(cells, layout.amount, amount)
    requires Shows(cells, layout.inn, inn) && Shows(cells, layout.out, out)
    ensures
      var row := ReadRow(layout, cells);
      var unread := if layout.amount.Some? then ParseAmount(amount) == None
                    else ParseAmount(inn) == None || ParseAmount(out) == None;
      if date == "" then row == Ok([])
      else if ParseDate(date) == None then row == Err(BadDate(date))
      else if unread then
        row == Err(BadAmount(if layout.amount.Some? then amount else if ParseAmount(inn) == None then inn else out))
      else
        var ore := if layout.amount.Some? then ParseAmount(amount).value
                   else if ParseAmount(out).value < 0 then ParseAmount(inn).value + ParseAmount(out).value
                   else ParseAmount(inn).value - ParseAmount(out).value;
        if ore == 0 then row == Ok([])
        else
          && row.Ok? && |row.value| == 1
          && row.value[0].bookingDate == ParseDate(date).value && row.value[0].amountOre == ore
          && row.value[0].description == description
          && row.value[0].reference == if reference == "" then None else Some(reference)
  {
    hide Trim, ParseDate, ParseAmount;
  }

  // ---------- Rows are read back ----------

  predicate IsAmountText(cell: string, ore: int) {
    IsNorwegian(cell, ore) || IsPlainAmount(cell, ore)
  }

  /** Blank, or a zero. */
  predicate IsNothing(cell: string) {
    cell == "" || IsAmountText(cell, 0)
  }

  /** The row carries `ore`: in the signed column, or in the one of the inn/ut
      columns its sign calls for; banks write what went out with or without a
      minus, and leave the other column blank or write a zero there. */
  predicate ShowsAmount(layout: Layout, cells: seq<string>, ore: int) {
    if layout.amount.Some? then IsAmountText(Cell(cells, layout.amount), ore)
    else if ore > 0 then IsAmountText(Cell(cells, layout.inn), ore) && IsNothing(Cell(cells, layout.out))
    else
      && IsNothing(Cell(cells, layout.inn))
      && (IsAmountText(Cell(cells, layout.out), ore) || IsAmountText(Cell(cells, layout.out), -ore))
  }

  ghost predicate RowShows(layout: Layout, cells: seq<string>, t: Transaction) {
    && IsDateText(Cell(cells, Some(layout.date)), t.bookingDate)
    && t.amountOre != 0 && ShowsAmount(layout, cells, t.amountOre)
    && Cell(cells, layout.text) == t.description
    && Cell(cells, layout.reference) == (if t.reference.Some? then t.reference.value else "")
    && t.reference != Some("")
  }

  lemma AmountIsRead(layout: Layout, cells: seq<string>, ore: int)
    requires ore != 0 && ShowsAmount(layout, cells, ore)
    ensures AmountOf(layout, cells) == Ok(ore)
  {
    hide IsNorwegian, IsPlainAmount, ParseAmount, Cell;
    if layout.amount.Some? {
      AmountIsReadBack(Cell(cells, layout.amount), ore);
    } else if ore > 0 {
      AmountIsReadBack(Cell(cells, layout.inn), ore);
      NothingIsZero(Cell(cells, layout.out));
    } else {
      var cell := Cell(cells, layout.out);
      NothingIsZero(Cell(cells, layout.inn));
      AmountIsReadBack(cell, if IsAmountText(cell, ore) then ore else -ore);
    }
  }

  lemma NothingIsZero(cell: string)
    requires IsNothing(cell)
    ensures ParseAmount(cell) == Some(0)
  {
    hide IsNorwegian, IsPlainAmount;
    if cell != "" {
      AmountIsReadBack(cell, 0);
    }
  }

  lemma DateTextIsInk(raw: string, d: Date)
    requires IsDateText(raw, d)
    ensures raw != "" && exists i :: 0 <= i < |raw| && IsDigit(raw[i])
  {
    var s := Trim(raw);
    assert IsDigit(s[0]);
    TrimIsInside(raw, s[0]);
  }

  lemma RowIsReadBack(layout: Layout, cells: seq<string>, t: Transaction)
    requires RowShows(layout, cells, t)
    ensures ReadRow(layout, cells) == Ok([t])
  {
    var dateText := Cell(cells, Some(layout.date));
    DateTextIsInk(dateText, t.bookingDate);
    DateIsReadBack(dateText, t.bookingDate);
    AmountIsRead(layout, cells, t.amountOre);
    hide ParseDate, AmountOf, Cell, IsDateText, ShowsAmount;
  }

  /** The rows of a file, quoted or bare field by field, and what they show. */
  ghost predicate IsRowFile(layout: Layout, delimiter: char, written: seq<seq<string>>, cells: seq<seq<string>>,
                            transactions: seq<Transaction>)
  {
    && |written| == |cells| == |transactions| && AreRows(written)
    && forall k | 0 <= k < |cells| ::
         IsWrittenRow(cells[k], written[k], delimiter) && RowShows(layout, cells[k], transactions[k])
  }

  predicate AreRows(written: seq<seq<string>>) {
    forall row | row in written :: row != []
  }

  function RowLines(written: seq<seq<string>>, delimiter: char): (lines: seq<string>)
    requires AreRows(written)
    ensures |lines| == |written|
  {
    seq(|written|, k requires 0 <= k < |written| => assert written[k] in written; Joined(written[k], delimiter))
  }

  lemma RowLineIsInk(layout: Layout, delimiter: char, cells: seq<string>, written: seq<string>, t: Transaction)
    requires IsWrittenRow(cells, written, delimiter) && RowShows(layout, cells, t)
    ensures !IsBlank(Joined(written, delimiter))
  {
    var cell := Cell(cells, Some(layout.date));
    DateTextIsInk(cell, t.bookingDate);
    var i :| 0 <= i < |cell| && IsDigit(cell[i]);
    hide IsDateText, ShowsAmount, Trim;
    TrimIsInside(cells[layout.date], cell[i]);
    WrittenKeeps(cells[layout.date], written[layout.date], delimiter, cell[i]);
    JoinedContains(written, delimiter, layout.date, cell[i]);
    var line := Joined(written, delimiter);
    var k :| 0 <= k < |line| && line[k] == cell[i];
    assert !IsSpace(line[k]);
    BlankMeansAllSpace(line, k);
  }

  lemma {:induction false} DoubledKeeps(text: string, c: char)
    requires c in text
    ensures c in Doubled(text)
  {
    if text[0] != c {
      DoubledKeeps(text[1..], c);
    }
  }

  lemma WrittenKeeps(text: string, written: string, delimiter: char, c: char)
    requires IsWrittenAs(text, written, delimiter) && c in text
    ensures c in written
  {
    DoubledKeeps(text, c);
  }

  lemma OneMoreRow(layout: Layout, delimiter: char, front: seq<string>, line: string, transactions: seq<Transaction>,
                   t: Transaction)
    requires ReadRows(layout, delimiter, front) == Ok(transactions)
    requires !IsBlank(line) && ReadRow(layout, Fields(line, delimiter)) == Ok([t])
    ensures ReadRows(layout, delimiter, front + [line]) == Ok(transactions + [t])
  {
    hide ReadRow, Fields, IsBlank;
    assert (front + [line])[..|front|] == front;
  }

  lemma WrittenRowIsReadBack(layout: Layout, delimiter: char, cells: seq<string>, written: seq<string>, t: Transaction)
    requires IsWrittenRow(cells, written, delimiter) && RowShows(layout, cells, t) && delimiter != QUOTE
    ensures !IsBlank(Joined(written, delimiter))
    ensures ReadRow(layout, Fields(Joined(written, delimiter), delimiter)) == Ok([t])
  {
    hide RowShows, IsBlank, ReadRow, Fields, Joined;
    RowLineIsInk(layout, delimiter, cells, written, t);
    FieldsOfWrittenRow(cells, written, delimiter);
    RowIsReadBack(layout, cells, t);
  }

  /** The cells without a carriage return at the very end. */
  function Chopped(cells: seq<string>): (chopped: seq<string>)
    requires cells != []
    ensures |chopped| == |cells|
  {
    cells[|cells| - 1 := ChopReturn(cells[|cells| - 1])]
  }

  lemma {:induction false} ChopJoined(fields: seq<string>, delimiter: char)
    requires fields != [] && delimiter != '\r'
    ensures ChopReturn(Joined(fields, delimiter)) == Joined(Chopped(fields), delimiter)
    decreases |fields|
  {
    if |fields| > 1 {
      ChopJoined(fields[1..], delimiter);
      var rest := Joined(fields[1..], delimiter);
      assert Chopped(fields)[1..] == Chopped(fields[1..]);
      assert ChopReturn(fields[0] + [delimiter] + rest) == fields[0] + [delimiter] + ChopReturn(rest);
    }
  }

  lemma ChoppedIsWritten(cells: seq<string>, written: seq<string>, delimiter: char)
    requires IsWrittenRow(cells, written, delimiter)
    ensures IsWrittenRow(cells, Chopped(written), delimiter)
      || IsWrittenRow(Chopped(cells), Chopped(written), delimiter)
  {
    var n := |cells| - 1;
    assert IsWrittenAs(cells[n], written[n], delimiter);
    if written[n] == Quoted(cells[n]) {
      assert Chopped(written) == written;
    }
  }

  lemma TrimOfChopped(s: string)
    ensures Trim(ChopReturn(s)) == Trim(s)
  {
    if s != [] && s[|s| - 1] == '\r' {
      DropLastSpace(s[..|s| - 1], '\r');
      assert s == s[..|s| - 1] + ['\r'];
    }
  }

  lemma ChoppedShows(layout: Layout, cells: seq<string>, t: Transaction)
    requires cells != [] && RowShows(layout, cells, t)
    ensures RowShows(layout, Chopped(cells), t)
  {
    hide Trim, IsDateText, IsAmountText;
    TrimOfChopped(cells[|cells| - 1]);
    assert forall column :: Cell(Chopped(cells), column) == Cell(cells, column);
  }

  /** However its line ends, the row is read. */
  lemma SeenRowIsReadBack(layout: Layout, delimiter: char, cells: seq<string>, written: seq<string>, t: Transaction,
                          eol: string)
    requires IsWrittenRow(cells, written, delimiter) && RowShows(layout, cells, t)
    requires delimiter !in {QUOTE, '\r'}
    ensures
      var line := Seen(Joined(written, delimiter), eol);
      !IsBlank(line) && ReadRow(layout, Fields(line, delimiter)) == Ok([t])
  {
    hide RowShows, IsBlank, ReadRow, Fields, Joined, ChopReturn;
    if eol == "\n" {
      ChopJoined(written, delimiter);
      ChoppedIsWritten(cells, written, delimiter);
      ChoppedShows(layout, cells, t);
      hide IsWrittenRow;
      if IsWrittenRow(cells, Chopped(written), delimiter) {
        WrittenRowIsReadBack(layout, delimiter, cells, Chopped(written), t);
      } else {
        WrittenRowIsReadBack(layout, delimiter, Chopped(cells), Chopped(written), t);
      }
    } else {
      WrittenRowIsReadBack(layout, delimiter, cells, written, t);
    }
  }

  lemma {:induction false} RowsAreReadBack(layout: Layout, delimiter: char, lines: seq<string>,
                                           transactions: seq<Transaction>)
    requires |lines| == |transactions|
    requires forall k | 0 <= k < |lines| ::
      !IsBlank(lines[k]) && ReadRow(layout, Fields(lines[k], delimiter)) == Ok([transactions[k]])
    ensures ReadRows(layout, delimiter, lines) == Ok(transactions)
  {
    hide ReadRow, IsBlank, Fields;
    if |lines| > 0 {
      hide ReadRows;
      var n := |lines| - 1;
      RowsAreReadBack(layout, delimiter, lines[..n], transactions[..n]);
      OneMoreRow(layout, delimiter, lines[..n], lines[n], transactions[..n], transactions[n]);
      assert lines == lines[..n] + [lines[n]];
      assert transactions == transactions[..n] + [transactions[n]];
    }
  }

  // ---------- Files are read back ----------

  /** No field holds a line break. */
  ghost predicate AreUnbroken(cells: seq<seq<string>>) {
    forall row, cell | row in cells && cell in row :: '\n' !in cell
  }

  lemma {:induction false} DoubledAddsNothing(text: string, c: char)
    requires c !in text
    ensures c !in Doubled(text)
  {
    if text != [] {
      DoubledAddsNothing(text[1..], c);
    }
  }

  lemma RowIsUnbroken(cells: seq<string>, written: seq<string>, delimiter: char)
    requires IsWrittenRow(cells, written, delimiter) && delimiter != '\n'
    requires forall cell | cell in cells :: '\n' !in cell
    ensures '\n' !in Joined(written, delimiter)
  {
    if '\n' in Joined(written, delimiter) {
      JoinedMembers(written, delimiter, '\n');
      var i :| 0 <= i < |written| && '\n' in written[i];
      assert IsWrittenAs(cells[i], written[i], delimiter) && cells[i] in cells;
      DoubledAddsNothing(cells[i], '\n');
    }
  }

  /** What the reader sees of a file: its header line and its rows. */
  lemma FileFallsApart(marked: bool, header: string, rows: seq<string>, eol: string) returns (seen: seq<string>)
    requires IsLineEnd(eol) && IsLine(header, eol) && !IsBlank(header) && header[0] != BOM
    requires forall i | 0 <= i < |rows| :: '\n' !in rows[i]
    ensures |seen| == |rows| && forall i | 0 <= i < |rows| :: seen[i] == Seen(rows[i], eol)
    ensures
      var text := (if marked then [BOM] else []) + FileOf([header] + rows, eol);
      HeaderAndRest(Lines(DropBoms(text))) == Some((header, seen))
  {
    var lines := [header] + rows;
    FileStarts(header, rows, eol);
    BomIsDropped(marked, FileOf(lines, eol));
    assert forall i | 0 < i < |lines| :: lines[i] == rows[i - 1];
    LinesOfFile(lines, eol);
    seen := Lines(FileOf(lines, eol))[1..];
    assert Lines(FileOf(lines, eol)) == [header] + seen;
    hide FileOf, DropBoms, Lines, IsBlank, Seen, IsLineEnd;
  }

  /** Any header that is recognised, either line ending, with or without a byte order
      mark, fields quoted or bare: the transactions written are the transactions
      read, in order, between the earliest and the latest date. */
  lemma FileIsReadBack(norm: string -> string, marked: bool, header: string, eol: string, layout: Layout,
                       written: seq<seq<string>>, cells: seq<seq<string>>, transactions: seq<Transaction>)
    requires IsLineEnd(eol) && IsLine(header, eol) && !IsBlank(header) && header[0] != BOM
    requires LayoutOf(HeaderOf(header, norm).headers) == Some(layout)
    requires IsRowFile(layout, DetectDelimiter(header), written, cells, transactions) && AreUnbroken(cells)
    ensures
      var text := (if marked then [BOM] else []) + FileOf([header] + RowLines(written, DetectDelimiter(header)), eol);
      Parsed(text, norm) == Ok(StatementOf(transactions))
  {
    var delimiter := DetectDelimiter(header);
    var rows := RowLines(written, delimiter);
    hide RowShows, IsWrittenRow, Joined, IsBlank, Seen, ReadRow, Fields;
    forall k | 0 <= k < |rows| ensures '\n' !in rows[k] {
      assert cells[k] in cells;
      RowIsUnbroken(cells[k], written[k], delimiter);
    }
    var seen := FileFallsApart(marked, header, rows, eol);
    forall k | 0 <= k < |seen|
      ensures !IsBlank(seen[k]) && ReadRow(layout, Fields(seen[k], delimiter)) == Ok([transactions[k]])
    {
      SeenRowIsReadBack(layout, delimiter, cells[k], written[k], transactions[k], eol);
    }
    RowsAreReadBack(layout, delimiter, seen, transactions);
    hide *;
    ParsedIs((if marked then [BOM] else []) + FileOf([header] + rows, eol), norm, header, seen, layout, transactions);
  }

  lemma ParsedIs(text: string, norm: string -> string, header: string, rows: seq<string>, layout: Layout,
                 transactions: seq<Transaction>)
    requires HeaderAndRest(Lines(DropBoms(text))) == Some((header, rows))
    requires LayoutOf(HeaderOf(header, norm).headers) == Some(layout)
    requires ReadRows(layout, DetectDelimiter(header), rows) == Ok(transactions)
    ensures Parsed(text, norm) == Ok(StatementOf(transactions))
  {
    hide HeaderAndRest, LayoutOf, HeaderOf, ReadRows, StatementOf, DetectDelimiter, Lines, DropBoms;
  }

  lemma FileStarts(header: string, rows: seq<string>, eol: string)
    requires header != ""
    ensures FileOf([header] + rows, eol) != [] && FileOf([header] + rows, eol)[0] == header[0]
  {
  }

  lemma BomIsDropped(marked: bool, file: string)
    requires file != [] && file[0] != BOM
    ensures DropBoms((if marked then [BOM] else []) + file) == file
  {
    assert [] + file == file && ([BOM] + file)[1..] == file;
  }

  // ---------- A writer, and two layouts ----------

  /** The cells of a row for `t`, Norwegian style, in a layout whose columns are all
      different. */
  function CellsFor(layout: Layout, width: nat, t: Transaction): (cells: seq<string>)
    ensures |cells| == width
  {
    seq(width, i requires 0 <= i < width => CellFor(layout, i, t))
  }

  function CellFor(layout: Layout, i: nat, t: Transaction): string {
    if i == layout.date then DayFirstString(t.bookingDate, '.')
    else if Some(i) == layout.text then t.description
    else if Some(i) == layout.reference then (if t.reference.Some? then t.reference.value else "")
    else if Some(i) == layout.amount then CommaDecimals(t.amountOre)
    else if layout.amount == None && Some(i) == layout.inn && t.amountOre > 0 then CommaDecimals(t.amountOre)
    else if layout.amount == None && Some(i) == layout.out && t.amountOre < 0 then CommaDecimals(-t.amountOre)
    else ""
  }

  /** A layout that can carry a description and a reference, no two in one column. */
  predicate IsTidy(layout: Layout, width: nat) {
    && layout.date < width && Fits(layout.text, width) && Fits(layout.reference, width)
    && Some(layout.date) != layout.text && Some(layout.date) != layout.reference && layout.text != layout.reference
    && (layout.amount.Some? ==> MoneyFits(layout, layout.amount, width))
    && (layout.amount == None ==>
          MoneyFits(layout, layout.inn, width) && MoneyFits(layout, layout.out, width) && layout.inn != layout.out)
  }

  predicate Fits(column: Option<nat>, width: nat) {
    column.Some? && column.value < width
  }

  predicate MoneyFits(layout: Layout, column: Option<nat>, width: nat) {
    Fits(column, width) && column != Some(layout.date) && column != layout.text && column != layout.reference
  }

  /** Nothing at the ends that the reader would trim away, and all on one line. */
  predicate IsText(text: string) {
    IsTrimmed(text) && '\n' !in text
  }

  /** Something booked, and texts the reader can give back. */
  predicate IsReadable(t: Transaction) {
    && t.amountOre != 0 && IsText(t.description)
    && (t.reference.Some? ==> t.reference.value != "" && IsText(t.reference.value))
  }

  ghost predicate AreReadable(transactions: seq<Transaction>) {
    forall t | t in transactions :: IsReadable(t)
  }

  lemma CellsShow(layout: Layout, width: nat, t: Transaction)
    requires IsTidy(layout, width) && IsReadable(t)
    ensures RowShows(layout, CellsFor(layout, width, t), t)
  {
    hide Trim, IsTrimmed, DayFirstString, CommaDecimals, IsNorwegian;
    var cells := CellsFor(layout, width, t);
    assert Trim("") == "" by { TrimOfTrimmed(""); assert IsTrimmed("") by { NothingIsTrimmed(); } }
    TrimOfTrimmed(t.description);
    if t.reference.Some? {
      TrimOfTrimmed(t.reference.value);
    }
    DateIsTrimmed(t.bookingDate);
    CommaDecimalsAreTrimmed(t.amountOre);
    CommaDecimalsAreTrimmed(-t.amountOre);
  }

  lemma NothingIsTrimmed()
    ensures IsTrimmed("")
  {
  }

  lemma DateIsTrimmed(d: Date)
    ensures Trim(DayFirstString(d, '.')) == DayFirstString(d, '.')
  {
    var s := DayFirstString(d, '.');
    assert IsDigit(s[0]) && IsDigit(s[9]);
    TrimOfTrimmed(s);
  }

  lemma {:induction false} NothingToDrop(s: string, drop: char -> bool)
    requires forall c | c in s :: !drop(c)
    ensures Without(s, drop) == s
  {
    if s != [] {
      NothingToDrop(s[1..], drop);
      assert s == [s[0]] + s[1..];
    }
  }

  lemma CommaDecimalsAreTrimmed(ore: int)
    ensures Trim(CommaDecimals(ore)) == CommaDecimals(ore) && IsNorwegian(CommaDecimals(ore), ore)
  {
    var s := CommaDecimals(ore);
    var sign, whole, frac := if ore < 0 then "-" else "", ToString(Abs(ore) / 100), Padded(Abs(ore) % 100, 2);
    assert s == sign + whole + [','] + frac && s[|s| - 1] == frac[1];
    assert s[0] == if ore < 0 then '-' else whole[0];
    assert forall c | c in s :: c in {'-', ','} || IsDigit(c);
    assert forall c | IsDigit(c) || c in {'-', ','} :: !IsSpace(c) && !IsGrouping(c);
    NothingToDrop(s, IsGrouping);
    TrimOfTrimmed(s);
  }

  /** Every field in quotes. */
  function QuotedRow(cells: seq<string>): (row: seq<string>)
    ensures |row| == |cells|
  {
    seq(|cells|, i requires 0 <= i < |cells| => Quoted(cells[i]))
  }

  function QuotedRows(layout: Layout, width: nat, transactions: seq<Transaction>): (rows: seq<seq<string>>)
    ensures |rows| == |transactions|
    ensures width > 0 ==> AreRows(rows)
  {
    seq(|transactions|, k requires 0 <= k < |transactions| => QuotedRow(CellsFor(layout, width, transactions[k])))
  }

  /** A whole file in a given layout. */
  function FileFor(header: string, eol: string, layout: Layout, width: nat, transactions: seq<Transaction>): string
    requires width > 0
  {
    FileOf([header] + RowLines(QuotedRows(layout, width, transactions), DetectDelimiter(header)), eol)
  }

  ghost predicate IsUsable(norm: string -> string, header: string, eol: string, layout: Layout, width: nat) {
    && IsLine(header, eol) && !IsBlank(header) && header[0] != BOM
    && LayoutOf(HeaderOf(header, norm).headers) == Some(layout) && IsTidy(layout, width)
  }

  /** Whatever the file: a transaction that comes out of it is booked, its texts are
      trimmed, and no text holds a line break. */
  lemma OnlyReadableComesOut(text: string, norm: string -> string)
    requires Parsed(text, norm).Ok?
    ensures AreReadable(Parsed(text, norm).value.transactions)
  {
    hide ReadRows, LayoutOf, HeaderOf, Lines, AreReadable, DetectDelimiter, DropBoms;
    var lines := Lines(DropBoms(text));
    LinesHoldNoBreak(DropBoms(text));
    RestHoldsNoBreak(lines);
    var found := HeaderAndRest(lines).value;
    RowsAreReadable(LayoutOf(HeaderOf(found.0, norm).headers).value, DetectDelimiter(found.0), found.1);
  }

  lemma {:induction false} RestHoldsNoBreak(lines: seq<string>)
    requires forall i | 0 <= i < |lines| :: '\n' !in lines[i]
    ensures HeaderAndRest(lines).Some? ==> forall i | 0 <= i < |HeaderAndRest(lines).value.1| ::
              '\n' !in HeaderAndRest(lines).value.1[i]
  {
    if lines != [] && IsBlank(lines[0]) {
      RestHoldsNoBreak(lines[1..]);
    }
  }

  lemma {:induction false} RowsAreReadable(layout: Layout, delimiter: char, lines: seq<string>)
    requires ReadRows(layout, delimiter, lines).Ok? && forall i | 0 <= i < |lines| :: '\n' !in lines[i]
    ensures AreReadable(ReadRows(layout, delimiter, lines).value)
  {
    hide ReadRow, Fields, IsBlank, IsReadable;
    if lines != [] {
      var front, last := lines[..|lines| - 1], lines[|lines| - 1];
      RowsAreReadable(layout, delimiter, front);
      if !IsBlank(last) {
        RowIsReadable(layout, delimiter, last);
      }
    }
  }

  lemma RowIsReadable(layout: Layout, delimiter: char, line: string)
    requires '\n' !in line && ReadRow(layout, Fields(line, delimiter)).Ok?
    ensures AreReadable(ReadRow(layout, Fields(line, delimiter)).value)
  {
    hide Trim, IsTrimmed, ParseAmount, ParseDate, FieldsFrom, AmountOf;
    FieldsAreInside(line, delimiter, [], false, '\n');
    CellIsText(Fields(line, delimiter), layout.text);
    CellIsText(Fields(line, delimiter), layout.reference);
  }

  lemma CellIsText(cells: seq<string>, column: Option<nat>)
    requires forall i | 0 <= i < |cells| :: '\n' !in cells[i]
    ensures IsText(Cell(cells, column))
  {
    if column.Some? && column.value < |cells| {
      var cell := cells[column.value];
      TrimIsTrimmed(cell);
      if '\n' in Trim(cell) {
        TrimIsInside(cell, '\n');
      }
    }
  }

  /** A file of quoted fields gives back what was written if and only if something is
      booked in every transaction, its texts are trimmed and no text holds a line
      break. */
  lemma WrittenFileIsReadBackIff(norm: string -> string, header: string, eol: string, layout: Layout, width: nat,
                                 transactions: seq<Transaction>)
    requires IsLineEnd(eol) && IsUsable(norm, header, eol, layout, width)
    ensures Parsed(FileFor(header, eol, layout, width, transactions), norm) == Ok(StatementOf(transactions))
       <==> AreReadable(transactions)
  {
    hide LayoutOf, HeaderOf, IsTidy, Parsed, FileOf, IsLineEnd, IsRowFile, RowLines, QuotedRows, IsBlank, IsLine,
         Earliest, Latest, AreReadable, AreUnbroken, FileFor;
    TidyIsWide(layout, width);
    if Parsed(FileFor(header, eol, layout, width, transactions), norm) == Ok(StatementOf(transactions)) {
      OnlyReadableComesOut(FileFor(header, eol, layout, width, transactions), norm);
    }
    if AreReadable(transactions) {
      WrittenFileIsReadBack(norm, header, eol, layout, width, transactions);
    }
  }

  lemma WrittenFileIsReadBack(norm: string -> string, header: string, eol: string, layout: Layout, width: nat,
                              transactions: seq<Transaction>)
    requires IsLineEnd(eol) && IsUsable(norm, header, eol, layout, width) && AreReadable(transactions)
    ensures Parsed(FileFor(header, eol, layout, width, transactions), norm) == Ok(StatementOf(transactions))
  {
    hide LayoutOf, HeaderOf, IsTidy, Parsed, FileOf, IsLineEnd, IsRowFile, RowLines, QuotedRows, IsBlank, IsLine,
         StatementOf, AreReadable, AreUnbroken;
    var delimiter := DetectDelimiter(header);
    TidyIsWide(layout, width);
    var written := QuotedRows(layout, width, transactions);
    var cells := TidyRowFile(layout, delimiter, width, transactions);
    FileIsReadBack(norm, false, header, eol, layout, written, cells, transactions);
    var file := FileOf([header] + RowLines(written, delimiter), eol);
    assert [] + file == file;
  }

  lemma TidyRowFile(layout: Layout, delimiter: char, width: nat, transactions: seq<Transaction>)
    returns (cells: seq<seq<string>>)
    requires IsTidy(layout, width) && AreReadable(transactions)
    ensures IsRowFile(layout, delimiter, QuotedRows(layout, width, transactions), cells, transactions)
    ensures AreUnbroken(cells)
  {
    hide IsTidy, IsReadable, RowShows, Quoted;
    var written := QuotedRows(layout, width, transactions);
    cells := seq(|transactions|, k requires 0 <= k < |transactions| => CellsFor(layout, width, transactions[k]));
    assert width > 0 by { TidyIsWide(layout, width); }
    forall k | 0 <= k < |cells|
      ensures IsWrittenRow(cells[k], written[k], delimiter) && RowShows(layout, cells[k], transactions[k])
      ensures forall cell | cell in cells[k] :: '\n' !in cell
    {
      assert transactions[k] in transactions;
      CellsShow(layout, width, transactions[k]);
      CellsAreUnbroken(layout, width, transactions[k]);
    }
  }

  /** Nothing but the two texts can hold a line break. */
  lemma CellsAreUnbroken(layout: Layout, width: nat, t: Transaction)
    requires IsReadable(t)
    ensures forall cell | cell in CellsFor(layout, width, t) :: '\n' !in cell
  {
    hide DayFirstString, CommaDecimals, IsTrimmed;
    FiguresArePlain(t.bookingDate, t.amountOre);
    FiguresArePlain(t.bookingDate, -t.amountOre);
  }

  /** Dates and amounts are written with digits and three marks. */
  lemma FiguresArePlain(d: Date, ore: int)
    ensures forall c | c in DayFirstString(d, '.') || c in CommaDecimals(ore) :: IsDigit(c) || c in {'.', ',', '-'}
  {
  }

  lemma TidyIsWide(layout: Layout, width: nat)
    requires IsTidy(layout, width)
    ensures width > 0
  {
  }

  /** The same transactions exported with one signed column and with separate inn/ut
      columns give the same statement. */
  lemma LayoutsAgree(norm: string -> string, eol: string, transactions: seq<Transaction>,
                     header: string, layout: Layout, width: nat, header': string, layout': Layout, width': nat)
    requires IsLineEnd(eol) && AreReadable(transactions)
    requires IsUsable(norm, header, eol, layout, width) && IsUsable(norm, header', eol, layout', width')
    ensures Parsed(FileFor(header, eol, layout, width, transactions), norm)
         == Parsed(FileFor(header', eol, layout', width', transactions), norm)
  {
    hide FileFor, Parsed, StatementOf, IsUsable, AreReadable;
    WrittenFileIsReadBack(norm, header, eol, layout, width, transactions);
    WrittenFileIsReadBack(norm, header', eol, layout', width', transactions);
  }

  // ---------- Rows broken over two lines ----------

  /** No quote and no delimiter: a text that would not have needed its quotes. */
  predicate IsBare(text: string, delimiter: char) {
    QUOTE !in text && delimiter !in text
  }

  /** Quoting what needs no quotes adds the quotes and nothing else. */
  lemma {:induction false} DoubledBare(text: string)
    requires QUOTE !in text
    ensures Doubled(text) == text
  {
    if text != [] {
      DoubledBare(text[1..]);
      assert text == [text[0]] + text[1..];
    }
  }

  /** Read from within quotes to the end of the line: one field. */
  lemma {:induction false} OpenQuoteIsOneField(text: string, delimiter: char, field: string)
    requires QUOTE !in text
    ensures |FieldsFrom(text, delimiter, field, true)| == 1
    decreases |text|
  {
    if text != [] {
      OpenQuoteIsOneField(text[1..], delimiter, field + [text[0]]);
    }
  }

  /** From within quotes, the delimiters between quoted fields are text and the fields
      themselves lie outside: one field again. */
  lemma {:induction false} ShiftedQuotesAreOneField(cells: seq<string>, delimiter: char, field: string)
    requires delimiter != QUOTE && cells != [] && forall cell | cell in cells :: IsBare(cell, delimiter)
    ensures |FieldsFrom([delimiter] + Joined(QuotedRow(cells), delimiter), delimiter, field, true)| == 1
    decreases |cells|
  {
    hide FieldsFrom;
    var cell, row := cells[0], QuotedRow(cells);
    var field1 := field + [delimiter];
    assert cell in cells && IsBare(cell, delimiter);
    DoubledBare(cell);
    StepInside([delimiter] + Joined(row, delimiter), delimiter, field);
    assert ([delimiter] + Joined(row, delimiter))[1..] == Joined(row, delimiter);
    if |cells| == 1 {
      assert Joined(row, delimiter) == [QUOTE] + cell + [QUOTE] + [];
      ShiftedCell(cell, [], delimiter, field1);
      EndIsOneField(delimiter, if cell == [] then field1 + [QUOTE] else field1 + cell);
    } else {
      var rest := [delimiter] + Joined(QuotedRow(cells[1..]), delimiter);
      assert row[1..] == QuotedRow(cells[1..]);
      assert Joined(row, delimiter) == [QUOTE] + cell + [QUOTE] + rest;
      ShiftedCell(cell, rest, delimiter, field1);
      ShiftedQuotesAreOneField(cells[1..], delimiter, if cell == [] then field1 + [QUOTE] else field1 + cell);
    }
  }

  lemma StepInside(rest: string, delimiter: char, field: string)
    requires rest != [] && rest[0] != QUOTE
    ensures FieldsFrom(rest, delimiter, field, true) == FieldsFrom(rest[1..], delimiter, field + [rest[0]], true)
  {
  }

  lemma EndIsOneField(delimiter: char, field: string)
    ensures |FieldsFrom([], delimiter, field, true)| == 1
  {
  }

  /** One quoted field met from within quotes: its first quote closes, its last opens; an
      empty one is a quote character. */
  lemma ShiftedCell(cell: string, after: string, delimiter: char, field: string)
    requires IsBare(cell, delimiter) && delimiter != QUOTE
    ensures FieldsFrom([QUOTE] + cell + [QUOTE] + after, delimiter, field, true)
         == FieldsFrom(after, delimiter, if cell == [] then field + [QUOTE] else field + cell, true)
  {
    var all := [QUOTE] + cell + [QUOTE] + after;
    if cell == [] {
      assert all[2..] == after && all[1] == QUOTE;
    } else {
      assert all[1..] == cell + ([QUOTE] + after);
      CollectsBare(cell, [QUOTE] + after, delimiter, field);
      assert ([QUOTE] + after)[1..] == after;
    }
  }

  /** The last line of a broken row: what is left of the text, and all other fields. */
  lemma LastPieceIsOneField(text: string, cells: seq<string>, delimiter: char)
    requires IsBare(text, delimiter) && delimiter != QUOTE && cells != []
    requires forall cell | cell in cells :: IsBare(cell, delimiter)
    ensures |Fields(text + ([QUOTE, delimiter] + Joined(QuotedRow(cells), delimiter)), delimiter)| == 1
  {
    var rest := [delimiter] + Joined(QuotedRow(cells), delimiter);
    var tail := [QUOTE, delimiter] + Joined(QuotedRow(cells), delimiter);
    assert tail[1..] == rest;
    CollectsBare(text, tail, delimiter, []);
    assert [] + text == text;
    hide Joined;
    ShiftedQuotesAreOneField(cells, delimiter, text);
  }

  lemma BareIsOneField(text: string, delimiter: char)
    requires IsBare(text, delimiter)
    ensures |Fields(text, delimiter)| == 1
  {
    assert text + [] == text;
    CollectsBare(text, [], delimiter, []);
  }

  ghost predicate AreOneField(lines: seq<string>, delimiter: char) {
    forall i | 0 <= i < |lines| :: |Fields(lines[i], delimiter)| == 1
  }

  /** The lines of what is left of a broken row, after its first line break. */
  lemma {:induction false} PiecesAreOneField(text: string, cells: seq<string>, delimiter: char, eol: string)
    requires IsBare(text, delimiter) && delimiter != QUOTE && cells != [] && IsLineEnd(eol)
    requires forall cell | cell in cells :: IsBare(cell, delimiter)
    requires '\n' !in [QUOTE, delimiter] + Joined(QuotedRow(cells), delimiter)
    ensures AreOneField(Lines(text + ([QUOTE, delimiter] + Joined(QuotedRow(cells), delimiter)) + eol), delimiter)
    decreases |text|
  {
    hide Lines, Fields, Seen, ChopReturn, IsLineEnd;
    var tail := [QUOTE, delimiter] + Joined(QuotedRow(cells), delimiter);
    SplitOnceCuts(text, '\n');
    match SplitOnce(text, '\n')
    case None =>
      var line := text + tail;
      assert line + eol == line + eol + [];
      FirstLine(line, eol, []);
      NoLines();
      LastIsQuote(cells, delimiter);
      SeenQuote(line, eol);
      LastPieceIsOneField(text, cells, delimiter);
    case Some(parts) =>
      assert text + tail + eol == parts.0 + ['\n'] + (parts.1 + tail + eol);
      BrokenLine(parts.0, parts.1 + tail + eol);
      ChopOfBare(parts.0, delimiter);
      BareIsOneField(ChopReturn(parts.0), delimiter);
      PiecesAreOneField(parts.1, cells, delimiter, eol);
  }

  lemma ChopOfBare(text: string, delimiter: char)
    requires IsBare(text, delimiter)
    ensures IsBare(ChopReturn(text), delimiter)
  {
  }

  lemma {:induction false} LastIsQuote(cells: seq<string>, delimiter: char)
    requires cells != []
    ensures var line := Joined(QuotedRow(cells), delimiter); line != [] && line[|line| - 1] == QUOTE
    decreases |cells|
  {
    if |cells| > 1 {
      LastIsQuote(cells[1..], delimiter);
      assert QuotedRow(cells)[1..] == QuotedRow(cells[1..]);
    }
  }

  lemma SeenQuote(line: string, eol: string)
    requires line != [] && line[|line| - 1] == QUOTE
    ensures Seen(line, eol) == line
  {
  }

  /** A row of quoted fields whose first text is broken over several lines. */
  lemma BrokenRowIsSingleFields(cells: seq<string>, delimiter: char, eol: string)
    requires |cells| > 1 && delimiter !in {QUOTE, '\n', '\r'} && IsLineEnd(eol)
    requires forall cell | cell in cells :: IsBare(cell, delimiter)
    requires '\n' in cells[0] && forall cell | cell in cells[1..] :: '\n' !in cell
    ensures AreOneField(Lines(Joined(QuotedRow(cells), delimiter) + eol), delimiter)
  {
    hide Lines, Fields, ChopReturn, IsLineEnd, Joined, QuotedRow, Quoted, IsBare;
    var text, rest := cells[0], cells[1..];
    var tail := [QUOTE, delimiter] + Joined(QuotedRow(rest), delimiter);
    assert forall cell | cell in rest :: cell in cells;
    QuotedRowStarts(cells, delimiter);
    SplitOnceCuts(text, '\n');
    var parts := SplitOnce(text, '\n').value;
    HalvesAreBare(parts.0, parts.1, delimiter);
    assert [QUOTE] + text + tail + eol == ([QUOTE] + parts.0) + ['\n'] + (parts.1 + tail + eol);
    BrokenLine([QUOTE] + parts.0, parts.1 + tail + eol);
    OpenedIsOneField(parts.0, delimiter);
    QuotedIsUnbroken(rest, delimiter);
    PiecesAreOneField(parts.1, rest, delimiter, eol);
  }

  lemma QuotedRowStarts(cells: seq<string>, delimiter: char)
    requires |cells| > 1 && IsBare(cells[0], delimiter)
    ensures Joined(QuotedRow(cells), delimiter)
         == [QUOTE] + cells[0] + ([QUOTE, delimiter] + Joined(QuotedRow(cells[1..]), delimiter))
  {
    DoubledBare(cells[0]);
    assert QuotedRow(cells)[1..] == QuotedRow(cells[1..]);
  }

  lemma HalvesAreBare(a: string, b: string, delimiter: char)
    requires IsBare(a + ['\n'] + b, delimiter)
    ensures IsBare(a, delimiter) && IsBare(b, delimiter)
  {
    assert forall c | c in a || c in b :: c in a + ['\n'] + b;
  }

  lemma OpenedIsOneField(text: string, delimiter: char)
    requires IsBare(text, delimiter)
    ensures |Fields(ChopReturn([QUOTE] + text), delimiter)| == 1
  {
    var chopped := if text == [] then text else ChopReturn(text);
    assert ChopReturn([QUOTE] + text) == [QUOTE] + chopped;
    assert ([QUOTE] + chopped)[1..] == chopped;
    OpenQuoteIsOneField(chopped, delimiter, []);
  }

  lemma QuotedIsUnbroken(cells: seq<string>, delimiter: char)
    requires cells != [] && delimiter != '\n' && forall cell | cell in cells :: '\n' !in cell
    ensures '\n' !in [QUOTE, delimiter] + Joined(QuotedRow(cells), delimiter)
  {
    RowIsUnbroken(cells, QuotedRow(cells), delimiter);
  }

  /** Lines without a date cell are passed over. */
  lemma {:induction false} SingleFieldsArePassedOver(layout: Layout, delimiter: char, lines: seq<string>)
    requires layout.date > 0 && AreOneField(lines, delimiter)
    ensures ReadRows(layout, delimiter, lines) == Ok([])
  {
    hide Fields, IsBlank, AmountOf;
    if lines != [] {
      SingleFieldsArePassedOver(layout, delimiter, lines[..|lines| - 1]);
      assert Cell(Fields(lines[|lines| - 1], delimiter), Some(layout.date)) == "";
      var none: seq<Transaction> := [];
      assert none + [] == none;
    }
  }

  lemma {:induction false} ReadRowsAppend(layout: Layout, delimiter: char, front: seq<string>, more: seq<string>)
    requires ReadRows(layout, delimiter, front).Ok? && ReadRows(layout, delimiter, more).Ok?
    ensures ReadRows(layout, delimiter, front + more)
         == Ok(ReadRows(layout, delimiter, front).value + ReadRows(layout, delimiter, more).value)
  {
    hide Fields, IsBlank, ReadRow;
    if more == [] {
      assert front + more == front;
      assert ReadRows(layout, delimiter, front).value + [] == ReadRows(layout, delimiter, front).value;
    } else {
      assert (front + more)[..|front + more| - 1] == front + more[..|more| - 1];
      var init, last := more[..|more| - 1], more[|more| - 1];
      ReadRowsAppend(layout, delimiter, front, init);
      if !IsBlank(last) {
        Regroup(ReadRows(layout, delimiter, front).value, ReadRows(layout, delimiter, init).value,
                ReadRow(layout, Fields(last, delimiter)).value);
      }
    }
  }

  /** The lines of a file are the lines of its first part and then those of the rest. */
  lemma {:induction false} LinesAppend(line: string, eol: string, rest: string)
    requires IsLineEnd(eol)
    ensures Lines(line + eol + rest) == Lines(line + eol) + Lines(rest)
    decreases |line|
  {
    hide Lines, Seen, ChopReturn, IsLineEnd;
    SplitOnceCuts(line, '\n');
    match SplitOnce(line, '\n')
    case None =>
      FirstLine(line, eol, rest);
      FirstLine(line, eol, []);
      assert line + eol + [] == line + eol;
      NoLines();
    case Some(parts) =>
      assert line + eol + rest == parts.0 + ['\n'] + (parts.1 + eol + rest);
      assert line + eol == parts.0 + ['\n'] + (parts.1 + eol);
      BrokenLine(parts.0, parts.1 + eol + rest);
      BrokenLine(parts.0, parts.1 + eol);
      LinesAppend(parts.1, eol, rest);
  }

  /** The transactions that are not broken over lines. */
  function Unbroken(transactions: seq<Transaction>): seq<Transaction> {
    if transactions == [] then []
    else (if '\n' in transactions[0].description then [] else [transactions[0]]) + Unbroken(transactions[1..])
  }

  /** A transaction the reader could give back but for line breaks in its description,
      and whose texts would not need quotes otherwise. */
  predicate IsPlain(t: Transaction, delimiter: char) {
    && t.amountOre != 0 && IsTrimmed(t.description) && IsBare(t.description, delimiter)
    && (t.reference.Some? ==>
          t.reference.value != "" && IsText(t.reference.value) && IsBare(t.reference.value, delimiter))
  }

  /** The line one transaction is written on. */
  function LineFor(layout: Layout, width: nat, t: Transaction, delimiter: char): string
    requires width > 0
  {
    Joined(QuotedRow(CellsFor(layout, width, t)), delimiter)
  }

  lemma CellsArePlain(layout: Layout, width: nat, t: Transaction, delimiter: char)
    requires IsTidy(layout, width) && layout.text == Some(0) && IsPlain(t, delimiter) && delimiter in {';', '\t'}
    ensures var cells := CellsFor(layout, width, t);
      && |cells| > 1 && cells[0] == t.description && (forall cell | cell in cells :: IsBare(cell, delimiter))
      && forall cell | cell in cells[1..] :: '\n' !in cell
  {
    hide DayFirstString, CommaDecimals, IsTrimmed;
    FiguresArePlain(t.bookingDate, t.amountOre);
    FiguresArePlain(t.bookingDate, -t.amountOre);
  }

  /** One transaction, through its lines: read back, or gone without an error. */
  lemma LineIsReadOrLost(layout: Layout, width: nat, t: Transaction, delimiter: char, eol: string)
    requires IsTidy(layout, width) && layout.text == Some(0) && IsPlain(t, delimiter) && delimiter in {';', '\t'}
    requires IsLineEnd(eol) && width > 0
    ensures ReadRows(layout, delimiter, Lines(LineFor(layout, width, t, delimiter) + eol))
         == Ok(if '\n' in t.description then [] else [t])
  {
    hide ReadRow, Fields, IsBlank, Lines, Joined, IsLineEnd, IsTidy, QuotedRow, IsTrimmed, Seen;
    var cells := CellsFor(layout, width, t);
    var line := LineFor(layout, width, t, delimiter);
    CellsArePlain(layout, width, t, delimiter);
    if '\n' in t.description {
      BrokenRowIsSingleFields(cells, delimiter, eol);
      assert layout.date > 0 by { TextIsNotDate(layout, width); }
      SingleFieldsArePassedOver(layout, delimiter, Lines(line + eol));
    } else {
      CellsAreUnbroken(layout, width, t);
      CellsShow(layout, width, t);
      QuotedRowIsWritten(cells, delimiter);
      RowIsUnbroken(cells, QuotedRow(cells), delimiter);
      FirstLine(line, eol, []);
      NoLines();
      assert line + eol + [] == line + eol;
      hide RowShows, IsPlain, IsReadable, CellsFor, IsBare;
      SeenRowIsReadBack(layout, delimiter, cells, QuotedRow(cells), t, eol);
      RowsAreReadBack(layout, delimiter, [Seen(line, eol)], [t]);
    }
  }

  lemma TextIsNotDate(layout: Layout, width: nat)
    requires IsTidy(layout, width) && layout.text == Some(0)
    ensures layout.date > 0
  {
  }

  lemma QuotedRowIsWritten(cells: seq<string>, delimiter: char)
    requires cells != []
    ensures IsWrittenRow(cells, QuotedRow(cells), delimiter)
  {
  }

  ghost predicate ArePlain(transactions: seq<Transaction>, delimiter: char) {
    forall t | t in transactions :: IsPlain(t, delimiter)
  }

  lemma {:induction false} LinesAreReadOrLost(layout: Layout, width: nat, transactions: seq<Transaction>,
                                              delimiter: char,
                                              eol: string)
    requires IsTidy(layout, width) && layout.text == Some(0) && delimiter in {';', '\t'}
    requires IsLineEnd(eol) && width > 0 && ArePlain(transactions, delimiter)
    ensures ReadRows(layout, delimiter, Lines(FileOf(RowLines(QuotedRows(layout, width, transactions), delimiter),
                                                     eol)))
         == Ok(Unbroken(transactions))
    decreases |transactions|
  {
    hide ReadRows, Lines, IsLineEnd, IsTidy, IsPlain, QuotedRow, LineFor;
    var rows := RowLines(QuotedRows(layout, width, transactions), delimiter);
    if transactions == [] {
      assert rows == [];
      NoLines();
      NoRowsRead(layout, delimiter);
    } else {
      var t, rest := transactions[0], transactions[1..];
      var more := RowLines(QuotedRows(layout, width, rest), delimiter);
      RowsForMore(layout, width, transactions, delimiter);
      assert rows[1..] == more && rows[0] == LineFor(layout, width, t, delimiter);
      assert t in transactions && forall u | u in rest :: u in transactions;
      LinesAppend(rows[0], eol, FileOf(more, eol));
      LineIsReadOrLost(layout, width, t, delimiter, eol);
      LinesAreReadOrLost(layout, width, rest, delimiter, eol);
      ReadRowsAppend(layout, delimiter, Lines(rows[0] + eol), Lines(FileOf(more, eol)));
    }
  }

  lemma NoRowsRead(layout: Layout, delimiter: char)
    ensures ReadRows(layout, delimiter, []) == Ok([])
  {
  }

  lemma RowsForMore(layout: Layout, width: nat, transactions: seq<Transaction>, delimiter: char)
    requires width > 0 && transactions != []
    ensures RowLines(QuotedRows(layout, width, transactions), delimiter)
         == [LineFor(layout, width, transactions[0], delimiter)]
          + RowLines(QuotedRows(layout, width, transactions[1..]), delimiter)
  {
    hide Joined, QuotedRow, CellsFor;
    var rows, more := QuotedRows(layout, width, transactions), QuotedRows(layout, width, transactions[1..]);
    assert rows == [QuotedRow(CellsFor(layout, width, transactions[0]))] + more;
  }

  lemma TextIsInk(line: string)
    requires !IsBlank(line)
    ensures line != ""
  {
  }

  /** Where the description is the first column, the transactions whose description holds
      a line break are lost, all of them and only they, and no error says so. */
  lemma BrokenRowsDisappear(norm: string -> string, header: string, eol: string, layout: Layout, width: nat,
                            transactions: seq<Transaction>)
    requires IsLineEnd(eol) && IsUsable(norm, header, eol, layout, width) && layout.text == Some(0)
    requires DetectDelimiter(header) != ',' && ArePlain(transactions, DetectDelimiter(header))
    ensures Parsed(FileFor(header, eol, layout, width, transactions), norm) == Ok(StatementOf(Unbroken(transactions)))
  {
    var delimiter := DetectDelimiter(header);
    TidyIsWide(layout, width);
    var rows := RowLines(QuotedRows(layout, width, transactions), delimiter);
    assert header != "" by { TextIsInk(header); }
    hide LayoutOf, HeaderOf, IsTidy, IsLineEnd, ReadRows, StatementOf, Lines, IsBlank, ArePlain, Unbroken, RowLines,
         QuotedRows;
    var rest := FileOf(rows, eol);
    var file := FileOf([header] + rows, eol);
    LinesAreReadOrLost(layout, width, transactions, delimiter, eol);
    FileStarts(header, rows, eol);
    assert file == header + eol + rest by { assert ([header] + rows)[1..] == rows; }
    hide FileOf;
    FirstLine(header, eol, rest);
    assert DropBoms(file) == file;
    assert ([header] + Lines(rest))[1..] == Lines(rest);
    ParsedIs(file, norm, header, Lines(rest), layout, Unbroken(transactions));
  }

  // ---------- Headers that are recognised ----------

  /** Column `i` is the first that is word for word a candidate and holds no avoided
      word. */
  predicate IsColumnFor(headers: seq<string>, candidates: seq<string>, avoid: seq<string>, i: nat) {
    && i < |headers| && IsExact(headers[i], candidates, avoid)
    && forall j | 0 <= j < i :: !IsExact(headers[j], candidates, avoid)
  }

  predicate AreApart(columns: seq<nat>) {
    forall i, j | 0 <= i < j < |columns| :: columns[i] != columns[j]
  }

  /** Any header with a date, a text, a reference and a signed amount column, each named
      by one of its words, is recognised with those columns, whatever else it has. */
  lemma SignedHeaderIsRecognised(headers: seq<string>, date: nat, description: nat, amount: nat, reference: nat)
    requires IsColumnFor(headers, DATE_WORDS, DATE_AVOID, date) && IsColumnFor(headers, TEXT_WORDS, [], description)
    requires IsColumnFor(headers, AMOUNT_WORDS, AMOUNT_AVOID, amount)
    requires IsColumnFor(headers, REFERENCE_WORDS, [], reference)
    requires AreApart([date, description, amount, reference])
    ensures
      var layout := LayoutOf(headers);
      && layout.Some? && IsTidy(layout.value, |headers|)
      && layout.value.date == date && layout.value.text == Some(description)
      && layout.value.amount == Some(amount) && layout.value.reference == Some(reference)
  {
    hide ColumnOf, IsExact, IsLoose;
    ColumnIsUnique(headers, DATE_WORDS, DATE_AVOID, date);
    ColumnIsUnique(headers, TEXT_WORDS, [], description);
    ColumnIsUnique(headers, AMOUNT_WORDS, AMOUNT_AVOID, amount);
    ColumnIsUnique(headers, REFERENCE_WORDS, [], reference);
    Pairs([date, description, amount, reference]);
  }

  lemma Pairs(columns: seq<nat>)
    requires |columns| >= 4 && AreApart(columns)
    ensures columns[0] != columns[1] && columns[0] != columns[2] && columns[0] != columns[3]
    ensures columns[1] != columns[2] && columns[1] != columns[3] && columns[2] != columns[3]
    ensures |columns| > 4 ==> columns[4] !in columns[..4]
  {
  }

  /** Any header with separate columns for what came in and what went out, and no
      amount column, likewise. */
  lemma SplitHeaderIsRecognised(headers: seq<string>, date: nat, description: nat, inn: nat, out: nat, reference: nat)
    requires IsColumnFor(headers, DATE_WORDS, DATE_AVOID, date) && IsColumnFor(headers, TEXT_WORDS, [], description)
    requires IsColumnFor(headers, IN_WORDS, IN_AVOID, inn) && IsColumnFor(headers, OUT_WORDS, OUT_AVOID, out)
    requires IsColumnFor(headers, REFERENCE_WORDS, [], reference)
    requires ColumnOf(headers, AMOUNT_WORDS, AMOUNT_AVOID) == None
    requires AreApart([date, description, inn, out, reference])
    ensures
      var layout := LayoutOf(headers);
      && layout.Some? && IsTidy(layout.value, |headers|)
      && layout.value.date == date && layout.value.text == Some(description) && layout.value.amount == None
      && layout.value.inn == Some(inn) && layout.value.out == Some(out) && layout.value.reference == Some(reference)
  {
    hide ColumnOf, IsExact, IsLoose;
    ColumnIsUnique(headers, DATE_WORDS, DATE_AVOID, date);
    ColumnIsUnique(headers, TEXT_WORDS, [], description);
    ColumnIsUnique(headers, IN_WORDS, IN_AVOID, inn);
    ColumnIsUnique(headers, OUT_WORDS, OUT_AVOID, out);
    ColumnIsUnique(headers, REFERENCE_WORDS, [], reference);
    Pairs([date, description, inn, out, reference]);
    FifthApart([date, description, inn, out, reference]);
  }

  lemma FifthApart(columns: seq<nat>)
    requires |columns| == 5 && AreApart(columns)
    ensures columns[4] != columns[0] && columns[4] != columns[1] && columns[4] != columns[2] && columns[4] != columns[3]
  {
  }

  /** One header of each kind, as witnesses. */
  lemma SignedHeaderWitness()
    ensures
      var layout := LayoutOf(["dato", "tekst", "belop", "kid"]);
      layout.Some? && IsTidy(layout.value, 4) && layout.value.amount == Some(2)
  {
    hide ColumnOf;
    var h := ["dato", "tekst", "belop", "kid"];
    ShortColumn(h, DATE_WORDS, DATE_AVOID, 0);
    ShortColumn(h, TEXT_WORDS, [], 1);
    ShortColumn(h, AMOUNT_WORDS, AMOUNT_AVOID, 2);
    ShortColumn(h, REFERENCE_WORDS, [], 3);
    hide *;
    hide DATE_WORDS, DATE_AVOID, TEXT_WORDS, AMOUNT_WORDS, AMOUNT_AVOID, REFERENCE_WORDS, IN_WORDS, IN_AVOID,
         OUT_WORDS, OUT_AVOID;
    Apart4();
    SignedHeaderIsRecognised(h, 0, 1, 2, 3);
  }

  lemma Apart4()
    ensures AreApart([0, 1, 2, 3])
  {
  }

  lemma SplitHeaderWitness()
    ensures
      var layout := LayoutOf(["dato", "tekst", "ut", "inn", "kid"]);
      && layout.Some? && IsTidy(layout.value, 5) && layout.value.amount == None
      && layout.value.inn == Some(3) && layout.value.out == Some(2)
  {
    hide ColumnOf;
    var h := ["dato", "tekst", "ut", "inn", "kid"];
    ShortColumn(h, DATE_WORDS, DATE_AVOID, 0);
    ShortColumn(h, TEXT_WORDS, [], 1);
    ShortColumn(h, OUT_WORDS, OUT_AVOID, 2);
    ShortColumn(h, IN_WORDS, IN_AVOID, 3);
    ShortColumn(h, REFERENCE_WORDS, [], 4);
    NoColumn(h, AMOUNT_WORDS, AMOUNT_AVOID);
    hide *;
    hide DATE_WORDS, DATE_AVOID, TEXT_WORDS, AMOUNT_WORDS, AMOUNT_AVOID, REFERENCE_WORDS, IN_WORDS, IN_AVOID,
         OUT_WORDS, OUT_AVOID;
    Apart5();
    SplitHeaderIsRecognised(h, 0, 1, 3, 2, 4);
  }

  lemma Apart5()
    ensures AreApart([0, 1, 3, 2, 4])
  {
  }

  /** A header that is word for word a candidate is too short to hold an avoided word. */
  lemma ShortColumn(headers: seq<string>, candidates: seq<string>, avoid: seq<string>, i: nat)
    requires i < |headers| && headers[i] in candidates && forall j | 0 <= j < i :: headers[j] !in candidates
    requires forall k | 0 <= k < |avoid| :: |headers[i]| < |avoid[k]|
    ensures IsColumnFor(headers, candidates, avoid, i)
  {
  }

  lemma NoColumn(headers: seq<string>, candidates: seq<string>, avoid: seq<string>)
    requires forall j | 0 <= j < |headers| :: headers[j] !in candidates
    requires forall j, k | 0 <= j < |headers| && 0 <= k < |candidates| :: |headers[j]| <= |candidates[k]|
    ensures ColumnOf(headers, candidates, avoid) == None
  {
    forall j | 0 <= j < |headers| ensures !IsLoose(headers[j], candidates, avoid)
      && !IsExact(headers[j], candidates, avoid) {
      forall k | 0 <= k < |candidates| ensures !Contains(headers[j], candidates[k]) {
        assert headers[j][0..|headers[j]|] == headers[j];
      }
    }
  }

  // ---------- One broken row, written out ----------

  const BROKEN_HEADER := "tekst;dato;belop;kid"
  const BROKEN_WORDS := ["tekst", "dato", "belop", "kid"]
  const BROKEN_CELLS := ["a\nb", "01.01.2026", "100,00", ""]
  const BROKEN_LINE := "\"a\nb\";\"01.01.2026\";\"100,00\";\"\""
  const BROKEN := Camt053.Transaction(CivilDate(2026, 1, 1), 10000, "a\nb", None)

  /** One such file: a hundred kroner with a description on two lines, and the reader
      finds nothing in it and nothing wrong with it. */
  lemma BrokenRowWitness()
    ensures Parsed(BROKEN_HEADER + "\n" + (BROKEN_LINE + "\n"), header => header) == Ok(CsvStatement(None, None, []))
  {
    var norm := (header: string) => header;
    var layout := WitnessLayout(norm);
    BrokenIsPlain();
    WitnessFile(layout);
    hide *;
    hide BROKEN_HEADER, BROKEN_WORDS, BROKEN_CELLS, BROKEN;
    LostAltogether(norm, layout);
  }

  lemma LostAltogether(norm: string -> string, layout: Layout)
    requires IsUsable(norm, BROKEN_HEADER, "\n", layout, 4) && layout.text == Some(0)
    requires DetectDelimiter(BROKEN_HEADER) != ',' && IsPlain(BROKEN, DetectDelimiter(BROKEN_HEADER))
    ensures Parsed(FileFor(BROKEN_HEADER, "\n", layout, 4, [BROKEN]), norm) == Ok(CsvStatement(None, None, []))
  {
    hide IsUsable, Parsed, FileFor, DetectDelimiter, IsPlain;
    BrokenRowsDisappear(norm, BROKEN_HEADER, "\n", layout, 4, [BROKEN]);
    assert BROKEN.description[1] == '\n' && [BROKEN][1..] == [];
  }

  lemma WitnessLayout(norm: string -> string) returns (layout: Layout)
    requires forall header :: norm(header) == header
    ensures IsUsable(norm, BROKEN_HEADER, "\n", layout, 4)
    ensures layout.date == 1 && layout.amount == Some(2) && layout.text == Some(0) && layout.reference == Some(3)
  {
    BrokenHeaderIsRead(norm);
    layout := WordsLayout();
    hide *;
    HeaderIsUsable(norm, layout);
  }

  lemma WordsLayout() returns (layout: Layout)
    ensures LayoutOf(BROKEN_WORDS) == Some(layout) && IsTidy(layout, 4)
    ensures layout.date == 1 && layout.amount == Some(2) && layout.text == Some(0) && layout.reference == Some(3)
  {
    hide ColumnOf, IsLoose, IsExact;
    var h := BROKEN_WORDS;
    ShortColumn(h, DATE_WORDS, DATE_AVOID, 1);
    ShortColumn(h, TEXT_WORDS, [], 0);
    ShortColumn(h, AMOUNT_WORDS, AMOUNT_AVOID, 2);
    ShortColumn(h, REFERENCE_WORDS, [], 3);
    hide *;
    hide DATE_WORDS, DATE_AVOID, TEXT_WORDS, AMOUNT_WORDS, AMOUNT_AVOID, REFERENCE_WORDS, IN_WORDS, IN_AVOID,
         OUT_WORDS, OUT_AVOID;
    assert AreApart([1, 0, 2, 3]) by { Apart1023(); }
    SignedHeaderIsRecognised(h, 1, 0, 2, 3);
    layout := LayoutOf(h).value;
  }

  lemma Apart1023()
    ensures AreApart([1, 0, 2, 3])
  {
  }

  lemma HeaderIsUsable(norm: string -> string, layout: Layout)
    requires HeaderOf(BROKEN_HEADER, norm).headers == BROKEN_WORDS
    requires LayoutOf(BROKEN_WORDS) == Some(layout) && IsTidy(layout, 4)
    ensures IsUsable(norm, BROKEN_HEADER, "\n", layout, 4)
  {
    hide LayoutOf, HeaderOf, IsTidy;
    TrimOfTrimmed(BROKEN_HEADER);
  }

  lemma BrokenHeaderIsRead(norm: string -> string)
    requires forall header :: norm(header) == header
    ensures DetectDelimiter(BROKEN_HEADER) == ';' && HeaderOf(BROKEN_HEADER, norm).headers == BROKEN_WORDS
  {
    DelimiterIsSemicolon();
    HeaderJoined();
    hide Joined, FieldsFrom, Quoted, DetectDelimiter;
    FieldsOfWrittenRow(BROKEN_WORDS, BROKEN_WORDS, ';');
  }

  lemma DelimiterIsSemicolon()
    ensures DetectDelimiter(BROKEN_HEADER) == ';'
  {
    assert BROKEN_HEADER[5] == ';';
  }

  lemma HeaderJoined()
    ensures Joined(BROKEN_WORDS, ';') == BROKEN_HEADER
  {
    JoinedFour("tekst", "dato", "belop", "kid", ';');
    hide Joined;
    assert "tekst" + [';'] + ("dato" + [';'] + ("belop" + [';'] + "kid")) == "tekst;dato;belop;kid";
  }

  lemma JoinedTwo(a: string, b: string, delimiter: char)
    ensures Joined([a, b], delimiter) == a + [delimiter] + b
  {
    assert [a, b][1..] == [b];
  }

  lemma JoinedFour(a: string, b: string, c: string, d: string, delimiter: char)
    ensures Joined([a, b, c, d], delimiter) == a + [delimiter] + (b + [delimiter] + (c + [delimiter] + d))
  {
    JoinedTwo(c, d, delimiter);
    assert [b, c, d][1..] == [c, d] && [a, b, c, d][1..] == [b, c, d];
    assert Joined([b, c, d], delimiter) == b + [delimiter] + Joined([c, d], delimiter);
  }

  lemma BrokenIsPlain()
    ensures DetectDelimiter(BROKEN_HEADER) == ';' && IsPlain(BROKEN, ';')
  {
    DelimiterIsSemicolon();
  }

  lemma WitnessFile(layout: Layout)
    requires layout.date == 1 && layout.amount == Some(2) && layout.text == Some(0) && layout.reference == Some(3)
    ensures FileFor(BROKEN_HEADER, "\n", layout, 4, [BROKEN])
         == BROKEN_HEADER + "\n" + (BROKEN_LINE + "\n")
  {
    DelimiterIsSemicolon();
    BrokenCells(layout);
    BrokenLineFor();
    RowsForOne(layout);
    hide FileOf, RowLines, DetectDelimiter;
    hide BROKEN_HEADER, BROKEN_CELLS, BROKEN;
    TwoLines(BROKEN_HEADER, BROKEN_LINE);
  }

  lemma RowsForOne(layout: Layout)
    requires CellsFor(layout, 4, BROKEN) == BROKEN_CELLS
    ensures RowLines(QuotedRows(layout, 4, [BROKEN]), ';') == [Joined(QuotedRow(BROKEN_CELLS), ';')]
  {
    hide Joined, QuotedRow, CellsFor;
  }

  lemma TwoLines(a: string, b: string)
    ensures FileOf([a] + [b], "\n") == a + "\n" + (b + "\n")
  {
    assert [a] + [b] == [a, b] && [a, b][1..] == [b] && [b][1..] == [];
    assert FileOf([b], "\n") == b + "\n" + FileOf([], "\n");
    assert b + "\n" + [] == b + "\n";
  }

  lemma BrokenCells(layout: Layout)
    requires layout.date == 1 && layout.amount == Some(2) && layout.text == Some(0) && layout.reference == Some(3)
    ensures CellsFor(layout, 4, BROKEN) == BROKEN_CELLS
  {
    FirstOfJanuary();
    HundredKroner();
    hide DayFirstString, CommaDecimals;
    var cells := CellsFor(layout, 4, BROKEN);
    hide CellsFor;
    assert cells[0] == BROKEN.description && cells[3] == "";
  }

  lemma FirstOfJanuary()
    ensures DayFirstString(CivilDate(2026, 1, 1), '.') == "01.01.2026"
  {
    assert Padded(1, 2) == "01";
    YearDigits();
    hide Padded;
  }

  lemma YearDigits()
    ensures Padded(2026, 4) == "2026"
  {
    assert ToString(2026) == ToString(202) + "6" && ToString(202) == ToString(20) + "2" && ToString(20) == "20";
  }

  lemma HundredKroner()
    ensures CommaDecimals(10000) == "100,00"
  {
    assert ToString(100) == "100" && Padded(0, 2) == "00";
    hide ToString, Padded;
  }

  lemma BrokenLineFor()
    ensures Joined(QuotedRow(BROKEN_CELLS), ';') == BROKEN_LINE
  {
    hide Joined, QuotedRow;
    RowOfFour("a\nb", "01.01.2026", "100,00", "", ';');
    LineText();
  }

  lemma RowOfFour(a: string, b: string, c: string, d: string, delimiter: char)
    requires QUOTE !in a && QUOTE !in b && QUOTE !in c && QUOTE !in d
    ensures Joined(QuotedRow([a, b, c, d]), delimiter)
         == "\"" + a + "\"" + [delimiter]
          + ("\"" + b + "\"" + [delimiter] + ("\"" + c + "\"" + [delimiter] + ("\"" + d + "\"")))
  {
    assert QuotedRow([a, b, c, d]) == [Quoted(a), Quoted(b), Quoted(c), Quoted(d)];
    hide QuotedRow;
    JoinedFour(Quoted(a), Quoted(b), Quoted(c), Quoted(d), delimiter);
    BareIsQuoted(a);
    BareIsQuoted(b);
    BareIsQuoted(c);
    BareIsQuoted(d);
    hide Joined, Quoted;
  }

  lemma BareIsQuoted(text: string)
    requires QUOTE !in text
    ensures Quoted(text) == "\"" + text + "\""
  {
    DoubledBare(text);
  }

  lemma LineText()
    ensures "\"" + "a\nb" + "\"" + [';']
          + ("\"" + "01.01.2026" + "\"" + [';'] + ("\"" + "100,00" + "\"" + [';'] + ("\"" + "" + "\"")))
         == BROKEN_LINE
  {
  }
}
