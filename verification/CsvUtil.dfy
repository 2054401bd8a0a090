/** CSV primitives the layout-detecting importers share. */
module CsvUtil {
  import opened Wrappers
  import opened Calendar
  import opened Decimal
  import opened Money
  import opened Text

  const QUOTE := '"'

  // ---------- Records ----------

  /** Reading one record from `rest` on, with `field` begun and inside quotes or not:
      the fields still to come. */
  function FieldsFrom(rest: string, delimiter: char, field: string, inQuotes: bool): (fields: seq<string>)
    ensures fields != []
    decreases |rest|
  {
    if rest == [] then [field]
    else if inQuotes then
      if rest[0] != QUOTE then FieldsFrom(rest[1..], delimiter, field + [rest[0]], true)
      else if |rest| > 1 && rest[1] == QUOTE then FieldsFrom(rest[2..], delimiter, field + [QUOTE], true)
      else FieldsFrom(rest[1..], delimiter, field, false)
    else if rest[0] == QUOTE then FieldsFrom(rest[1..], delimiter, field, true)
    else if rest[0] == delimiter then [field] + FieldsFrom(rest[1..], delimiter, [], false)
    else FieldsFrom(rest[1..], delimiter, field + [rest[0]], false)
  }

  function Fields(line: string, delimiter: char): (fields: seq<string>)
    ensures fields != []
  {
    FieldsFrom(line, delimiter, [], false)
  }

  method SplitRecord(line: string, delimiter: char) returns (fields: seq<string>)
    ensures fields == Fields(line, delimiter)
  {
    fields := [];
    var field: string, inQuotes := [], false;
    var i: nat := 0;
    while i < |line|
      invariant i <= |line|
      invariant Fields(line, delimiter) == fields + FieldsFrom(line[i..], delimiter, field, inQuotes)
    {
      var c := line[i];
      i := i + 1;
      if inQuotes {
        if c == QUOTE {
          if i < |line| && line[i] == QUOTE {
            i := i + 1;
            field := field + [QUOTE];
          } else {
            inQuotes := false;
          }
        } else {
          field := field + [c];
        }
      } else if c == QUOTE {
        inQuotes := true;
      } else if c == delimiter {
        fields := fields + [field];
        field := [];
      } else {
        field := field + [c];
      }
    }
    fields := fields + [field];
  }

  /** A text with every quote doubled. */
  function Doubled(text: string): string {
    if text == [] then []
    else (if text[0] == QUOTE then [QUOTE, QUOTE] else [text[0]]) + Doubled(text[1..])
  }

  /** A field as section 2 of RFC 4180 quotes it. */
  function Quoted(text: string): string {
    [QUOTE] + Doubled(text) + [QUOTE]
  }

  /** A field may be written quoted, or bare when that is unambiguous. */
  predicate IsWrittenAs(text: string, written: string, delimiter: char) {
    || written == Quoted(text)
    || (written == text && QUOTE !in text && delimiter !in text)
  }

  function Joined(fields: seq<string>, delimiter: char): string
    requires fields != []
  {
    if |fields| == 1 then fields[0] else fields[0] + [delimiter] + Joined(fields[1..], delimiter)
  }

  ghost predicate IsWrittenRow(texts: seq<string>, written: seq<string>, delimiter: char) {
    |written| == |texts| > 0 && forall i | 0 <= i < |texts| :: IsWrittenAs(texts[i], written[i], delimiter)
  }

  /** Inside quotes, the doubled text is collected up to the closing quote. */
  lemma {:induction false} CollectsQuoted(text: string, after: string, delimiter: char, field: string)
    requires after == [] || after[0] != QUOTE
    ensures FieldsFrom(Doubled(text) + ([QUOTE] + after), delimiter, field, true)
         == FieldsFrom(after, delimiter, field + text, false)
    decreases |text|
  {
    var rest := Doubled(text) + ([QUOTE] + after);
    if text == [] {
      assert rest == [QUOTE] + after && rest[1..] == after && field + text == field;
    } else {
      CollectsQuoted(text[1..], after, delimiter, field + [text[0]]);
      assert (field + [text[0]]) + text[1..] == field + text;
      if text[0] == QUOTE {
        assert rest == [QUOTE, QUOTE] + (Doubled(text[1..]) + ([QUOTE] + after));
        assert rest[2..] == Doubled(text[1..]) + ([QUOTE] + after);
      } else {
        assert rest == [text[0]] + (Doubled(text[1..]) + ([QUOTE] + after));
        assert rest[1..] == Doubled(text[1..]) + ([QUOTE] + after);
      }
    }
  }

  lemma {:induction false} CollectsBare(text: string, after: string, delimiter: char, field: string)
    requires QUOTE !in text && delimiter !in text
    ensures FieldsFrom(text + after, delimiter, field, false) == FieldsFrom(after, delimiter, field + text, false)
    decreases |text|
  {
    if text == [] {
      assert text + after == after && field + text == field;
    } else {
      assert (text + after)[1..] == text[1..] + after;
      assert (field + [text[0]]) + text[1..] == field + text;
      CollectsBare(text[1..], after, delimiter, field + [text[0]]);
    }
  }

  lemma CollectsWritten(text: string, written: string, after: string, delimiter: char)
    requires IsWrittenAs(text, written, delimiter) && delimiter != QUOTE
    requires after == [] || after[0] == delimiter
    ensures FieldsFrom(written + after, delimiter, [], false) == FieldsFrom(after, delimiter, text, false)
  {
    assert [] + text == text;
    if written == Quoted(text) {
      var rest := written + after;
      assert rest == [QUOTE] + (Doubled(text) + ([QUOTE] + after));
      assert rest[1..] == Doubled(text) + ([QUOTE] + after);
      CollectsQuoted(text, after, delimiter, []);
    } else {
      CollectsBare(text, after, delimiter, []);
    }
  }

  /** Splitting a record undoes writing it, whatever the fields hold. */
  lemma {:induction false} FieldsOfWrittenRow(texts: seq<string>, written: seq<string>, delimiter: char)
    requires IsWrittenRow(texts, written, delimiter) && delimiter != QUOTE
    ensures Fields(Joined(written, delimiter), delimiter) == texts
    decreases |texts|
  {
    hide IsWrittenAs;
    if |texts| == 1 {
      assert written[0] + [] == written[0];
      CollectsWritten(texts[0], written[0], [], delimiter);
      assert texts == [texts[0]];
    } else {
      var after := [delimiter] + Joined(written[1..], delimiter);
      assert Joined(written, delimiter) == written[0] + after;
      CollectsWritten(texts[0], written[0], after, delimiter);
      assert after[1..] == Joined(written[1..], delimiter);
      FieldsOfWrittenRow(texts[1..], written[1..], delimiter);
      assert texts == [texts[0]] + texts[1..];
    }
  }

  lemma {:induction false} JoinedContains(fields: seq<string>, delimiter: char, i: nat, c: char)
    requires i < |fields| && c in fields[i]
    ensures c in Joined(fields, delimiter)
    decreases |fields|
  {
    if |fields| > 1 && i > 0 {
      JoinedContains(fields[1..], delimiter, i - 1, c);
    }
  }

  /** Nothing is in a field that is not in the line. */
  lemma {:induction false} FieldsAreInside(rest: string, delimiter: char, field: string, inQuotes: bool, c: char)
    requires c !in rest && c !in field
    ensures forall i | 0 <= i < |FieldsFrom(rest, delimiter, field, inQuotes)| ::
              c !in FieldsFrom(rest, delimiter, field, inQuotes)[i]
    decreases |rest|
  {
    if rest != [] {
      if inQuotes {
        if rest[0] != QUOTE {
          FieldsAreInside(rest[1..], delimiter, field + [rest[0]], true, c);
        } else if |rest| > 1 && rest[1] == QUOTE {
          FieldsAreInside(rest[2..], delimiter, field + [QUOTE], true, c);
        } else {
          FieldsAreInside(rest[1..], delimiter, field, false, c);
        }
      } else if rest[0] == QUOTE {
        FieldsAreInside(rest[1..], delimiter, field, true, c);
      } else if rest[0] == delimiter {
        FieldsAreInside(rest[1..], delimiter, [], false, c);
      } else {
        FieldsAreInside(rest[1..], delimiter, field + [rest[0]], false, c);
      }
    }
  }

  lemma {:induction false} JoinedMembers(fields: seq<string>, delimiter: char, c: char)
    requires fields != [] && c in Joined(fields, delimiter)
    ensures c == delimiter || exists i :: 0 <= i < |fields| && c in fields[i]
    decreases |fields|
  {
    if |fields| > 1 && c !in fields[0] && c != delimiter {
      JoinedMembers(fields[1..], delimiter, c);
      var i :| 0 <= i < |fields[1..]| && c in fields[1..][i];
      assert c in fields[i + 1];
    }
  }

  // ---------- Headers ----------

  function DetectDelimiter(header: string): (delimiter: char)
    ensures delimiter in {';', '\t', ','}
  {
    if ';' in header then ';' else if '\t' in header then '\t' else if ',' in header then ',' else ';'
  }

  predicate OccursAt(s: string, part: string, at: nat) {
    at + |part| <= |s| && s[at..at + |part|] == part
  }

  /** `str::contains` */
  predicate Contains(s: string, part: string) {
    exists at | 0 <= at <= |s| :: OccursAt(s, part, at)
  }

  predicate IsAvoided(header: string, avoid: seq<string>) {
    exists i :: 0 <= i < |avoid| && Contains(header, avoid[i])
  }

  predicate IsExact(header: string, candidates: seq<string>, avoid: seq<string>) {
    header in candidates && !IsAvoided(header, avoid)
  }

  predicate IsLoose(header: string, candidates: seq<string>, avoid: seq<string>) {
    (exists i :: 0 <= i < |candidates| && Contains(header, candidates[i])) && !IsAvoided(header, avoid)
  }

  function FirstWhere(p: string -> bool, s: seq<string>): (first: Option<nat>)
    ensures
      match first
      case Some(i) => i < |s| && p(s[i]) && forall j | 0 <= j < i :: !p(s[j])
      case None => forall j | 0 <= j < |s| :: !p(s[j])
  {
    if s == [] then None
    else match FirstWhere(p, s[..|s| - 1])
      case Some(i) => Some(i)
      case None => if p(s[|s| - 1]) then Some(|s| - 1) else None
  }

  /** The first header that is a candidate, or else the first that contains one;
      never one with an avoided word. */
  function ColumnOf(headers: seq<string>, candidates: seq<string>, avoid: seq<string>): Option<nat> {
    match FirstWhere(h => IsExact(h, candidates, avoid), headers)
    case Some(i) => Some(i)
    case None => FirstWhere(h => IsLoose(h, candidates, avoid), headers)
  }

  method FindColumn(headers: seq<string>, candidates: seq<string>, avoid: seq<string>) returns (column: Option<nat>)
    ensures column == ColumnOf(headers, candidates, avoid)
  {
    for stage := 0 to 2
      invariant stage > 0 ==> forall j | 0 <= j < |headers| :: !IsExact(headers[j], candidates, avoid)
      invariant stage > 1 ==> forall j | 0 <= j < |headers| :: !IsLoose(headers[j], candidates, avoid)
    {
      for i := 0 to |headers|
        invariant stage == 0 ==> forall j | 0 <= j < i :: !IsExact(headers[j], candidates, avoid)
        invariant stage == 1 ==> forall j | 0 <= j < i :: !IsLoose(headers[j], candidates, avoid)
      {
        var header := headers[i];
        if IsAvoided(header, avoid) {
          continue;
        }
        var hit := if stage == 0 then header in candidates
                   else exists k :: 0 <= k < |candidates| && Contains(header, candidates[k]);
        if hit {
          column := Some(i);
          ColumnIsUnique(headers, candidates, avoid, i);
          return;
        }
      }
    }
    column := None;
  }

  lemma ColumnIsUnique(headers: seq<string>, candidates: seq<string>, avoid: seq<string>, i: nat)
    requires i < |headers|
    requires
      || (IsExact(headers[i], candidates, avoid) && forall j | 0 <= j < i :: !IsExact(headers[j], candidates, avoid))
      || (IsLoose(headers[i], candidates, avoid) && (forall j | 0 <= j < i :: !IsLoose(headers[j], candidates, avoid))
          && forall j | 0 <= j < |headers| :: !IsExact(headers[j], candidates, avoid))
    ensures ColumnOf(headers, candidates, avoid) == Some(i)
  {
    hide IsExact, IsLoose;
  }

  ghost predicate Holds(header: string, word: string) {
    exists before, after :: header == before + word + after
  }

  lemma ContainsIsHolds(header: string, word: string)
    ensures Contains(header, word) <==> Holds(header, word)
  {
    if Contains(header, word) {
      var at :| 0 <= at <= |header| && OccursAt(header, word, at);
      assert header == header[..at] + word + header[at + |word|..];
    }
    if Holds(header, word) {
      var before, after :| header == before + word + after;
      assert OccursAt(header, word, |before|);
    }
  }

  ghost predicate HoldsOneOf(header: string, words: seq<string>) {
    exists word | word in words :: Holds(header, word)
  }

  lemma HoldsOneIff(header: string, words: seq<string>)
    ensures (exists i :: 0 <= i < |words| && Contains(header, words[i])) <==> HoldsOneOf(header, words)
  {
    hide Holds, Contains;
    forall word | word in words ensures Contains(header, word) <==> Holds(header, word) {
      ContainsIsHolds(header, word);
    }
    if i :| 0 <= i < |words| && Contains(header, words[i]) {
      assert words[i] in words;
    }
    if HoldsOneOf(header, words) {
      var word :| word in words && Holds(header, word);
      var i :| 0 <= i < |words| && words[i] == word;
    }
  }

  /** The column is the first whose header is a candidate word for word; only when there
      is none, the first whose header holds a candidate. A header that holds an avoided
      word is never chosen. */
  lemma ExactHeaderWins(headers: seq<string>, candidates: seq<string>, avoid: seq<string>)
    ensures
      match ColumnOf(headers, candidates, avoid)
      case Some(i) =>
        && i < |headers| && !HoldsOneOf(headers[i], avoid)
        && (if headers[i] in candidates then
              forall j | 0 <= j < i && headers[j] in candidates :: HoldsOneOf(headers[j], avoid)
            else
              && HoldsOneOf(headers[i], candidates)
              && (forall j | 0 <= j < |headers| && headers[j] in candidates :: HoldsOneOf(headers[j], avoid))
              && (forall j | 0 <= j < i && HoldsOneOf(headers[j], candidates) :: HoldsOneOf(headers[j], avoid)))
      case None =>
        forall j | 0 <= j < |headers| && (headers[j] in candidates || HoldsOneOf(headers[j], candidates)) ::
          HoldsOneOf(headers[j], avoid)
  {
    hide Contains, HoldsOneOf;
    forall j | 0 <= j < |headers|
      ensures IsAvoided(headers[j], avoid) <==> HoldsOneOf(headers[j], avoid)
      ensures IsLoose(headers[j], candidates, avoid)
         <==> HoldsOneOf(headers[j], candidates) && !HoldsOneOf(headers[j], avoid)
    {
      HoldsOneIff(headers[j], avoid);
      HoldsOneIff(headers[j], candidates);
    }
    hide IsAvoided, IsLoose;
  }

  // ---------- Values ----------

  function Without(s: string, drop: char -> bool): string {
    if s == [] then [] else (if drop(s[0]) then [] else [s[0]]) + Without(s[1..], drop)
  }

  /** The amount of a cell: a comma, if there is one, is the decimal separator and
      dots group thousands; otherwise a dot is. Blank is zero. */
  function ParseAmount(raw: string): Option<int> {
    var cleaned := Without(raw, IsSpace);
    if cleaned == [] then Some(0)
    else ReadOre(if ',' in cleaned then ReplaceChar(Without(cleaned, c => c == '.'), ',', '.') else cleaned)
  }

  /** Hundredths with a comma. */
  function CommaDecimals(ore: int): string {
    (if ore < 0 then "-" else "") + ToString(Abs(ore) / 100) + "," + Padded(Abs(ore) % 100, 2)
  }

  predicate IsGrouping(c: char) {
    IsSpace(c) || c == '.'
  }

  /** A Norwegian amount: two decimals after a comma, thousands grouped by dots or
      any kind of space, anywhere. */
  predicate IsNorwegian(raw: string, ore: int) {
    Without(raw, IsGrouping) == CommaDecimals(ore)
  }

  /** The other style: a dot before the decimals, and spaces. */
  predicate IsPlainAmount(raw: string, ore: int) {
    Without(raw, IsSpace) == TwoDecimals(ore)
  }

  lemma {:induction false} WithoutTwice(s: string)
    ensures Without(Without(s, IsSpace), c => c == '.') == Without(s, IsGrouping)
  {
    if s != [] {
      WithoutTwice(s[1..]);
      var rest := Without(s[1..], IsSpace);
      assert ([s[0]] + rest)[1..] == rest && [] + rest == rest;
    }
  }

  lemma {:induction false} WithoutKeeps(s: string, drop: char -> bool, c: char)
    requires !drop(c)
    ensures c in Without(s, drop) <==> c in s
  {
    if s != [] {
      WithoutKeeps(s[1..], drop, c);
      assert s == [s[0]] + s[1..];
    }
  }

  lemma CommaToDot(ore: int)
    ensures ReplaceChar(CommaDecimals(ore), ',', '.') == TwoDecimals(ore)
    ensures ',' in CommaDecimals(ore) && ',' !in TwoDecimals(ore)
  {
    var sign := if ore < 0 then "-" else "";
    var whole, frac := ToString(Abs(ore) / 100), Padded(Abs(ore) % 100, 2);
    assert forall c | IsDigit(c) :: c != ',';
    var s := CommaDecimals(ore);
    var n := |sign| + |whole|;
    assert s == sign + whole + [','] + frac && TwoDecimals(ore) == sign + whole + ['.'] + frac;
    assert s[n] == ',';
    assert forall i | 0 <= i < |s| && i != n :: s[i] != ',' && s[i] == TwoDecimals(ore)[i];
  }

  /** Reading undoes formatting, in either style and for every amount, -0,xx
      included. */
  lemma AmountIsReadBack(raw: string, ore: int)
    requires IsNorwegian(raw, ore) || IsPlainAmount(raw, ore)
    ensures ParseAmount(raw) == Some(ore)
  {
    hide ReadOre, TwoDecimals, CommaDecimals;
    var cleaned := Without(raw, IsSpace);
    CommaToDot(ore);
    ReadOreOfTwoDecimals(ore);
    if IsNorwegian(raw, ore) {
      WithoutTwice(raw);
      WithoutKeeps(cleaned, c => c == '.', ',');
    } else {
      assert TwoDecimals(ore) != [] by { TwoDecimalsIsText(ore); }
    }
  }

  lemma TwoDecimalsIsText(ore: int)
    ensures TwoDecimals(ore) != []
  {
  }

  /** The date formats, in the order they are tried; the last one never decides
      (`ShortYearsAreMisread`). */
  function ParseDate(raw: string): Option<Date> {
    var s := Trim(raw);
    if ParseDayFirst(s, '.').Some? then ParseDayFirst(s, '.')
    else if ParseIso(s).Some? then ParseIso(s)
    else if ParseDayFirst(s, '/').Some? then ParseDayFirst(s, '/')
    else ParseShortYear(s)
  }

  /** A date as banks write it. */
  predicate IsDateText(raw: string, d: Date) {
    var s := Trim(raw);
    s == DayFirstString(d, '.') || s == IsoString(d) || s == DayFirstString(d, '/')
  }

  lemma DateIsReadBack(raw: string, d: Date)
    requires IsDateText(raw, d)
    ensures ParseDate(raw) == Some(d)
  {
    hide Trim, MakeDate;
    var s := Trim(raw);
    if s == DayFirstString(d, '.') {
      DayFirstRoundTrip(d, '.');
    } else if s == IsoString(d) {
      IsoRoundTrip(d);
      IsoHasNoDot(d);
    } else {
      DayFirstRoundTrip(d, '/');
      SlashesAreNotDots(d);
    }
  }

  /** The fourth format is never reached: a date with a two-digit year is read by the
      first, as that year of the first century. Written for 1970 to 2069 it is
      therefore never read back. */
  lemma ShortYearsAreMisread(raw: string, d: Date)
    requires ParseShortYear(Trim(raw)) == Some(d)
    ensures ParseDate(raw) == Some(d.(year := d.year % 100)) && ParseDate(raw) != Some(d)
  {
    hide Trim, ParseDayFirst, MakeDate;
    ShortYearsAreReadLong(Trim(raw));
    assert 1970 <= d.year by { ShortYearIsRecent(Trim(raw)); }
  }

  /** The tenth of July 26 is read as one of the year 26. */
  lemma ShortYearWitness()
    ensures ParseDate("10.07.26") == Some(CivilDate(26, 7, 10))
  {
    TrimOfTrimmed("10.07.26");
    assert Value("10") == 10 && Value("07") == 7 && Value("26") == 26;
    var s := "10.07.26";
    assert s[..2] == "10" && s[3..5] == "07" && s[6..] == "26";
  }

  lemma ShortYearIsRecent(s: string)
    requires ParseShortYear(s).Some?
    ensures 1970 <= ParseShortYear(s).value.year < 2070
  {
    hide Value;
  }

  lemma IsoHasNoDot(d: Date)
    ensures ParseDayFirst(IsoString(d), '.') == None
  {
    assert IsDigit(IsoString(d)[2]);
    assert !IsDigit('.');
  }

  lemma SlashesAreNotDots(d: Date)
    ensures ParseDayFirst(DayFirstString(d, '/'), '.') == None && ParseIso(DayFirstString(d, '/')) == None
  {
    var s := DayFirstString(d, '/');
    assert s[2] == '/';
    assert s[..4][2] == '/' && !IsDigit('/');
  }

  // ---------- Lines ----------

  const BOM := '\U{FEFF}'

  function DropBoms(text: string): string {
    if text != [] && text[0] == BOM then DropBoms(text[1..]) else text
  }

  /** `str::lines`: a carriage return right before the line break goes with it. */
  function Lines(text: string): seq<string>
    decreases |text|
  {
    match SplitOnce(text, '\n')
    case None => if text == [] then [] else [text]
    case Some(parts) =>
      SplitOnceCuts(text, '\n');
      [ChopReturn(parts.0)] + Lines(parts.1)
  }

  function ChopReturn(line: string): string {
    if line != [] && line[|line| - 1] == '\r' then line[..|line| - 1] else line
  }

  /** A line break as files have it. */
  predicate IsLineEnd(eol: string) {
    eol == "\n" || eol == "\r\n"
  }

  /** What the reader makes of a line: it takes a carriage return at its end for part of
      the line break. */
  function Seen(line: string, eol: string): string {
    if eol == "\n" then ChopReturn(line) else line
  }

  /** A line that comes back as it stands. A carriage return inside it does no harm. */
  predicate IsLine(line: string, eol: string) {
    '\n' !in line && Seen(line, eol) == line
  }

  lemma FirstLine(line: string, eol: string, rest: string)
    requires '\n' !in line && IsLineEnd(eol)
    ensures Lines(line + eol + rest) == [Seen(line, eol)] + Lines(rest)
  {
    var before := if eol == "\n" then line else line + ['\r'];
    assert line + eol + rest == before + ['\n'] + rest;
    SplitOnceFinds(before, '\n', rest);
  }

  /** Up to the first line break inside a text. */
  lemma BrokenLine(before: string, after: string)
    requires '\n' !in before
    ensures Lines(before + ['\n'] + after) == [ChopReturn(before)] + Lines(after)
  {
    SplitOnceFinds(before, '\n', after);
  }

  /** No line holds a line break. */
  lemma {:induction false} LinesHoldNoBreak(text: string)
    ensures forall i | 0 <= i < |Lines(text)| :: '\n' !in Lines(text)[i]
    decreases |text|
  {
    SplitOnceCuts(text, '\n');
    match SplitOnce(text, '\n')
    case None =>
    case Some(parts) =>
      LinesHoldNoBreak(parts.1);
      assert Lines(text) == [ChopReturn(parts.0)] + Lines(parts.1);
  }

  /** A file: its lines, each with its line break. */
  function FileOf(lines: seq<string>, eol: string): string {
    if lines == [] then [] else lines[0] + eol + FileOf(lines[1..], eol)
  }

  /** Lines that hold no line break come back, but for a carriage return at the end. */
  lemma {:induction false} LinesOfFile(lines: seq<string>, eol: string)
    requires IsLineEnd(eol) && forall i | 0 <= i < |lines| :: '\n' !in lines[i]
    ensures |Lines(FileOf(lines, eol))| == |lines|
    ensures forall i | 0 <= i < |lines| :: Lines(FileOf(lines, eol))[i] == Seen(lines[i], eol)
  {
    hide Lines, IsLineEnd, Seen;
    if lines == [] {
      NoLines();
    } else {
      FirstLine(lines[0], eol, FileOf(lines[1..], eol));
      LinesOfFile(lines[1..], eol);
    }
  }

  /** The lines of a file are its lines if and only if each is one. */
  lemma LinesComeBackIff(lines: seq<string>, eol: string)
    requires IsLineEnd(eol)
    ensures Lines(FileOf(lines, eol)) == lines <==> forall i | 0 <= i < |lines| :: IsLine(lines[i], eol)
  {
    hide Lines, IsLineEnd, Seen, FileOf;
    if Lines(FileOf(lines, eol)) == lines {
      LinesHoldNoBreak(FileOf(lines, eol));
    }
    if forall i | 0 <= i < |lines| :: '\n' !in lines[i] {
      LinesOfFile(lines, eol);
    }
  }

  lemma NoLines()
    ensures Lines("") == []
  {
  }

  /** The header line, and the lines below it; blank lines above are passed over. */
  function HeaderAndRest(lines: seq<string>): Option<(string, seq<string>)> {
    if lines == [] then None
    else if IsBlank(lines[0]) then HeaderAndRest(lines[1..])
    else Some((lines[0], lines[1..]))
  }

  /** The header is the first line with anything on it. */
  lemma {:induction false} HeaderIsTheFirstInk(lines: seq<string>)
    ensures
      match HeaderAndRest(lines)
      case None => forall i | 0 <= i < |lines| :: IsBlank(lines[i])
      case Some(found) =>
        exists k ::
          && 0 <= k < |lines| && !IsBlank(lines[k]) && (forall i | 0 <= i < k :: IsBlank(lines[i]))
          && found == (lines[k], lines[k + 1..])
  {
    hide IsBlank;
    if lines != [] && IsBlank(lines[0]) {
      HeaderIsTheFirstInk(lines[1..]);
      assert forall i | 0 < i < |lines| :: lines[i] == lines[1..][i - 1];
      if HeaderAndRest(lines).Some? {
        var found := HeaderAndRest(lines).value;
        var k :| 0 <= k < |lines| - 1 && !IsBlank(lines[1..][k]) && (forall i | 0 <= i < k :: IsBlank(lines[1..][i]))
                 && found == (lines[1..][k], lines[1..][k + 1..]);
        assert lines[1..][k] == lines[k + 1] && lines[1..][k + 1..] == lines[k + 2..];
      }
    }
  }

  /** Every byte order mark at the start goes, and nothing else. */
  lemma {:induction false} OnlyBomsAreDropped(text: string) returns (n: nat)
    ensures n <= |text| && DropBoms(text) == text[n..]
    ensures forall i | 0 <= i < n :: text[i] == '\U{FEFF}'
    ensures n < |text| ==> text[n] != '\U{FEFF}'
  {
    n := 0;
    if text != [] && text[0] == BOM {
      n := OnlyBomsAreDropped(text[1..]);
      assert text[1..][n..] == text[n + 1..];
      n := n + 1;
    }
  }

  datatype CsvHeader = CsvHeader(delimiter: char, headers: seq<string>)

  function HeaderOf(line: string, norm: string -> string): CsvHeader {
    var fields := Fields(line, DetectDelimiter(line));
    CsvHeader(DetectDelimiter(line), seq(|fields|, i requires 0 <= i < |fields| => norm(fields[i])))
  }

  method ReadHeader(text: string, norm: string -> string) returns (r: Option<(CsvHeader, seq<string>)>)
    ensures
      match HeaderAndRest(Lines(DropBoms(text)))
      case None => r == None
      case Some(found) => r == Some((HeaderOf(found.0, norm), found.1))
    ensures r.Some? ==>
      var line, delimiter := HeaderAndRest(Lines(DropBoms(text))).value.0, r.value.0.delimiter;
      && (';' in line ==> delimiter == ';')
      && (';' !in line && '\t' in line ==> delimiter == '\t')
      && (';' !in line && '\t' !in line && ',' in line ==> delimiter == ',')
      && (';' !in line && '\t' !in line && ',' !in line ==> delimiter == ';')
  {
    var lines := Lines(DropBoms(text));
    while lines != [] && IsBlank(lines[0])
      invariant HeaderAndRest(lines) == HeaderAndRest(Lines(DropBoms(text)))
    {
      lines := lines[1..];
    }
    if lines == [] {
      return None;
    }
    var delimiter := DetectDelimiter(lines[0]);
    var fields := SplitRecord(lines[0], delimiter);
    var headers := [];
    for i := 0 to |fields|
      invariant |headers| == i && forall j | 0 <= j < i :: headers[j] == norm(fields[j])
    {
      headers := headers + [norm(fields[i])];
    }
    assert headers == HeaderOf(lines[0], norm).headers;
    r := Some((CsvHeader(delimiter, headers), lines[1..]));
  }
}
