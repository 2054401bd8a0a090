/** What the importer makes of a document the renderer did not write: the lines come
    from their own blocks, and the VAT from the last tax amount of the document. */
module EhfReading {
  import opened Wrappers
  import opened Calendar
  import opened Decimal
  import opened Text
  import opened Xml
  import opened Sums
  import opened Ubl
  import opened Ehf
  import opened EhfImport
  import opened EhfRoundTrip

  // ---------- What a line means ----------

  predicate IsLineField(field: Field) {
    field in {LineNet, LineName, LineNameIfUnset, LinePercent}
  }

  /** What a text inside a line is, by its path from the line down. */
  function LineFieldAt(rel: seq<Elem>): Field {
    if rel == [] then Ignored
    else match rel[|rel| - 1]
      case LineExtensionAmount => LineNet
      case Name => if EndsWith(rel, [Item, Name]) then LineName else Ignored
      case Description => LineNameIfUnset
      case Percent => LinePercent
      case _ => Ignored
  }

  /** A text addressed to the line; one that cannot be read leaves it alone here. */
  function SetLineField(line: ReceivedLine, field: Field, value: string): ReceivedLine {
    match field
    case LineNet => (match Amount(value) case Some(ore) => line.(netOre := ore) case None => line)
    case LineName => line.(description := value)
    case LineNameIfUnset => if line.description == "" then line.(description := value) else line
    case LinePercent => (match PercentBp(value) case Ok(rate) => line.(vatRateBp := rate) case Err(_) => line)
    case _ => line
  }

  /** The value a text node has for the importer, blank when it is passed over. */
  function ValueOf(raw: string): string {
    match TextValue(raw) case Some(text) => Trim(text) case None => ""
  }

  function LineAfter(open: bool, line: ReceivedLine, rel: seq<Elem>, raw: string): ReceivedLine {
    if open && ValueOf(raw) != "" then SetLineField(line, LineFieldAt(rel), ValueOf(raw)) else line
  }

  /** Whether a line is open, the line as it stands, and the lines completed so far. */
  datatype Reading = Reading(open: bool, line: ReceivedLine, lines: seq<ReceivedLine>)

  function Prepend(lines: seq<ReceivedLine>, r: Reading): Reading {
    Reading(r.open, r.line, lines + r.lines)
  }

  /** The lines of a piece of a document, read from its line blocks and nothing else. A
      line inside a line starts afresh, and closes the outer one to what follows. */
  function ReadLines(open: bool, line: ReceivedLine, rel: seq<Elem>, f: Forest<Elem>): Reading
    decreases f, 0
  {
    match f
    case Empty => Reading(open, line, [])
    case SelfClosed(_, next) => ReadLines(open, line, rel, next)
    case Text(raw, next) =>
      ReadLines(open, LineAfter(open, line, rel, raw), rel, next)
    case Element(name, children, next) =>
      var first := ReadElement(open, line, rel, name, children);
      Prepend(first.lines, ReadLines(first.open, first.line, rel, next))
  }

  function ReadElement(open: bool, line: ReceivedLine, rel: seq<Elem>, name: Elem, children: Forest<Elem>): Reading
    decreases children, 1
  {
    if IsLineTag(name) then Ended(ReadLines(true, FRESH_LINE, [], children))
    else ReadLines(open, line, rel + [name], children)
  }

  /** The end of a line: it joins the others, and its description is taken. */
  function Ended(reading: Reading): Reading {
    Reading(false, reading.line.(description := ""), reading.lines + [reading.line])
  }

  /** The lines one block becomes. */
  function LinesOf(block: Forest<Elem>): seq<ReceivedLine> {
    Ended(ReadLines(true, FRESH_LINE, [], block)).lines
  }

  function AllLines(blocks: seq<Forest<Elem>>): seq<ReceivedLine> {
    if blocks == [] then [] else LinesOf(blocks[0]) + AllLines(blocks[1..])
  }

  /** The contents of the line elements, in document order; one inside another belongs to
      the outer one. */
  function LineBlocks(f: Forest<Elem>): seq<Forest<Elem>> {
    match f
    case Empty => []
    case Text(_, next) => LineBlocks(next)
    case SelfClosed(_, next) => LineBlocks(next)
    case Element(name, children, next) =>
      (if IsLineTag(name) then [children] else LineBlocks(children)) + LineBlocks(next)
  }

  // ---------- The machine reads lines ----------

  /** Below a line the line's fields depend on the path from the line only. */
  lemma FieldInsideLine(pre: seq<Elem>, tag: Elem, rel: seq<Elem>)
    requires IsLineTag(tag)
    ensures
      var field := FieldAt(pre + [tag] + rel, true);
      if IsLineField(field) then field == LineFieldAt(rel) else LineFieldAt(rel) == Ignored
  {
    var p := pre + [tag] + rel;
    LastTwoOf(pre, tag, rel);
    LineFieldByTail(p);
    TailOfTwo(rel, Item, Name);
    hide EndsWith, FieldAt;
  }

  /** Whether a text is a line's is a matter of the last two names. */
  lemma LineFieldByTail(p: seq<Elem>)
    requires |p| > 0
    ensures
      var field, leaf := FieldAt(p, true), p[|p| - 1];
      && (leaf == Name && |p| > 1 && p[|p| - 2] == Item ==> field == LineName)
      && (leaf == LineExtensionAmount ==> field == LineNet)
      && (leaf == Description ==> field == LineNameIfUnset)
      && (leaf == Percent ==> field == LinePercent)
      && (leaf !in {LineExtensionAmount, Description, Percent} && !(leaf == Name && |p| > 1 && p[|p| - 2] == Item) ==>
            !IsLineField(field))
  {
    TailOfTwo(p, Item, Name);
    TailOfTwo(p, PartyName, Name);
    hide EndsWith;
  }

  lemma LastTwoOf(pre: seq<Elem>, tag: Elem, rel: seq<Elem>)
    ensures
      var p := pre + [tag] + rel;
      && p[|p| - 1] == (if rel == [] then tag else rel[|rel| - 1])
      && (rel != [] ==> p[|p| - 2] == (if |rel| == 1 then tag else rel[|rel| - 2]))
  {
  }

  lemma TailOfTwo(p: seq<Elem>, a: Elem, b: Elem)
    ensures EndsWith(p, [a, b]) <==> |p| >= 2 && p[|p| - 2] == a && p[|p| - 1] == b
  {
    if |p| >= 2 {
      assert p[|p| - 2..] == [p[|p| - 2], p[|p| - 1]];
    }
  }

  lemma NoLineFieldOutside(path: seq<Elem>)
    requires path != []
    ensures !IsLineField(FieldAt(path, false))
  {
    hide EndsWith;
  }

  /** The open line's place in the path. */
  ghost predicate StandsIn(s: State, rel: seq<Elem>) {
    s.inLine ==> exists pre: seq<Elem>, tag: Elem :: IsLineTag(tag) && s.path == pre + [tag] + rel
  }

  /** The machine has come as far as `s`, and has read some lines more. */
  predicate HasRead(s: State, m: Machine, r: Reading) {
    || m.Failed?
    || (m.state.path == s.path && m.state.inLine == r.open && m.state.line == r.line
        && m.state.invoice.lines == s.invoice.lines + r.lines)
  }

  /** A text moves nothing but its field. */
  lemma ValueMovesItsField(s: State, value: string)
    requires s.path != []
    ensures
      var m, field := OnValue(s, value), FieldAt(s.path, s.inLine);
      m.Running? ==>
        && m.state.path == s.path && m.state.inLine == s.inLine && m.state.invoice.lines == s.invoice.lines
        && m.state.line == SetLineField(s.line, if IsLineField(field) then field else Ignored, value)
  {
    hide FieldAt, Amount, PercentBp, OrgnumberOf, ParseIso, Or;
    var field := FieldAt(s.path, s.inLine);
    TextMovesItsField(s, field, value);
    if Amount(value).Some? {
      AmountMovesItsField(s, field, Amount(value).value);
    }
    hide SetText, SetAmount;
  }

  lemma TextMovesItsField(s: State, field: Field, value: string)
    ensures
      var t := SetText(s, field, value);
      && t.path == s.path && t.inLine == s.inLine && t.invoice.lines == s.invoice.lines
      && (field !in {LineNet, LinePercent} ==>
            t.line == SetLineField(s.line, if IsLineField(field) then field else Ignored, value))
  {
    hide OrgnumberOf, Or;
  }

  lemma AmountMovesItsField(s: State, field: Field, ore: int)
    ensures
      var t := SetAmount(s, field, ore);
      && t.path == s.path && t.inLine == s.inLine && t.invoice.lines == s.invoice.lines
      && t.line == if field == LineNet then s.line.(netOre := ore) else s.line
  {
  }

  lemma TextInsideLine(s: State, rel: seq<Elem>, raw: string)
    requires StandsIn(s, rel)
    ensures HasRead(s, OnChars(s, raw), Reading(s.inLine, LineAfter(s.inLine, s.line, rel, raw), []))
  {
    hide OnValue, TextValue, FieldAt, LineFieldAt, SetLineField, Trim;
    assert s.invoice.lines + [] == s.invoice.lines;
    if s.path != [] {
      ValueMovesItsField(s, ValueOf(raw));
      NotAField(s.line, ValueOf(raw));
      if s.inLine {
        var pre, tag :| IsLineTag(tag) && s.path == pre + [tag] + rel;
        FieldInsideLine(pre, tag, rel);
      } else {
        NoLineFieldOutside(s.path);
      }
    }
  }

  lemma NotAField(line: ReceivedLine, value: string)
    ensures SetLineField(line, Ignored, value) == line
  {
  }

  lemma RunMore(out: Stream, event: Event<Elem>, more: Stream)
    ensures Run(out + [event]) == Step(Run(out), event)
    ensures out + ([event] + more) == (out + [event]) + more
  {
    hide Step;
    assert (out + [event])[..|out|] == out;
    Regroup(out, [event], more);
  }

  /** An element, from its start to its end, and what follows. */
  lemma RunElement(out: Stream, name: Elem, children: Forest<Elem>, next: Forest<Elem>)
    ensures
      var inside := out + [Start(name)] + Flatten(children);
      && out + Flatten(Element(name, children, next)) == inside + [End(name)] + Flatten(next)
      && Run(out + [Start(name)]) == Step(Run(out), Start(name))
      && Run(inside + [End(name)]) == Step(Run(inside), End(name))
  {
    var a, b, c := [Start(name)], Flatten(children), [End(name)];
    var inside := out + a + b;
    RunMore(out, Start(name), []);
    RunMore(inside, End(name), []);
    hide Run, Step;
    FourAfter(out, a, b, c, Flatten(next));
  }

  lemma FourAfter<T>(out: seq<T>, a: seq<T>, b: seq<T>, c: seq<T>, d: seq<T>)
    ensures out + (a + b + c + d) == out + a + b + c + d
  {
    Regroup(out, a + b + c, d);
    Regroup(out, a + b, c);
    Regroup(out, a, b);
  }

  lemma StaysFailed(out: Stream, more: Stream)
    requires Run(out).Failed?
    ensures Run(out + more).Failed?
  {
    assert (out + more)[..|out|] == out;
    FailureSticks(out + more, |out|);
  }

  /** In every state the machine reads exactly the lines that `ReadLines` reads, lines in
      lines included. */
  lemma {:induction false} InsideDocument(out: Stream, s: State, rel: seq<Elem>, f: Forest<Elem>)
    requires Run(out) == Running(s) && StandsIn(s, rel)
    ensures HasRead(s, Run(out + Flatten(f)), ReadLines(s.inLine, s.line, rel, f))
    decreases f, 0
  {
    hide Run, Step, OnChars, StandsIn, ReadElement, SetLineField, LineFieldAt, ValueOf;
    match f
    case Empty =>
      assert out + [] == out && s.invoice.lines + [] == s.invoice.lines;
    case SelfClosed(name, next) =>
      RunMore(out, Blank(name), Flatten(next));
      BlankIsPassedOver(s, name);
      InsideDocument(out + [Blank(name)], s, rel, next);
    case Text(raw, next) =>
      RunMore(out, Chars(raw), Flatten(next));
      CharsStep(s, raw);
      TextInsideLine(s, rel, raw);
      var m := OnChars(s, raw);
      if m.Failed? {
        StaysFailed(out + [Chars(raw)], Flatten(next));
      } else {
        StillStandsIn(s, m.state, rel);
        InsideDocument(out + [Chars(raw)], m.state, rel, next);
        assert s.invoice.lines + [] == s.invoice.lines;
      }
    case Element(name, children, next) =>
      RunElement(out, name, children, next);
      ElementInside(out, s, rel, name, children);
      var after := out + [Start(name)] + Flatten(children) + [End(name)];
      var m, first := Run(after), ReadElement(s.inLine, s.line, rel, name, children);
      if m.Failed? {
        StaysFailed(after, Flatten(next));
      } else {
        OpenOnlyIfItWas(s.inLine, s.line, rel, name, children);
        StillStandsIn(s, m.state, rel);
        InsideDocument(after, m.state, rel, next);
        Regroup(s.invoice.lines, first.lines, ReadLines(first.open, first.line, rel, next).lines);
      }
  }

  lemma BlankIsPassedOver(s: State, name: Elem)
    ensures Step(Running(s), Blank(name)) == Running(s)
  {
  }

  lemma CharsStep(s: State, raw: string)
    ensures Step(Running(s), Chars(raw)) == OnChars(s, raw)
  {
    hide OnChars;
  }

  lemma StillStandsIn(s: State, t: State, rel: seq<Elem>)
    requires StandsIn(s, rel) && t.path == s.path && (t.inLine ==> s.inLine)
    ensures StandsIn(t, rel)
  {
  }

  /** No line is open after an element that was not open before it. */
  lemma {:induction false} OpenOnlyIfItWas(open: bool, line: ReceivedLine, rel: seq<Elem>, name: Elem,
                                           children: Forest<Elem>)
    ensures ReadElement(open, line, rel, name, children).open ==> open
    decreases children, 1
  {
    if !IsLineTag(name) {
      OpenedInside(open, line, rel + [name], children);
    }
  }

  lemma {:induction false} OpenedInside(open: bool, line: ReceivedLine, rel: seq<Elem>, f: Forest<Elem>)
    ensures ReadLines(open, line, rel, f).open ==> open
    decreases f, 0
  {
    hide SetLineField, LineFieldAt, ValueOf, ReadElement;
    match f
    case Empty =>
    case SelfClosed(_, next) => OpenedInside(open, line, rel, next);
    case Text(raw, next) =>
      OpenedInside(open, LineAfter(open, line, rel, raw), rel, next);
    case Element(name, children, next) =>
      var first := ReadElement(open, line, rel, name, children);
      OpenOnlyIfItWas(open, line, rel, name, children);
      OpenedInside(first.open, first.line, rel, next);
  }

  lemma {:induction false} ElementInside(out: Stream, s: State, rel: seq<Elem>, name: Elem, children: Forest<Elem>)
    requires Run(out) == Running(s) && StandsIn(s, rel)
    ensures HasRead(s, Run(out + [Start(name)] + Flatten(children) + [End(name)]),
                    ReadElement(s.inLine, s.line, rel, name, children))
    decreases children, 1
  {
    hide Run, Flatten, ReadLines;
    RunElement(out, name, children, Empty);
    var s1 := OnStart(s, name);
    var inside := out + [Start(name)] + Flatten(children);
    if IsLineTag(name) {
      assert s1.path == s.path + [name] + [];
      InsideDocument(out + [Start(name)], s1, [], children);
      LineEnds(s, name, Run(inside), ReadLines(true, FRESH_LINE, [], children));
    } else {
      StandsDeeper(s, name, rel);
      InsideDocument(out + [Start(name)], s1, rel + [name], children);
    }
  }

  /** The end of a line adds it. */
  lemma LineEnds(s: State, name: Elem, m: Machine, r: Reading)
    requires IsLineTag(name) && HasRead(OnStart(s, name), m, r)
    ensures HasRead(s, Step(m, End(name)), Ended(r))
  {
    Regroup(s.invoice.lines, r.lines, [r.line]);
  }

  lemma StandsDeeper(s: State, name: Elem, rel: seq<Elem>)
    requires StandsIn(s, rel) && !IsLineTag(name)
    ensures StandsIn(OnStart(s, name), rel + [name])
  {
    if s.inLine {
      var pre, tag :| IsLineTag(tag) && s.path == pre + [tag] + rel;
      assert s.path + [name] == pre + [tag] + (rel + [name]);
    }
  }

  // ---------- Documents ----------

  lemma {:induction false} AllLinesAppend(a: seq<Forest<Elem>>, b: seq<Forest<Elem>>)
    ensures AllLines(a + b) == AllLines(a) + AllLines(b)
  {
    hide LinesOf;
    if a == [] {
      assert a + b == b;
    } else {
      assert (a + b)[1..] == a[1..] + b;
      AllLinesAppend(a[1..], b);
      Regroup(LinesOf(a[0]), AllLines(a[1..]), AllLines(b));
    }
  }

  /** Outside any line, what is read is what the blocks become, one by one. */
  lemma {:induction false} OutsideLinesAreBlocks(line: ReceivedLine, rel: seq<Elem>, f: Forest<Elem>)
    ensures ReadLines(false, line, rel, f).lines == AllLines(LineBlocks(f))
    decreases f
  {
    hide SetLineField, LineFieldAt, ValueOf;
    match f
    case Empty =>
    case SelfClosed(_, next) => OutsideLinesAreBlocks(line, rel, next);
    case Text(raw, next) => OutsideLinesAreBlocks(line, rel, next);
    case Element(name, children, next) =>
      var first := ReadElement(false, line, rel, name, children);
      OpenOnlyIfItWas(false, line, rel, name, children);
      OutsideLinesAreBlocks(first.line, rel, next);
      var blocks := if IsLineTag(name) then [children] else LineBlocks(children);
      AllLinesAppend(blocks, LineBlocks(next));
      if IsLineTag(name) {
        assert [children][1..] == [] && LinesOf(children) + [] == LinesOf(children);
      } else {
        OutsideLinesAreBlocks(line, rel + [name], children);
      }
  }

  function ParseResult(doc: Forest<Elem>): Result<ReceivedInvoice, ImportError> {
    Finish(Run(Flatten(doc)))
  }

  /** Whatever well-nested document is read: its lines are what its line blocks become, in
      order, each read from its own contents and nothing else. */
  lemma LinesComeFromTheirBlocks(doc: Forest<Elem>)
    ensures ParseResult(doc).Ok? ==> ParseResult(doc).value.lines == AllLines(LineBlocks(doc))
  {
    hide ReadLines, AllLines, LineBlocks, Flatten;
    assert [] + Flatten(doc) == Flatten(doc);
    InsideDocument([], INITIAL, [], doc);
    OutsideLinesAreBlocks(FRESH_LINE, [], doc);
    var all := AllLines(LineBlocks(doc));
    assert [] + all == all;
  }

  /** Documents that agree on their line blocks agree on the lines, whatever else either
      of them holds. */
  lemma NothingElseMakesLines(a: Forest<Elem>, b: Forest<Elem>)
    requires ParseResult(a).Ok? && ParseResult(b).Ok? && LineBlocks(a) == LineBlocks(b)
    ensures ParseResult(a).value.lines == ParseResult(b).value.lines
  {
    hide ParseResult, AllLines, LineBlocks;
    LinesComeFromTheirBlocks(a);
    LinesComeFromTheirBlocks(b);
  }

  predicate HasNoLine(f: Forest<Elem>) {
    match f
    case Empty => true
    case Text(_, next) => HasNoLine(next)
    case SelfClosed(_, next) => HasNoLine(next)
    case Element(name, children, next) => !IsLineTag(name) && HasNoLine(children) && HasNoLine(next)
  }

  lemma {:induction false} PlainPieceMakesNoLine(open: bool, line: ReceivedLine, rel: seq<Elem>, f: Forest<Elem>)
    requires HasNoLine(f)
    ensures
      var r := ReadLines(open, line, rel, f);
      r.open == open && r.lines == [] && (!open ==> r.line == line)
    decreases f
  {
    hide SetLineField, LineFieldAt, ValueOf;
    match f
    case Empty =>
    case SelfClosed(_, next) => PlainPieceMakesNoLine(open, line, rel, next);
    case Text(raw, next) =>
      PlainPieceMakesNoLine(open, LineAfter(open, line, rel, raw), rel, next);
    case Element(name, children, next) =>
      PlainPieceMakesNoLine(open, line, rel + [name], children);
      PlainPieceMakesNoLine(open, ReadLines(open, line, rel + [name], children).line, rel, next);
  }

  /** A line with no other inside is one line. */
  lemma PlainBlockIsOneLine(block: Forest<Elem>)
    requires HasNoLine(block)
    ensures LinesOf(block) == [ReadLines(true, FRESH_LINE, [], block).line]
  {
    PlainPieceMakesNoLine(true, FRESH_LINE, [], block);
  }

  /** A line that opens inside another takes its place: whatever the outer one said before
      or says after, it comes out as the inner one without the description. */
  lemma NestedLineTakesOver(line: ReceivedLine, name: Elem, inner: Forest<Elem>, post: Forest<Elem>)
    requires IsLineTag(name) && HasNoLine(inner) && HasNoLine(post)
    ensures
      var read := ReadLines(true, FRESH_LINE, [], inner).line;
      Ended(ReadLines(true, line, [], Element(name, inner, post))).lines == [read, read.(description := "")]
  {
    PlainPieceMakesNoLine(true, FRESH_LINE, [], inner);
    var first := ReadElement(true, line, [], name, inner);
    PlainPieceMakesNoLine(false, first.line, [], post);
  }

  // ---------- The VAT ----------

  predicate IsVatPath(path: seq<Elem>) {
    EndsWith(path, [TaxTotal, TaxAmount])
  }

  /** The tax totals of a piece of a document, wherever they stand, in document order. */
  function VatAmounts(path: seq<Elem>, f: Forest<Elem>): seq<int>
    decreases f
  {
    match f
    case Empty => []
    case SelfClosed(_, next) => VatAmounts(path, next)
    case Text(raw, next) =>
      (if IsVatPath(path) && Amount(ValueOf(raw)).Some? then [Amount(ValueOf(raw)).value] else [])
        + VatAmounts(path, next)
    case Element(name, children, next) => VatAmounts(path + [name], children) + VatAmounts(path, next)
  }

  function LastOr(unset: int, amounts: seq<int>): int {
    if amounts == [] then unset else amounts[|amounts| - 1]
  }

  lemma LastOfBoth(unset: int, a: seq<int>, b: seq<int>)
    ensures LastOr(unset, a + b) == LastOr(LastOr(unset, a), b)
  {
  }

  /** The machine stands where it stood, with some VAT. */
  predicate HasVat(s: State, m: Machine, vat: int) {
    m.Failed? || (m.state.path == s.path && m.state.invoice.vatOre == vat)
  }

  lemma VatFieldIff(path: seq<Elem>, inLine: bool)
    requires path != []
    ensures FieldAt(path, inLine) == VatAmount <==> IsVatPath(path)
  {
    TailOfTwo(path, TaxTotal, TaxAmount);
    hide EndsWith;
  }

  lemma ValueSetsVat(s: State, value: string)
    requires s.path != []
    ensures HasVat(s, OnValue(s, value),
                   if FieldAt(s.path, s.inLine) == VatAmount && Amount(value).Some? then Amount(value).value
                     else s.invoice.vatOre)
  {
    hide FieldAt, Amount, PercentBp, OrgnumberOf, ParseIso;
  }

  lemma BlankIsNoAmount()
    ensures Amount("") == None
  {
  }

  lemma TextSetsVat(s: State, raw: string)
    ensures HasVat(s, OnChars(s, raw), LastOr(s.invoice.vatOre, VatAmounts(s.path, Forest.Text(raw, Empty))))
  {
    hide OnValue, TextValue, FieldAt, Amount, EndsWith, Trim;
    BlankIsNoAmount();
    if s.path == [] {
      assert !IsVatPath([]) by { TailOfTwo([], TaxTotal, TaxAmount); }
    } else {
      VatFieldIff(s.path, s.inLine);
      ValueSetsVat(s, ValueOf(raw));
    }
  }

  lemma OneText(path: seq<Elem>, raw: string, next: Forest<Elem>)
    ensures VatAmounts(path, Forest.Text(raw, next)) == VatAmounts(path, Forest.Text(raw, Empty))
      + VatAmounts(path, next)
  {
    hide Amount, EndsWith, ValueOf;
  }

  lemma {:induction false} VatInside(out: Stream, s: State, f: Forest<Elem>)
    requires Run(out) == Running(s)
    ensures HasVat(s, Run(out + Flatten(f)), LastOr(s.invoice.vatOre, VatAmounts(s.path, f)))
    decreases f
  {
    hide Run, Step, OnChars, ValueOf, Amount, EndsWith;
    match f
    case Empty =>
      assert out + [] == out;
    case SelfClosed(name, next) =>
      RunMore(out, Blank(name), Flatten(next));
      BlankIsPassedOver(s, name);
      VatInside(out + [Blank(name)], s, next);
    case Text(raw, next) =>
      RunMore(out, Chars(raw), Flatten(next));
      CharsStep(s, raw);
      TextSetsVat(s, raw);
      OneText(s.path, raw, next);
      LastOfBoth(s.invoice.vatOre, VatAmounts(s.path, Forest.Text(raw, Empty)), VatAmounts(s.path, next));
      var m := OnChars(s, raw);
      if m.Failed? {
        StaysFailed(out + [Chars(raw)], Flatten(next));
      } else {
        VatInside(out + [Chars(raw)], m.state, next);
      }
    case Element(name, children, next) =>
      RunElement(out, name, children, next);
      var inside, s1 := out + [Start(name)] + Flatten(children), OnStart(s, name);
      StartStep(s, name);
      VatInside(out + [Start(name)], s1, children);
      EndKeepsVat(s, Run(inside), name, LastOr(s.invoice.vatOre, VatAmounts(s1.path, children)));
      LastOfBoth(s.invoice.vatOre, VatAmounts(s1.path, children), VatAmounts(s.path, next));
      var m := Run(inside + [End(name)]);
      if m.Failed? {
        StaysFailed(inside + [End(name)], Flatten(next));
      } else {
        VatInside(inside + [End(name)], m.state, next);
      }
  }

  lemma StartStep(s: State, name: Elem)
    ensures Step(Running(s), Start(name)) == Running(OnStart(s, name))
    ensures OnStart(s, name).path == s.path + [name] && OnStart(s, name).invoice.vatOre == s.invoice.vatOre
  {
  }

  lemma EndKeepsVat(s: State, m: Machine, name: Elem, vat: int)
    requires HasVat(OnStart(s, name), m, vat)
    ensures HasVat(s, Step(m, End(name)), vat)
  {
  }

  /** The VAT of any document that is read is the last tax total in it, wherever that
      stands, or zero. */
  lemma VatIsTheLastTaxTotal(doc: Forest<Elem>)
    ensures ParseResult(doc).Ok? ==> ParseResult(doc).value.vatOre == LastOr(0, VatAmounts([], doc))
  {
    hide VatAmounts, Flatten;
    assert [] + Flatten(doc) == Flatten(doc);
    VatInside([], INITIAL, doc);
  }

  lemma {:induction false} VatAmountsJoin(path: seq<Elem>, f: Forest<Elem>, g: Forest<Elem>)
    ensures VatAmounts(path, Join(f, g)) == VatAmounts(path, f) + VatAmounts(path, g)
    decreases f
  {
    hide Amount, ValueOf, EndsWith;
    match f
    case Empty =>
    case SelfClosed(_, next) => VatAmountsJoin(path, next, g);
    case Text(raw, next) =>
      VatAmountsJoin(path, next, g);
      OneText(path, raw, Join(next, g));
      OneText(path, raw, next);
    case Element(name, children, next) =>
      VatAmountsJoin(path, next, g);
      Regroup(VatAmounts(path + [name], children), VatAmounts(path, next), VatAmounts(path, g));
  }

  /** A document whose own tax total stands in `head` and whose lines follow: its VAT is
      read if and only if no tax total comes after it, or the last one happens to be
      the same. UBL allows one in every line. */
  lemma VatIsTheDocumentsIff(root: Elem, head: Forest<Elem>, tail: Forest<Elem>)
    requires ParseResult(Element(root, Join(head, tail), Empty)).Ok?
    ensures
      var own, later := LastOr(0, VatAmounts([root], head)), VatAmounts([root], tail);
      ParseResult(Element(root, Join(head, tail), Empty)).value.vatOre == own
      <==> later == [] || LastOr(0, later) == own
  {
    hide ParseResult, Amount, ValueOf, EndsWith;
    var doc := Element(root, Join(head, tail), Empty);
    VatIsTheLastTaxTotal(doc);
    VatAmountsJoin([root], head, tail);
    var amounts := VatAmounts([root], head) + VatAmounts([root], tail);
    assert [] + [root] == [root] && VatAmounts([], Empty) == [];
    assert VatAmounts([], doc) == amounts + [];
    LastOfBoth(0, VatAmounts([root], head), VatAmounts([root], tail));
  }

  /** A line starts with nothing, whichever of the two tags opens it. */
  lemma LineStartsAfresh(s: State, name: Elem)
    requires name == InvoiceLine || name == CreditNoteLine
    ensures OnStart(s, name).inLine && OnStart(s, name).line == ReceivedLine("", 0, None)
  {
  }

  // ---------- Net and gross ----------

  /** Net and gross as a piece of a document leaves them, and whether a line is open: the
      TaxExclusiveAmount and the PayableAmount always count, a LineExtensionAmount outside
      lines and a TaxInclusiveAmount only while there is nothing yet. */
  datatype Totals = Totals(net: int, gross: int, open: bool)

  function AfterAmount(t: Totals, leaf: Elem, ore: int): Totals {
    match leaf
    case TaxExclusiveAmount => t.(net := ore)
    case LineExtensionAmount => if !t.open && t.net == 0 then t.(net := ore) else t
    case PayableAmount => t.(gross := ore)
    case TaxInclusiveAmount => if t.gross == 0 then t.(gross := ore) else t
    case _ => t
  }

  function SumsAfter(t: Totals, path: seq<Elem>, f: Forest<Elem>): Totals
    decreases f
  {
    match f
    case Empty => t
    case SelfClosed(_, next) => SumsAfter(t, path, next)
    case Text(raw, next) =>
      var ore := Amount(ValueOf(raw));
      SumsAfter(if path != [] && ore.Some? then AfterAmount(t, path[|path| - 1], ore.value) else t, path, next)
    case Element(name, children, next) =>
      var inside := SumsAfter(if IsLineTag(name) then t.(open := true) else t, path + [name], children);
      SumsAfter(if IsLineTag(name) then inside.(open := false) else inside, path, next)
  }

  predicate HasSums(s: State, m: Machine, t: Totals) {
    m.Failed?
    || (m.state.path == s.path && m.state.invoice.netOre == t.net && m.state.invoice.grossOre == t.gross
        && m.state.inLine == t.open)
  }

  function SumsOf(s: State): Totals {
    Totals(s.invoice.netOre, s.invoice.grossOre, s.inLine)
  }

  lemma ValueSetsSums(s: State, value: string)
    requires s.path != []
    ensures HasSums(s, OnValue(s, value),
                    if Amount(value).Some? then AfterAmount(SumsOf(s), s.path[|s.path| - 1], Amount(value).value)
                      else SumsOf(s))
  {
    hide FieldAt, SetText, SetAmount, SetDate, AfterAmount, Amount, PercentBp, ParseIso, EndsWith, SumsByItsField;
    var field := FieldAt(s.path, s.inLine);
    if Amount(value).Some? {
      SumsByField(SumsOf(s), s.path, s.inLine, Amount(value).value);
    }
    if IsDateField(field) {
      DateKeepsSums(s, field, value);
    } else if WantsAmount(s.invoice, field) {
      if Amount(value).Some? {
        AmountCounts(s, field, Amount(value).value);
      }
    } else {
      TextKeepsSums(s, field, value);
      OthersDoNotCount(s, field, if Amount(value).Some? then Amount(value).value else 0);
    }
  }

  /** What an amount does to the totals, by its field. */
  function SumsByItsField(t: Totals, field: Field, ore: int): Totals {
    if field == NetAmount || (field == NetIfUnset && t.net == 0) then t.(net := ore)
    else if field == GrossAmount || (field == GrossIfUnset && t.gross == 0) then t.(gross := ore)
    else t
  }

  lemma DateKeepsSums(s: State, field: Field, value: string)
    requires IsDateField(field)
    ensures ParseIso(value).Some? ==>
      var t := s.(invoice := SetDate(s.invoice, field, ParseIso(value).value));
      t.path == s.path && SumsOf(t) == SumsOf(s)
    ensures Amount(value).Some? ==> SumsByItsField(SumsOf(s), field, Amount(value).value) == SumsOf(s)
  {
    hide ParseIso, Amount;
  }

  lemma AmountCounts(s: State, field: Field, ore: int)
    requires WantsAmount(s.invoice, field)
    ensures
      var t := SetAmount(s, field, ore);
      t.path == s.path && SumsOf(t) == SumsByItsField(SumsOf(s), field, ore)
  {
    hide SetAmount;
    AmountSetsSums(s, field, ore);
  }

  lemma OthersDoNotCount(s: State, field: Field, ore: int)
    requires !WantsAmount(s.invoice, field)
    ensures SumsByItsField(SumsOf(s), field, ore) == SumsOf(s)
  {
  }

  /** An amount counts as its field says. */
  lemma SumsByField(t: Totals, path: seq<Elem>, inLine: bool, ore: int)
    requires path != [] && t.open == inLine
    ensures AfterAmount(t, path[|path| - 1], ore) == SumsByItsField(t, FieldAt(path, inLine), ore)
  {
    SumsFields(path, inLine);
    hide FieldAt;
  }

  /** Which leaves are totals. */
  lemma SumsFields(path: seq<Elem>, inLine: bool)
    requires path != []
    ensures
      var field, leaf := FieldAt(path, inLine), path[|path| - 1];
      && (leaf == TaxExclusiveAmount <==> field == NetAmount) && (leaf == PayableAmount <==> field == GrossAmount)
      && (leaf == LineExtensionAmount && !inLine <==> field == NetIfUnset)
      && (leaf == TaxInclusiveAmount <==> field == GrossIfUnset)
  {
    hide EndsWith;
  }

  lemma TextKeepsSums(s: State, field: Field, value: string)
    ensures SumsOf(SetText(s, field, value)) == SumsOf(s) && SetText(s, field, value).path == s.path
  {
    hide OrgnumberOf, Or;
  }

  lemma AmountSetsSums(s: State, field: Field, ore: int)
    ensures
      var t := SetAmount(s, field, ore);
      && t.path == s.path && t.inLine == s.inLine
      && t.invoice.netOre == (if field in {NetAmount, NetIfUnset} then ore else s.invoice.netOre)
      && t.invoice.grossOre == (if field in {GrossAmount, GrossIfUnset} then ore else s.invoice.grossOre)
  {
  }

  lemma TextSetsSums(s: State, raw: string)
    ensures
      var ore := Amount(ValueOf(raw));
      HasSums(s, OnChars(s, raw),
              if s.path != [] && ore.Some? then AfterAmount(SumsOf(s), s.path[|s.path| - 1], ore.value) else SumsOf(s))
  {
    hide OnValue, TextValue, Amount, Trim, AfterAmount;
    BlankIsNoAmount();
    if s.path != [] {
      ValueSetsSums(s, ValueOf(raw));
    }
  }

  lemma {:induction false} SumsInside(out: Stream, s: State, f: Forest<Elem>)
    requires Run(out) == Running(s)
    ensures HasSums(s, Run(out + Flatten(f)), SumsAfter(SumsOf(s), s.path, f))
    decreases f
  {
    hide Run, Step, OnChars, ValueOf, Amount, AfterAmount, IsLineTag;
    match f
    case Empty =>
      assert out + [] == out;
    case SelfClosed(name, next) =>
      RunMore(out, Blank(name), Flatten(next));
      BlankIsPassedOver(s, name);
      SumsInside(out + [Blank(name)], s, next);
    case Text(raw, next) =>
      RunMore(out, Chars(raw), Flatten(next));
      CharsStep(s, raw);
      TextSetsSums(s, raw);
      var m := OnChars(s, raw);
      if m.Failed? {
        StaysFailed(out + [Chars(raw)], Flatten(next));
      } else {
        SumsInside(out + [Chars(raw)], m.state, next);
      }
    case Element(name, children, next) =>
      RunElement(out, name, children, next);
      var inside, s1 := out + [Start(name)] + Flatten(children), OnStart(s, name);
      StartSums(s, name);
      SumsInside(out + [Start(name)], s1, children);
      EndSums(s, Run(inside), name, SumsAfter(SumsOf(s1), s1.path, children));
      var m := Run(inside + [End(name)]);
      if m.Failed? {
        StaysFailed(inside + [End(name)], Flatten(next));
      } else {
        SumsInside(inside + [End(name)], m.state, next);
      }
  }

  lemma StartSums(s: State, name: Elem)
    ensures Step(Running(s), Start(name)) == Running(OnStart(s, name)) && OnStart(s, name).path == s.path + [name]
    ensures SumsOf(OnStart(s, name)) == if IsLineTag(name) then SumsOf(s).(open := true) else SumsOf(s)
  {
  }

  lemma EndSums(s: State, m: Machine, name: Elem, t: Totals)
    requires HasSums(OnStart(s, name), m, t)
    ensures HasSums(s, Step(m, End(name)), if IsLineTag(name) then t.(open := false) else t)
  {
  }

  /** Net and gross of every document that is read: what its totals say; a net of zero is
      made up from the lines, if there are any, and a gross of zero is net plus VAT. */
  lemma NetAndGross(doc: Forest<Elem>)
    ensures ParseResult(doc).Ok? ==>
      var invoice, said := ParseResult(doc).value, SumsAfter(Totals(0, 0, false), [], doc);
      && invoice.netOre
         == (if said.net == 0 && invoice.lines != [] then SumBy((l: ReceivedLine) => l.netOre, invoice.lines)
             else said.net)
      && invoice.grossOre == (if said.gross == 0 then invoice.netOre + invoice.vatOre else said.gross)
  {
    hide SumsAfter, Flatten;
    assert [] + Flatten(doc) == Flatten(doc);
    SumsInside([], INITIAL, doc);
    if Run(Flatten(doc)).Running? {
      var lines := Run(Flatten(doc)).state.invoice.lines;
      SumByAgree((l: ReceivedLine) => l.netOre, (l: ReceivedLine) => l.netOre, lines);
    }
  }

  /** None of these elements anywhere. */
  predicate SaysNothingOf(f: Forest<Elem>, tags: set<Elem>) {
    match f
    case Empty => true
    case Text(_, next) => SaysNothingOf(next, tags)
    case SelfClosed(_, next) => SaysNothingOf(next, tags)
    case Element(name, children, next) => name !in tags && SaysNothingOf(children, tags) && SaysNothingOf(next, tags)
  }

  lemma {:induction false} GrossStaysUnset(t: Totals, path: seq<Elem>, f: Forest<Elem>)
    requires SaysNothingOf(f, {TaxInclusiveAmount, PayableAmount})
    requires path == [] || path[|path| - 1] !in {TaxInclusiveAmount, PayableAmount}
    ensures SumsAfter(t, path, f).gross == t.gross
    decreases f
  {
    hide ValueOf, Amount;
    match f
    case Empty =>
    case SelfClosed(_, next) => GrossStaysUnset(t, path, next);
    case Text(raw, next) =>
      var ore := Amount(ValueOf(raw));
      GrossStaysUnset(if path != [] && ore.Some? then AfterAmount(t, path[|path| - 1], ore.value) else t, path, next);
    case Element(name, children, next) =>
      var before := if IsLineTag(name) then t.(open := true) else t;
      var inside := SumsAfter(before, path + [name], children);
      GrossStaysUnset(before, path + [name], children);
      GrossStaysUnset(if IsLineTag(name) then inside.(open := false) else inside, path, next);
  }

  /** Inside a line nothing but a TaxExclusiveAmount touches the net. */
  lemma {:induction false} LineKeepsNet(t: Totals, path: seq<Elem>, f: Forest<Elem>)
    requires t.open && HasNoLine(f) && SaysNothingOf(f, {TaxExclusiveAmount})
    requires path == [] || path[|path| - 1] != TaxExclusiveAmount
    ensures SumsAfter(t, path, f).net == t.net && SumsAfter(t, path, f).open
    decreases f
  {
    hide ValueOf, Amount;
    match f
    case Empty =>
    case SelfClosed(_, next) => LineKeepsNet(t, path, next);
    case Text(raw, next) =>
      var ore := Amount(ValueOf(raw));
      LineKeepsNet(if path != [] && ore.Some? then AfterAmount(t, path[|path| - 1], ore.value) else t, path, next);
    case Element(name, children, next) =>
      LineKeepsNet(t, path + [name], children);
      LineKeepsNet(SumsAfter(t, path + [name], children), path, next);
  }

  /** No net is stated but the lines' own. */
  predicate OnlyLinesHaveNet(f: Forest<Elem>) {
    match f
    case Empty => true
    case Text(_, next) => OnlyLinesHaveNet(next)
    case SelfClosed(_, next) => OnlyLinesHaveNet(next)
    case Element(name, children, next) =>
      && OnlyLinesHaveNet(next) && name != TaxExclusiveAmount && name != LineExtensionAmount
      && if IsLineTag(name) then HasNoLine(children) && SaysNothingOf(children, {TaxExclusiveAmount})
        else OnlyLinesHaveNet(children)
  }

  lemma {:induction false} NetStaysUnset(t: Totals, path: seq<Elem>, f: Forest<Elem>)
    requires OnlyLinesHaveNet(f) && (path == [] || path[|path| - 1] !in {TaxExclusiveAmount, LineExtensionAmount})
    ensures SumsAfter(t, path, f).net == t.net
    decreases f
  {
    hide ValueOf, Amount;
    match f
    case Empty =>
    case SelfClosed(_, next) => NetStaysUnset(t, path, next);
    case Text(raw, next) =>
      var ore := Amount(ValueOf(raw));
      NetStaysUnset(if path != [] && ore.Some? then AfterAmount(t, path[|path| - 1], ore.value) else t, path, next);
    case Element(name, children, next) =>
      if IsLineTag(name) {
        LineKeepsNet(t.(open := true), path + [name], children);
        NetStaysUnset(SumsAfter(t.(open := true), path + [name], children).(open := false), path, next);
      } else {
        NetStaysUnset(t, path + [name], children);
        NetStaysUnset(SumsAfter(t, path + [name], children), path, next);
      }
  }

  /** In particular: a document that states no net but its lines' gets the sum of its lines,
      and one that states no gross gets net plus VAT. */
  lemma OmittedTotalsAreMadeUp(doc: Forest<Elem>)
    requires ParseResult(doc).Ok?
    ensures OnlyLinesHaveNet(doc) ==>
      ParseResult(doc).value.netOre == SumBy((l: ReceivedLine) => l.netOre, ParseResult(doc).value.lines)
    ensures SaysNothingOf(doc, {TaxInclusiveAmount, PayableAmount}) ==>
      ParseResult(doc).value.grossOre == ParseResult(doc).value.netOre + ParseResult(doc).value.vatOre
  {
    hide ParseResult, SumsAfter;
    NetAndGross(doc);
    if OnlyLinesHaveNet(doc) {
      NetStaysUnset(Totals(0, 0, false), [], doc);
    }
    if SaysNothingOf(doc, {TaxInclusiveAmount, PayableAmount}) {
      GrossStaysUnset(Totals(0, 0, false), [], doc);
    }
  }

  // ---------- A line with its own tax ----------

  function Total(ore: int): Forest<Elem> {
    Element(TaxTotal, Element(TaxAmount, Forest.Text(Esc(TwoDecimals(ore)), Empty), Empty), Empty)
  }

  /** An invoice over one line that states its own tax. */
  function WithLineTax(ore: int, lineOre: int): Forest<Elem> {
    Element(Invoice, Join(Total(ore), Element(InvoiceLine, Total(lineOre), Empty)), Empty)
  }

  lemma TotalIsRead(out: Stream, s: State, ore: int)
    requires Run(out) == Running(s)
    ensures Run(out + Flatten(Total(ore))) == Running(s.(invoice := s.invoice.(vatOre := ore)))
  {
    hide Run, Total, FieldAt, ReadLeaf, Open, Close, Leaf, OnValue, OpensNothing;
    var s1, s2 := s.(path := s.path + [TaxTotal]),
      s.(path := s.path + [TaxTotal], invoice := s.invoice.(vatOre := ore));
    var o1 := Open(out, TaxTotal);
    assert OpensNothing(TaxTotal) && OpensNothing(TaxAmount) by { TotalsOpenNothing(); }
    RunOpen(out, s, TaxTotal);
    TotalPath(s.path, s.inLine);
    ReadsAmount(s1, TaxAmount, ore);
    LeafSets(o1, s1, TaxAmount, TwoDecimals(ore), s2);
    RunClose(Leaf(o1, TaxAmount, TwoDecimals(ore)), s2, s.path, TaxTotal);
    TotalStream(out, ore);
  }

  lemma TotalsOpenNothing()
    ensures OpensNothing(TaxTotal) && OpensNothing(TaxAmount)
  {
  }

  lemma TotalPath(path: seq<Elem>, inLine: bool)
    ensures FieldAt(path + [TaxTotal] + [TaxAmount], inLine) == VatAmount && IsVatPath(path + [TaxTotal] + [TaxAmount])
  {
    TailOfTwo(path + [TaxTotal] + [TaxAmount], TaxTotal, TaxAmount);
    hide EndsWith;
    VatFieldIff(path + [TaxTotal] + [TaxAmount], inLine);
  }

  lemma TotalStream(out: Stream, ore: int)
    ensures out + Flatten(Total(ore)) == Close(Leaf(Open(out, TaxTotal), TaxAmount, TwoDecimals(ore)), TaxTotal)
  {
    hide TwoDecimals, Esc;
    var raw := Esc(TwoDecimals(ore));
    assert Flatten(Forest<Elem>.Text(raw, Empty)) == [Chars(raw)];
    assert Flatten(Element(TaxAmount, Forest<Elem>.Text(raw, Empty), Empty))
        == [Start(TaxAmount), Chars(raw), End(TaxAmount)];
    assert Flatten(Total(ore)) == [Start(TaxTotal), Start(TaxAmount), Chars(raw), End(TaxAmount), End(TaxTotal)];
  }

  lemma TotalStates(ore: int)
    ensures VatAmounts([Invoice], Total(ore)) == [ore]
  {
    hide TextValue, Trim, Amount, TwoDecimals;
    WrittenText(TwoDecimals(ore));
    AmountRoundTrip(ore);
    var path, leaf := [Invoice] + [TaxTotal] + [TaxAmount], Forest<Elem>.Text(Esc(TwoDecimals(ore)), Empty);
    TotalPath([Invoice], false);
    assert VatAmounts(path, leaf) == [ore];
    assert VatAmounts([Invoice] + [TaxTotal], Element(TaxAmount, leaf, Empty)) == [ore];
  }

  /** For all amounts: the line's tax is read for the invoice's. */
  lemma LineTaxIsReadForTheInvoices(ore: int, lineOre: int)
    ensures VatAmounts([Invoice], Total(ore)) == [ore]
    ensures ParseResult(WithLineTax(ore, lineOre)).Ok? && ParseResult(WithLineTax(ore, lineOre)).value.vatOre == lineOre
  {
    TotalStates(ore);
    hide *;
    var s := BeforeTheEnds(ore, lineOre);
    var o4 := [Start(Invoice)] + Flatten(Total(ore)) + [Start(InvoiceLine)] + Flatten(Total(lineOre));
    RunMore(o4, End(InvoiceLine), []);
    RunMore(o4 + [End(InvoiceLine)], End(Invoice), []);
    FlattenWithLineTax(ore, lineOre);
    LineAndInvoiceEnd(s);
    FinishedInvoice(WithLineTax(ore, lineOre));
  }

  lemma BeforeTheEnds(ore: int, lineOre: int) returns (s: State)
    ensures Run([Start(Invoice)] + Flatten(Total(ore)) + [Start(InvoiceLine)] + Flatten(Total(lineOre))) == Running(s)
    ensures s.path == [Invoice, InvoiceLine] && s.rootSeen && s.invoice.vatOre == lineOre
  {
    hide Total, Run, Flatten;
    var s1 := OnStart(INITIAL, Invoice);
    var s2 := s1.(invoice := s1.invoice.(vatOre := ore));
    var s3 := OnStart(s2, InvoiceLine);
    s := s3.(invoice := s3.invoice.(vatOre := lineOre));
    StartsInvoice();
    TotalIsRead([Start(Invoice)], s1, ore);
    var o2 := [Start(Invoice)] + Flatten(Total(ore));
    RunMore(o2, Start(InvoiceLine), []);
    TotalIsRead(o2 + [Start(InvoiceLine)], s3, lineOre);
  }

  lemma StartsInvoice()
    ensures Run([Start(Invoice)]) == Running(OnStart(INITIAL, Invoice))
  {
    assert [Start(Invoice)][..0] == [];
  }

  lemma LineAndInvoiceEnd(s: State)
    requires s.path == [Invoice, InvoiceLine] && s.rootSeen
    ensures var m := Step(Step(Running(s), End(InvoiceLine)), End(Invoice));
      m.Running? && m.state.rootSeen && m.state.invoice.vatOre == s.invoice.vatOre
  {
    var m := OnEnd(s, InvoiceLine);
    assert s.path[..1] == [Invoice] && m.state.path == [Invoice];
    InvoiceEnds(m.state);
  }

  lemma InvoiceEnds(s: State)
    requires s.path == [Invoice]
    ensures OnEnd(s, Invoice) == Running(s.(path := []))
  {
  }

  lemma FinishedInvoice(doc: Forest<Elem>)
    requires Run(Flatten(doc)).Running? && Run(Flatten(doc)).state.rootSeen
    ensures ParseResult(doc).Ok? && ParseResult(doc).value.vatOre == Run(Flatten(doc)).state.invoice.vatOre
  {
  }

  lemma FlattenWithLineTax(ore: int, lineOre: int)
    ensures Flatten(WithLineTax(ore, lineOre))
         == [Start(Invoice)] + Flatten(Total(ore)) + [Start(InvoiceLine)] + Flatten(Total(lineOre))
          + [End(InvoiceLine)] + [End(Invoice)]
  {
    hide Total;
    var line := Element(InvoiceLine, Total(lineOre), Empty);
    FlattenJoin(Total(ore), line);
    FlattenOne(InvoiceLine, Total(lineOre));
    FlattenOne(Invoice, Join(Total(ore), line));
    hide Flatten, Join;
    Nested([Start(Invoice)], Flatten(Total(ore)), [Start(InvoiceLine)], Flatten(Total(lineOre)),
           [End(InvoiceLine)], [End(Invoice)]);
  }

  lemma FlattenOne(name: Elem, children: Forest<Elem>)
    ensures Flatten(Element(name, children, Empty)) == [Start(name)] + Flatten(children) + [End(name)]
  {
    var before := [Start(name)] + Flatten(children) + [End(name)];
    assert before + [] == before;
  }

  lemma Nested<T>(a: seq<T>, b: seq<T>, c: seq<T>, d: seq<T>, e: seq<T>, f: seq<T>)
    ensures a + (b + (c + d + e)) + f == a + b + c + d + e + f
  {
    Regroup(a, b, c + d + e);
    Regroup(a + b, c + d, e);
    Regroup(a + b, c, d);
  }
}
