/** EHF inbound: a received document is read into a posting suggestion by an event
    machine that keeps the path of open elements and assembles one line at a time. */
module EhfImport {
  import opened Wrappers
  import opened Decimal
  import opened Calendar
  import opened Text
  import opened Xml
  import opened Money
  import opened Sums
  import opened Ubl

  /** The importer's errors, and `Panic`, which is none of them: the program ends. */
  datatype ImportError = BadXml | NotEhf | BadAmount(raw: string) | BadDate(raw: string) | Panic

  datatype ReceivedLine = ReceivedLine(description: string, netOre: int, vatRateBp: Option<int>)

  datatype ReceivedInvoice = ReceivedInvoice(
    isCreditNote: bool,
    invoiceNumber: string,
    invoiceDate: Option<Date>,
    dueDate: Option<Date>,
    currency: string,
    sellerName: string,
    sellerOrgnumber: Option<string>,
    buyerOrgnumber: Option<string>,
    kid: Option<string>,
    accountNumber: Option<string>,
    netOre: int,
    vatOre: int,
    grossOre: int,
    lines: seq<ReceivedLine>)

  const EMPTY_INVOICE := ReceivedInvoice(false, "", None, None, "NOK", "", None, None, None, None, 0, 0, 0, [])
  const FRESH_LINE := ReceivedLine("", 0, None)

  // ---------- Values ----------

  /** "1234.56", "1234,56" or "1234" in øre. */
  function Amount(raw: string): Option<int> {
    ReadOre(ReplaceChar(Trim(raw), ',', '.'))
  }

  function Utf8Length(c: char): (bytes: nat)
    ensures 1 <= bytes <= 4
  {
    if c as int < 0x80 then 1 else if c as int < 0x800 then 2 else if c as int < 0x10000 then 3 else 4
  }

  /** The length in bytes, which is what `str::len` counts. */
  function ByteLength(s: string): nat {
    if s == [] then 0 else Utf8Length(s[0]) + ByteLength(s[1..])
  }

  /** `&s[..n]`, which counts bytes and panics when they end inside a character. */
  function FirstBytes(s: string, n: nat): Option<string> {
    if n == 0 then Some([])
    else if s == [] || Utf8Length(s[0]) > n then None
    else match FirstBytes(s[1..], n - Utf8Length(s[0]))
      case Some(rest) => Some([s[0]] + rest)
      case None => None
  }

  /** Percent "25" or "25.00" in basis points; decimals beyond two bytes are cut off. */
  function PercentBp(raw: string): Result<Option<int>, ImportError> {
    var (whole, frac) := WholeAndFraction(ReplaceChar(Trim(raw), ',', '.'), '.');
    match ParseInt(whole)
    case None => Ok(None)
    case Some(w) =>
      match FirstBytes(frac, if ByteLength(frac) < 2 then ByteLength(frac) else 2)
      case None => Err(Panic)
      case Some(cut) =>
        CutIsShort(frac);
        Ok(Some(w * 100 + match ParseInt(PadToTwo(cut)) case Some(f) => f case None => 0))
  }

  /** A cut takes whole characters from the front, as many bytes as asked for. */
  lemma {:induction false} CutIsPrefix(s: string, n: nat)
    ensures FirstBytes(s, n).Some? ==> FirstBytes(s, n).value <= s && ByteLength(FirstBytes(s, n).value) == n
    ensures FirstBytes(s, n).Some? ==> |FirstBytes(s, n).value| <= n
    ensures FirstBytes(s, ByteLength(s)) == Some(s)
  {
    if s != [] {
      if n >= Utf8Length(s[0]) {
        CutIsPrefix(s[1..], n - Utf8Length(s[0]));
      } else {
        CutIsPrefix(s[1..], 0);
      }
      assert s == [s[0]] + s[1..];
      if n > 0 && FirstBytes(s, n).Some? {
        assert FirstBytes(s, n).value[1..] == FirstBytes(s[1..], n - Utf8Length(s[0])).value;
      }
    }
  }

  lemma CutIsShort(frac: string)
    ensures var cut := FirstBytes(frac, if ByteLength(frac) < 2 then ByteLength(frac) else 2);
      cut.Some? ==> |cut.value| <= 2
  {
    CutIsPrefix(frac, if ByteLength(frac) < 2 then ByteLength(frac) else 2);
  }

  /** A fraction that starts with a character of three or four bytes, or with one of one
      byte and then another of more. */
  predicate IsCutInside(frac: string) {
    && frac != []
    && (frac[0] as int >= 0x800 || (frac[0] as int < 0x80 && |frac| > 1 && frac[1] as int >= 0x80))
  }

  /** Reading a percentage ends the program if and only if its whole part is a number and
      the second byte of its fraction is not the end of a character. */
  lemma PercentPanicsIff(raw: string)
    ensures
      var (whole, frac) := WholeAndFraction(ReplaceChar(Trim(raw), ',', '.'), '.');
      PercentBp(raw) == Err(Panic) <==> ParseInt(whole).Some? && IsCutInside(frac)
  {
    hide Trim, WholeAndFraction, ParseInt;
    var (_, frac) := WholeAndFraction(ReplaceChar(Trim(raw), ',', '.'), '.');
    if ByteLength(frac) < 2 {
      CutIsPrefix(frac, 0);
    } else {
      CutIsInsideIff(frac);
    }
  }

  lemma CutIsInsideIff(frac: string)
    requires ByteLength(frac) >= 2
    ensures FirstBytes(frac, 2).Some? <==> !IsCutInside(frac)
  {
    if Utf8Length(frac[0]) == 1 {
      var rest := frac[1..];
      assert rest != [] && rest[0] == frac[1];
      assert FirstBytes(rest, 1).Some? <==> Utf8Length(rest[0]) == 1;
    }
  }

  /** "25.1" and an "å" is enough. */
  lemma PercentPanicWitness()
    ensures PercentBp("25.1\U{E5}") == Err(Panic)
  {
    var raw := "25.1\U{E5}";
    assert '.' !in "25" && !IsSpace('\U{E5}') && raw == "25" + ['.'] + "1\U{E5}";
    TrimOfTrimmed(raw);
    ReplaceAbsent(raw, ',', '.');
    SplitOnceFinds("25", '.', "1\U{E5}");
    PercentPanicsIff(raw);
  }

  function DigitsOf(s: string): string {
    Filter(IsDigit, s)
  }

  /** The last nine digits, if there are nine. */
  function OrgnumberOf(value: string): Option<string> {
    var digits := DigitsOf(value);
    if |digits| >= 9 then Some(digits[|digits| - 9..]) else None
  }

  function Or<T>(first: Option<T>, second: Option<T>): Option<T> {
    if first.Some? then first else second
  }

  // ---------- The machine ----------

  datatype State = State(
    path: seq<Elem>,
    rootSeen: bool,
    invoice: ReceivedInvoice,
    inLine: bool,
    line: ReceivedLine,
    nameFromLegal: bool)

  datatype Machine = Running(state: State) | Failed(error: ImportError)

  const INITIAL := State([], false, EMPTY_INVOICE, false, FRESH_LINE, false)

  /** Where a text goes, by its path and whether a line is open. */
  datatype Field =
    | InvoiceNumber | InvoiceDate | InvoiceDueDate | Currency | Kid | AccountNumber
    | SellerPartyName | SellerLegalName | SellerOrgnumber | BuyerOrgnumber
    | NetAmount | NetIfUnset | GrossAmount | GrossIfUnset | VatAmount
    | LineNet | LineName | LineNameIfUnset | LinePercent
    | Ignored

  predicate EndsWith(path: seq<Elem>, tail: seq<Elem>) {
    |tail| <= |path| && path[|path| - |tail|..] == tail
  }

  /** The party whose identification a text belongs to, if it is one. */
  function OrgnumberField(path: seq<Elem>): Field {
    if !(EndsWith(path, [Party, EndpointID]) || EndsWith(path, [PartyIdentification, ID])
         || EndsWith(path, [PartyLegalEntity, CompanyID])) then Ignored
    else if AccountingSupplierParty in path then SellerOrgnumber
    else if AccountingCustomerParty in path then BuyerOrgnumber
    else Ignored
  }

  function FieldAt(path: seq<Elem>, inLine: bool): Field
    requires path != []
  {
    match path[|path| - 1]
    case ID =>
      if |path| == 2 then InvoiceNumber
      else if OrgnumberField(path) != Ignored then OrgnumberField(path)
      else if EndsWith(path, [PayeeFinancialAccount, ID]) then AccountNumber
      else Ignored
    case IssueDate => if |path| == 2 then InvoiceDate else Ignored
    case DueDate => if |path| == 2 then InvoiceDueDate else Ignored
    case DocumentCurrencyCode => if |path| == 2 then Currency else Ignored
    case PaymentID => Kid
    case Name =>
      if AccountingSupplierParty in path && EndsWith(path, [PartyName, Name]) then SellerPartyName
      else if inLine && EndsWith(path, [Item, Name]) then LineName
      else Ignored
    case RegistrationName => if AccountingSupplierParty in path then SellerLegalName else Ignored
    case EndpointID => OrgnumberField(path)
    case CompanyID => OrgnumberField(path)
    case TaxExclusiveAmount => NetAmount
    case TaxInclusiveAmount => GrossIfUnset
    case PayableAmount => GrossAmount
    case TaxAmount => if EndsWith(path, [TaxTotal, TaxAmount]) then VatAmount else Ignored
    case LineExtensionAmount => if inLine then LineNet else NetIfUnset
    case Description => if inLine then LineNameIfUnset else Ignored
    case Percent => if inLine then LinePercent else Ignored
    case _ => Ignored
  }

  predicate IsDateField(field: Field) {
    field == InvoiceDate || field == InvoiceDueDate
  }

  /** The amount fields; the two fallbacks only while their amount is still zero. */
  predicate WantsAmount(inv: ReceivedInvoice, field: Field) {
    match field
    case NetAmount => true
    case GrossAmount => true
    case VatAmount => true
    case LineNet => true
    case NetIfUnset => inv.netOre == 0
    case GrossIfUnset => inv.grossOre == 0
    case _ => false
  }

  function SetDate(inv: ReceivedInvoice, field: Field, date: Date): ReceivedInvoice {
    match field
    case InvoiceDate => inv.(invoiceDate := Some(date))
    case InvoiceDueDate => inv.(dueDate := Some(date))
    case _ => inv
  }

  function SetAmount(s: State, field: Field, ore: int): State {
    match field
    case NetAmount => s.(invoice := s.invoice.(netOre := ore))
    case NetIfUnset => s.(invoice := s.invoice.(netOre := ore))
    case GrossAmount => s.(invoice := s.invoice.(grossOre := ore))
    case GrossIfUnset => s.(invoice := s.invoice.(grossOre := ore))
    case VatAmount => s.(invoice := s.invoice.(vatOre := ore))
    case LineNet => s.(line := s.line.(netOre := ore))
    case _ => s
  }

  function SetText(s: State, field: Field, value: string): State {
    var inv := s.invoice;
    match field
    case InvoiceNumber => s.(invoice := inv.(invoiceNumber := value))
    case Currency => s.(invoice := inv.(currency := value))
    case Kid => s.(invoice := inv.(kid := Some(value)))
    case AccountNumber => s.(invoice := inv.(accountNumber := Some(value)))
    case SellerPartyName => if s.nameFromLegal then s else s.(invoice := inv.(sellerName := value))
    case SellerLegalName => s.(invoice := inv.(sellerName := value), nameFromLegal := true)
    case SellerOrgnumber =>
      s.(invoice := inv.(sellerOrgnumber := Or(inv.sellerOrgnumber, OrgnumberOf(value))))
    case BuyerOrgnumber =>
      s.(invoice := inv.(buyerOrgnumber := Or(inv.buyerOrgnumber, OrgnumberOf(value))))
    case LineName => s.(line := s.line.(description := value))
    case LineNameIfUnset => if s.line.description == "" then s.(line := s.line.(description := value)) else s
    case _ => s
  }

  /** One text, trimmed and not empty. */
  function OnValue(s: State, value: string): Machine
    requires s.path != []
  {
    var field := FieldAt(s.path, s.inLine);
    if IsDateField(field) then
      match ParseIso(value)
      case Some(date) => Running(s.(invoice := SetDate(s.invoice, field, date)))
      case None => Failed(BadDate(value))
    else if WantsAmount(s.invoice, field) then
      match Amount(value)
      case Some(ore) => Running(SetAmount(s, field, ore))
      case None => Failed(BadAmount(value))
    else if field == LinePercent then
      match PercentBp(value)
      case Ok(rate) => Running(s.(line := s.line.(vatRateBp := rate)))
      case Err(e) => Failed(e)
    else Running(SetText(s, field, value))
  }

  predicate IsLineTag(name: Elem) {
    name == InvoiceLine || name == CreditNoteLine
  }

  function OnStart(s: State, name: Elem): State {
    s.(path := s.path + [name],
       rootSeen := s.rootSeen || name == Invoice || name == CreditNote,
       invoice := if !s.rootSeen && name == CreditNote then s.invoice.(isCreditNote := true) else s.invoice,
       inLine := s.inLine || IsLineTag(name),
       line := if IsLineTag(name) then FRESH_LINE else s.line)
  }

  function OnEnd(s: State, name: Elem): Machine {
    if s.path == [] || s.path[|s.path| - 1] != name then Failed(BadXml)
    else
      var popped := s.(path := s.path[..|s.path| - 1]);
      Running(
        if IsLineTag(name) then
          popped.(invoice := s.invoice.(lines := s.invoice.lines + [s.line]),
                  line := s.line.(description := ""),
                  inLine := false)
        else popped)
  }

  function OnChars(s: State, raw: string): Machine {
    match TextValue(raw)
    case None => Failed(BadXml)
    case Some(text) =>
      var value := Trim(text);
      if value == "" || s.path == [] then Running(s) else OnValue(s, value)
  }

  function Step(m: Machine, event: Event<Elem>): Machine {
    if m.Failed? then m
    else match event
      case Start(name) => Running(OnStart(m.state, name))
      case End(name) => OnEnd(m.state, name)
      case Chars(raw) => OnChars(m.state, raw)
      case Blank(_) => m
  }

  /** The machine after a stream, last event last. */
  function Run(events: seq<Event<Elem>>): Machine {
    if events == [] then Running(INITIAL) else Step(Run(events[..|events| - 1]), events[|events| - 1])
  }

  /** What is derived once the stream has ended. */
  function Finish(m: Machine): Result<ReceivedInvoice, ImportError> {
    match m
    case Failed(e) => Err(e)
    case Running(s) =>
      if !s.rootSeen then Err(NotEhf)
      else
        var net := if s.invoice.netOre == 0 && s.invoice.lines != [] then
                     SumBy((l: ReceivedLine) => l.netOre, s.invoice.lines)
                   else s.invoice.netOre;
        var gross := if s.invoice.grossOre == 0 then net + s.invoice.vatOre else s.invoice.grossOre;
        Ok(s.invoice.(netOre := net, grossOre := gross))
  }

  lemma {:induction false} FailureSticks(events: seq<Event<Elem>>, n: nat)
    requires n <= |events| && Run(events[..n]).Failed?
    ensures Run(events) == Run(events[..n])
    decreases |events|
  {
    if n == |events| {
      assert events[..n] == events;
    } else {
      var front := events[..|events| - 1];
      assert front[..n] == events[..n];
      FailureSticks(front, n);
    }
  }

  /** A text never opens or closes anything. */
  lemma CharsKeepShape(s: State, raw: string)
    ensures
      var m := OnChars(s, raw);
      m.Running? ==> m.state.path == s.path && m.state.rootSeen == s.rootSeen && m.state.inLine == s.inLine
  {
    hide TextValue, Trim, FieldAt, Amount, PercentBp, OrgnumberOf, ParseIso;
  }

  method Parse(events: seq<Event<Elem>>) returns (result: Result<ReceivedInvoice, ImportError>)
    ensures result == Finish(Run(events))
  {
    hide OnValue, TextValue;
    var path: seq<Elem> := [];
    var invoice := EMPTY_INVOICE;
    var rootSeen, inLine, nameFromLegal := false, false, false;
    var line := FRESH_LINE;
    for i := 0 to |events|
      invariant Run(events[..i]) == Running(State(path, rootSeen, invoice, inLine, line, nameFromLegal))
    {
      assert events[..i + 1][..i] == events[..i];
      match events[i] {
        case Start(name) =>
          if !rootSeen {
            if name == Invoice {
              rootSeen := true;
            } else if name == CreditNote {
              rootSeen := true;
              invoice := invoice.(isCreditNote := true);
            }
          }
          if name == InvoiceLine || name == CreditNoteLine {
            inLine := true;
            line := FRESH_LINE;
          }
          path := path + [name];
        case End(name) =>
          if path == [] || path[|path| - 1] != name {
            FailureSticks(events, i + 1);
            return Err(BadXml);
          }
          if name == InvoiceLine || name == CreditNoteLine {
            invoice := invoice.(lines := invoice.lines + [line]);
            line := line.(description := "");
            inLine := false;
          }
          path := path[..|path| - 1];
        case Chars(raw) =>
          match OnChars(State(path, rootSeen, invoice, inLine, line, nameFromLegal), raw) {
            case Failed(e) =>
              FailureSticks(events, i + 1);
              return Err(e);
            case Running(s) =>
              CharsKeepShape(State(path, rootSeen, invoice, inLine, line, nameFromLegal), raw);
              invoice, line, nameFromLegal := s.invoice, s.line, s.nameFromLegal;
          }
        case Blank(_) =>
      }
    }
    assert events[..|events|] == events;
    result := Finish(Running(State(path, rootSeen, invoice, inLine, line, nameFromLegal)));
  }
}
