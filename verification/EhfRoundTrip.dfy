/** What the renderer writes, the importer reads back. */
module EhfRoundTrip {
  import opened Wrappers
  import opened Decimal
  import opened Calendar
  import opened Text
  import opened Xml
  import opened Money
  import opened Sums
  import opened Ubl
  import opened Ehf
  import opened EhfImport

  // ---------- What comes back ----------

  /** A text comes back trimmed; where nothing is left of it, the field keeps `unset`. */
  function Kept(text: string, unset: string): string {
    if Trim(text) == "" then unset else Trim(text)
  }

  function KeptOption(text: Option<string>): Option<string> {
    match text
    case Some(t) => if Trim(t) == "" then None else Some(Trim(t))
    case None => None
  }

  /** A positive rate comes back as itself, any other as zero. */
  function ReceivedRate(line: Line): Option<int> {
    Some(TaxCategoryOf(line).1)
  }

  function ExpectedLine(line: Line): ReceivedLine {
    ReceivedLine(Trim(line.description), line.netOre, ReceivedRate(line))
  }

  function ExpectedLines(lines: seq<Line>): (expected: seq<ReceivedLine>)
    ensures |expected| == |lines|
  {
    seq(|lines|, i requires 0 <= i < |lines| => ExpectedLine(lines[i]))
  }

  predicate AsksForPayment(doc: Document) {
    doc.documentType.InvoiceDocument? && doc.accountNumber.Some?
  }

  function Expected(doc: Document): ReceivedInvoice {
    ReceivedInvoice(
      isCreditNote := doc.documentType.CreditNoteDocument?,
      invoiceNumber := Trim(doc.invoiceNumber),
      invoiceDate := Some(doc.invoiceDate),
      dueDate := if doc.documentType.InvoiceDocument? then doc.dueDate else None,
      currency := Kept(doc.currency, "NOK"),
      sellerName := Trim(doc.seller.name),
      sellerOrgnumber := OrgnumberOf(Trim(doc.seller.orgnumber)),
      buyerOrgnumber := OrgnumberOf(Trim(doc.buyer.orgnumber)),
      kid := if AsksForPayment(doc) then KeptOption(doc.kid) else None,
      accountNumber := if AsksForPayment(doc) then KeptOption(doc.accountNumber) else None,
      netOre := NetOf(doc.lines),
      vatOre := VatOf(doc.lines),
      grossOre := NetOf(doc.lines) + VatOf(doc.lines),
      lines := ExpectedLines(doc.lines))
  }

  // ---------- Values ----------

  lemma TwoDecimalsIsPlain(n: int)
    ensures TwoDecimals(n) != "" && IsTrimmed(TwoDecimals(n)) && ',' !in TwoDecimals(n)
  {
    var s := TwoDecimals(n);
    var digits, frac := ToString(Abs(n) / 100), Padded(Abs(n) % 100, 2);
    assert s[|s| - 1] == frac[1];
    assert s[0] == if n < 0 then '-' else digits[0];
    assert forall c | IsDigit(c) :: c != ',' && !IsSpace(c);
    assert s == (if n < 0 then "-" else "") + digits + ['.'] + frac;
  }

  lemma AmountRoundTrip(ore: int)
    ensures Trim(TwoDecimals(ore)) == TwoDecimals(ore) != ""
    ensures Amount(TwoDecimals(ore)) == Some(ore)
  {
    hide TwoDecimals, ReadOre;
    TwoDecimalsIsPlain(ore);
    TrimOfTrimmed(TwoDecimals(ore));
    ReplaceAbsent(TwoDecimals(ore), ',', '.');
    ReadOreOfTwoDecimals(ore);
  }

  lemma WholeOfTwoDecimals(n: int)
    ensures WholeAndFraction(TwoDecimals(n), '.')
         == ((if n < 0 then "-" else "") + ToString(Abs(n) / 100), Padded(Abs(n) % 100, 2))
  {
    var digits := ToString(Abs(n) / 100);
    var whole := (if n < 0 then "-" else "") + digits;
    assert forall i | 0 <= i < |digits| :: digits[i] != '.';
    assert TwoDecimals(n) == whole + ['.'] + Padded(Abs(n) % 100, 2);
    SplitOnceFinds(whole, '.', Padded(Abs(n) % 100, 2));
  }

  /** A written percentage is read back exactly unless it is negative and not whole;
      then its hundredths are added instead of subtracted. */
  lemma PercentRoundTrip(bp: int)
    ensures PercentBp(TwoDecimals(bp)) == Ok(Some(if bp < 0 then bp + 2 * (Abs(bp) % 100) else bp))
    ensures PercentBp(TwoDecimals(bp)) == Ok(Some(bp)) <==> bp >= 0 || bp % 100 == 0
  {
    hide TwoDecimals, WholeAndFraction, ParseInt, FirstBytes;
    TwoDecimalsIsPlain(bp);
    TrimOfTrimmed(TwoDecimals(bp));
    ReplaceAbsent(TwoDecimals(bp), ',', '.');
    WholeOfTwoDecimals(bp);
    ParseIntOfSigned(bp < 0, Abs(bp) / 100);
    TwoDigitsAreTwoBytes(Padded(Abs(bp) % 100, 2));
    ParseIntOfTwoDigits(Abs(bp) % 100);
    hide Padded, Trim, ToString, ByteLength;
  }

  lemma TwoDigitsAreTwoBytes(digits: string)
    requires |digits| == 2 && AllDigits(digits)
    ensures ByteLength(digits) == 2 && FirstBytes(digits, 2) == Some(digits)
  {
    assert digits == [digits[0]] + [digits[1]] && digits[1..][1..] == [];
    assert ByteLength(digits[1..]) == 1;
    CutIsPrefix(digits, 2);
  }

  lemma DateRoundTrip(d: Date)
    ensures Trim(IsoString(d)) == IsoString(d) != ""
    ensures ParseIso(IsoString(d)) == Some(d)
  {
    IsoRoundTrip(d);
    var s := IsoString(d);
    assert s[0] == Padded(d.year, 4)[0] && s[9] == Padded(d.day, 2)[1];
    assert forall c | IsDigit(c) :: !IsSpace(c);
    TrimOfTrimmed(s);
  }

  /** What the reader makes of a written text. */
  lemma WrittenText(text: string)
    ensures TextValue(Esc(text)).Some? && Trim(TextValue(Esc(text)).value) == Trim(text)
  {
    TrimEsc(text);
    UnescapeEsc(TrimXml(text));
    TrimAbsorbsTrimXml(text);
  }

  // ---------- One tag at a time ----------

  predicate OpensNothing(tag: Elem) {
    !IsLineTag(tag) && tag != Invoice && tag != CreditNote
  }

  lemma RunOne(out: Stream, event: Event<Elem>)
    ensures Run(out + [event]) == Step(Run(out), event)
  {
    assert (out + [event])[..|out|] == out;
  }

  lemma RunOpen(out: Stream, s: State, tag: Elem)
    requires Run(out) == Running(s) && OpensNothing(tag)
    ensures Run(Open(out, tag)) == Running(s.(path := s.path + [tag]))
  {
    RunOne(out, Start(tag));
  }

  lemma RunClose(out: Stream, s: State, path: seq<Elem>, tag: Elem)
    requires Run(out) == Running(s) && s.path == path + [tag] && !IsLineTag(tag)
    ensures Run(Close(out, tag)) == Running(s.(path := path))
  {
    RunOne(out, End(tag));
  }

  /** The effect of a leaf: its trimmed text at its path, if there is any. */
  function ReadLeaf(s: State, tag: Elem, text: string): Machine {
    if Trim(text) == "" then Running(s)
    else match OnValue(s.(path := s.path + [tag]), Trim(text))
      case Running(next) => Running(next.(path := s.path))
      case Failed(e) => Failed(e)
  }

  lemma RunLeaf(out: Stream, s: State, tag: Elem, text: string)
    requires Run(out) == Running(s) && OpensNothing(tag)
    requires ReadLeaf(s, tag, text).Running?
    ensures Run(Leaf(out, tag, text)) == ReadLeaf(s, tag, text)
  {
    hide OnValue, TextValue;
    var raw := Esc(text);
    var out1 := out + [Start(tag)];
    var out2 := out1 + [Chars(raw)];
    assert Leaf(out, tag, text) == out2 + [End(tag)];
    var s1 := s.(path := s.path + [tag]);
    RunOne(out, Start(tag));
    RunOne(out1, Chars(raw));
    WrittenText(text);
    CharsKeepShape(s1, raw);
    RunOne(out2, End(tag));
  }

  lemma LeafSets(out: Stream, s: State, tag: Elem, text: string, next: State)
    requires Run(out) == Running(s) && OpensNothing(tag)
    requires ReadLeaf(s, tag, text) == Running(next)
    ensures Run(Leaf(out, tag, text)) == Running(next)
  {
    hide *;
    RunLeaf(out, s, tag, text);
  }

  /** A leaf the importer has no use for. */
  lemma LeafIgnored(out: Stream, s: State, tag: Elem, text: string)
    requires Run(out) == Running(s) && OpensNothing(tag)
    requires FieldAt(s.path + [tag], s.inLine) == Ignored
    ensures Run(Leaf(out, tag, text)) == Running(s)
  {
    hide FieldAt, Run, Leaf, Trim;
    RunLeaf(out, s, tag, text);
  }

  lemma OptLeafIgnored(out: Stream, s: State, tag: Elem, text: Option<string>)
    requires Run(out) == Running(s) && OpensNothing(tag)
    requires FieldAt(s.path + [tag], s.inLine) == Ignored
    ensures Run(OptLeaf(out, tag, text)) == Running(s)
  {
    hide FieldAt;
    if text.Some? {
      LeafIgnored(out, s, tag, text.value);
    }
  }

  // ---------- Paths ----------

  lemma EndsWithTwo(path: seq<Elem>, a: Elem, b: Elem, x: Elem, y: Elem)
    ensures EndsWith(path + [a] + [b], [x, y]) <==> a == x && b == y
  {
    var p := path + [a] + [b];
    var t := p[|p| - 2..];
    assert |t| == 2 && t[0] == a && t[1] == b;
  }

  /** An ID below something else than the root. */
  lemma IdField(path: seq<Elem>, a: Elem, inLine: bool)
    requires |path| >= 1
    ensures
      FieldAt(path + [a] + [ID], inLine)
      == if a == PartyIdentification && AccountingSupplierParty in path then SellerOrgnumber
         else if a == PartyIdentification && AccountingCustomerParty in path then BuyerOrgnumber
         else if a == PayeeFinancialAccount then EhfImport.Field.AccountNumber
         else Ignored
  {
    hide EndsWith;
    EndsWithTwo(path, a, ID, Party, EndpointID);
    EndsWithTwo(path, a, ID, PartyIdentification, ID);
    EndsWithTwo(path, a, ID, PartyLegalEntity, CompanyID);
    EndsWithTwo(path, a, ID, PayeeFinancialAccount, ID);
  }

  lemma OrgnumberLeaf(path: seq<Elem>, a: Elem, b: Elem, inLine: bool)
    requires (a == Party && b == EndpointID) || (a == PartyLegalEntity && b == CompanyID)
          || (a == PartyTaxScheme && b == CompanyID)
    ensures
      FieldAt(path + [a] + [b], inLine)
      == if a == PartyTaxScheme then Ignored
         else if AccountingSupplierParty in path then SellerOrgnumber
         else if AccountingCustomerParty in path then BuyerOrgnumber
         else Ignored
  {
    hide EndsWith;
    EndsWithTwo(path, a, b, Party, EndpointID);
    EndsWithTwo(path, a, b, PartyIdentification, ID);
    EndsWithTwo(path, a, b, PartyLegalEntity, CompanyID);
  }

  lemma NameField(path: seq<Elem>, a: Elem, inLine: bool)
    requires AccountingSupplierParty != a
    ensures
      FieldAt(path + [a] + [Name], inLine)
      == if AccountingSupplierParty in path && a == PartyName then SellerPartyName
         else if inLine && a == Item then LineName
         else Ignored
  {
    hide EndsWith;
    EndsWithTwo(path, a, Name, PartyName, Name);
    EndsWithTwo(path, a, Name, Item, Name);
  }

  lemma TaxAmountField(path: seq<Elem>, a: Elem, inLine: bool)
    ensures FieldAt(path + [a] + [TaxAmount], inLine) == if a == TaxTotal then VatAmount else Ignored
  {
    hide EndsWith;
    EndsWithTwo(path, a, TaxAmount, TaxTotal, TaxAmount);
  }

  // ---------- Fields ----------

  lemma ReadsDate(s: State, tag: Elem, date: Date)
    requires IsDateField(FieldAt(s.path + [tag], s.inLine))
    ensures ReadLeaf(s, tag, IsoString(date))
         == Running(s.(invoice := SetDate(s.invoice, FieldAt(s.path + [tag], s.inLine), date)))
  {
    hide FieldAt, Trim, IsoString, ParseIso, SetDate;
    DateRoundTrip(date);
  }

  lemma ReadsAmount(s: State, tag: Elem, ore: int)
    requires WantsAmount(s.invoice, FieldAt(s.path + [tag], s.inLine))
    ensures ReadLeaf(s, tag, TwoDecimals(ore)) == Running(SetAmount(s, FieldAt(s.path + [tag], s.inLine), ore))
  {
    hide FieldAt, Trim, TwoDecimals, Amount;
    AmountRoundTrip(ore);
  }

  lemma ReadsText(s: State, tag: Elem, text: string)
    requires !WantsAmount(s.invoice, FieldAt(s.path + [tag], s.inLine))
    requires !IsDateField(FieldAt(s.path + [tag], s.inLine)) && FieldAt(s.path + [tag], s.inLine) != LinePercent
    ensures ReadLeaf(s, tag, text)
         == Running(if Trim(text) == "" then s else SetText(s, FieldAt(s.path + [tag], s.inLine), Trim(text)))
  {
    hide FieldAt, Trim, OrgnumberOf, PercentBp;
  }

  lemma ReadsPercent(s: State, tag: Elem, bp: int)
    requires FieldAt(s.path + [tag], s.inLine) == LinePercent && bp >= 0
    ensures ReadLeaf(s, tag, TwoDecimals(bp)) == Running(s.(line := s.line.(vatRateBp := Some(bp))))
  {
    hide FieldAt, Trim, PercentBp, TwoDecimals;
    AmountRoundTrip(bp);
    PercentRoundTrip(bp);
  }

  lemma NoOrgnumberInNothing()
    ensures OrgnumberOf("") == None
  {
  }

  // ---------- Parties ----------

  predicate InParty(s: State, root: Elem, wrapper: Elem) {
    && s.path == [root, wrapper, Party] && !s.inLine
    && (wrapper == AccountingSupplierParty || wrapper == AccountingCustomerParty)
    && root != AccountingSupplierParty && root != AccountingCustomerParty
  }

  function WithOrgnumber(s: State, wrapper: Elem, part: Part): State {
    var o := OrgnumberOf(Trim(part.orgnumber));
    if wrapper == AccountingSupplierParty then
      s.(invoice := s.invoice.(sellerOrgnumber := Or(s.invoice.sellerOrgnumber, o)))
    else s.(invoice := s.invoice.(buyerOrgnumber := Or(s.invoice.buyerOrgnumber, o)))
  }

  function WithName(s: State, wrapper: Elem, part: Part): State {
    if wrapper == AccountingSupplierParty then
      s.(invoice := s.invoice.(sellerName := Kept(part.name, s.invoice.sellerName)))
    else s
  }

  /** An orgnumber leaf of the party, wherever it stands. */
  lemma OrgnumberRead(out: Stream, s: State, wrapper: Elem, b: Elem, part: Part)
    requires Run(out) == Running(s) && !s.inLine && OpensNothing(b)
    requires wrapper == AccountingSupplierParty || wrapper == AccountingCustomerParty
    requires FieldAt(s.path + [b], false) == if wrapper == AccountingSupplierParty then SellerOrgnumber
      else BuyerOrgnumber
    ensures Run(Leaf(out, b, part.orgnumber)) == Running(WithOrgnumber(s, wrapper, part))
  {
    hide FieldAt, OrgnumberOf, Trim, Run, ReadLeaf, Leaf;
    ReadsText(s, b, part.orgnumber);
    NoOrgnumberInNothing();
    LeafSets(out, s, b, part.orgnumber, WithOrgnumber(s, wrapper, part));
  }

  /** The identification repeats the endpoint's number. */
  lemma PartyIdentificationRead(out: Stream, s: State, root: Elem, wrapper: Elem, part: Part)
    requires Run(out) == Running(s) && !s.inLine && s.path == [root, wrapper] + [Party]
    requires wrapper == AccountingSupplierParty || wrapper == AccountingCustomerParty
    requires root != AccountingSupplierParty && root != AccountingCustomerParty
    ensures Run(Close(Leaf(Open(out, PartyIdentification), ID, part.orgnumber), PartyIdentification))
         == Running(WithOrgnumber(s, wrapper, part))
  {
    hide FieldAt, OrgnumberOf, Trim, Run, ReadLeaf, Leaf, Open, Close, Or;
    RunOpen(out, s, PartyIdentification);
    var o1, s1 := Open(out, PartyIdentification), s.(path := s.path + [PartyIdentification]);
    IdField(s.path, PartyIdentification, false);
    OrgnumberRead(o1, s1, wrapper, ID, part);
    RunClose(Leaf(o1, ID, part.orgnumber), WithOrgnumber(s1, wrapper, part), s.path, PartyIdentification);
  }

  lemma PartyIdsRead(out: Stream, s: State, root: Elem, wrapper: Elem, part: Part)
    requires Run(out) == Running(s) && InParty(s, root, wrapper)
    requires wrapper == AccountingSupplierParty ==> !s.nameFromLegal
    ensures Run(PartyIds(out, part)) == Running(WithName(WithOrgnumber(s, wrapper, part), wrapper, part))
  {
    hide FieldAt, OrgnumberOf, Trim, Run, ReadLeaf, Leaf, Open, Close, Kept, Or;
    var p := [root, wrapper];
    assert s.path == p + [Party];
    OrgnumberLeaf(p, Party, EndpointID, false);
    OrgnumberRead(out, s, wrapper, EndpointID, part);
    var o1 := Leaf(out, EndpointID, part.orgnumber);
    var s1 := WithOrgnumber(s, wrapper, part);
    PartyIdentificationRead(o1, s1, root, wrapper, part);
    OrTwice(s.invoice, part);
    var o4 := Close(Leaf(Open(o1, PartyIdentification), ID, part.orgnumber), PartyIdentification);
    RunOpen(o4, s1, PartyName);
    var o5 := Open(o4, PartyName);
    var s5 := s1.(path := s1.path + [PartyName]);
    NameField(s1.path, PartyName, false);
    PartyNameRead(o5, s5, wrapper, part);
    var s6 := WithName(s5, wrapper, part);
    RunClose(Leaf(o5, Name, part.name), s6, s1.path, PartyName);
  }

  lemma OrTwice(invoice: ReceivedInvoice, part: Part)
    ensures
      var o := OrgnumberOf(Trim(part.orgnumber));
      && Or(Or(invoice.sellerOrgnumber, o), o) == Or(invoice.sellerOrgnumber, o)
      && Or(Or(invoice.buyerOrgnumber, o), o) == Or(invoice.buyerOrgnumber, o)
  {
  }

  lemma PartyNameRead(out: Stream, s: State, wrapper: Elem, part: Part)
    requires Run(out) == Running(s) && (wrapper == AccountingSupplierParty ==> !s.nameFromLegal)
    requires FieldAt(s.path + [Name], s.inLine)
          == if wrapper == AccountingSupplierParty then SellerPartyName else Ignored
    ensures Run(Leaf(out, Name, part.name)) == Running(WithName(s, wrapper, part))
  {
    hide FieldAt, Trim, Run, ReadLeaf, Leaf;
    if wrapper == AccountingSupplierParty {
      ReadsText(s, Name, part.name);
      LeafSets(out, s, Name, part.name, WithName(s, wrapper, part));
    } else {
      LeafIgnored(out, s, Name, part.name);
    }
  }

  lemma PartyAddressRead(out: Stream, s: State, part: Part)
    requires Run(out) == Running(s)
    ensures Run(PartyAddress(out, part)) == Running(s)
  {
    hide Run, Leaf, OptLeaf, Open, Close;
    RunOpen(out, s, PostalAddress);
    var s1 := s.(path := s.path + [PostalAddress]);
    var o1 := Open(out, PostalAddress);
    OptLeafIgnored(o1, s1, StreetName, part.address);
    var o2 := OptLeaf(o1, StreetName, part.address);
    OptLeafIgnored(o2, s1, CityName, part.postalCity);
    var o3 := OptLeaf(o2, CityName, part.postalCity);
    OptLeafIgnored(o3, s1, PostalZone, part.postalCode);
    var o4 := OptLeaf(o3, PostalZone, part.postalCode);
    CountryRead(o4, s1, part.land);
    RunClose(Close(Leaf(Open(o4, Country), IdentificationCode, part.land), Country), s1, s.path, PostalAddress);
  }

  lemma CountryRead(out: Stream, s: State, code: string)
    requires Run(out) == Running(s)
    ensures Run(Close(Leaf(Open(out, Country), IdentificationCode, code), Country)) == Running(s)
  {
    hide Run, Leaf, Open, Close;
    RunOpen(out, s, Country);
    var o1, s1 := Open(out, Country), s.(path := s.path + [Country]);
    LeafIgnored(o1, s1, IdentificationCode, code);
    RunClose(Leaf(o1, IdentificationCode, code), s1, s.path, Country);
  }

  lemma VatSchemeRead(out: Stream, s: State)
    requires Run(out) == Running(s) && |s.path| >= 1
    ensures Run(VatScheme(out)) == Running(s)
  {
    hide Run, Leaf, Open, Close, FieldAt;
    RunOpen(out, s, TaxScheme);
    var s1 := s.(path := s.path + [TaxScheme]);
    var o1 := Open(out, TaxScheme);
    IdField(s.path, TaxScheme, s.inLine);
    LeafIgnored(o1, s1, ID, "VAT");
    RunClose(Leaf(o1, ID, "VAT"), s1, s.path, TaxScheme);
  }

  lemma PartyVatRead(out: Stream, s: State, part: Part)
    requires Run(out) == Running(s)
    ensures Run(PartyVat(out, part)) == Running(s)
  {
    hide Run, Leaf, Open, Close, FieldAt, VatScheme;
    if part.vatRegistered {
      RunOpen(out, s, PartyTaxScheme);
      var s1 := s.(path := s.path + [PartyTaxScheme]);
      var o1 := Open(out, PartyTaxScheme);
      OrgnumberLeaf(s.path, PartyTaxScheme, CompanyID, s.inLine);
      LeafIgnored(o1, s1, CompanyID, "NO" + part.orgnumber + "MVA");
      var o2 := Leaf(o1, CompanyID, "NO" + part.orgnumber + "MVA");
      VatSchemeRead(o2, s1);
      RunClose(VatScheme(o2), s1, s.path, PartyTaxScheme);
    }
  }

  lemma PartyContactRead(out: Stream, s: State, part: Part)
    requires Run(out) == Running(s)
    ensures Run(PartyContact(out, part)) == Running(s)
  {
    hide Run, Leaf, Open, Close;
    if part.email.Some? {
      RunOpen(out, s, Contact);
      var s1 := s.(path := s.path + [Contact]);
      var o1 := Open(out, Contact);
      LeafIgnored(o1, s1, ElectronicMail, part.email.value);
      RunClose(Leaf(o1, ElectronicMail, part.email.value), s1, s.path, Contact);
    }
  }

  function WithLegalName(s: State, wrapper: Elem, part: Part): State {
    if wrapper == AccountingSupplierParty then
      WithName(s, wrapper, part).(nameFromLegal := s.nameFromLegal || Trim(part.name) != "")
    else s
  }

  lemma LegalNameRead(out: Stream, s: State, wrapper: Elem, part: Part)
    requires Run(out) == Running(s)
    requires FieldAt(s.path + [RegistrationName], s.inLine)
          == if wrapper == AccountingSupplierParty then SellerLegalName else Ignored
    ensures Run(Leaf(out, RegistrationName, part.name)) == Running(WithLegalName(s, wrapper, part))
  {
    hide FieldAt, Trim, Run, ReadLeaf, Leaf;
    if wrapper == AccountingSupplierParty {
      ReadsText(s, RegistrationName, part.name);
      LeafSets(out, s, RegistrationName, part.name, WithLegalName(s, wrapper, part));
    } else {
      LeafIgnored(out, s, RegistrationName, part.name);
    }
  }

  lemma LegalEntityRead(out: Stream, s: State, root: Elem, wrapper: Elem, part: Part)
    requires Run(out) == Running(s) && !s.inLine && s.path == [root, wrapper, Party] + [PartyLegalEntity]
    requires wrapper == AccountingSupplierParty || wrapper == AccountingCustomerParty
    requires root != AccountingSupplierParty && root != AccountingCustomerParty
    ensures Run(Leaf(Leaf(out, RegistrationName, part.name), CompanyID, part.orgnumber))
         == Running(WithOrgnumber(WithLegalName(s, wrapper, part), wrapper, part))
  {
    hide FieldAt, OrgnumberOf, Trim, Run, ReadLeaf, Leaf, Kept, Or, EndsWith, WithOrgnumber;
    LegalNameField(s.path, wrapper, root);
    LegalNameRead(out, s, wrapper, part);
    LegalNameStaysPut(s, wrapper, part);
    LegalNumberField(s.path, wrapper, root);
    hide WithLegalName;
    OrgnumberRead(Leaf(out, RegistrationName, part.name), WithLegalName(s, wrapper, part), wrapper, CompanyID, part);
  }

  lemma LegalNumberField(path: seq<Elem>, wrapper: Elem, root: Elem)
    requires path == [root, wrapper, Party] + [PartyLegalEntity]
    requires wrapper == AccountingSupplierParty || wrapper == AccountingCustomerParty
    requires root != AccountingSupplierParty && root != AccountingCustomerParty
    ensures FieldAt(path + [CompanyID], false)
         == if wrapper == AccountingSupplierParty then SellerOrgnumber else BuyerOrgnumber
  {
    hide FieldAt;
    OrgnumberLeaf([root, wrapper, Party], PartyLegalEntity, CompanyID, false);
  }

  lemma LegalNameStaysPut(s: State, wrapper: Elem, part: Part)
    ensures var t := WithLegalName(s, wrapper, part); t.path == s.path && t.inLine == s.inLine
  {
    hide Kept;
  }

  lemma PartyLegalRead(out: Stream, s: State, root: Elem, wrapper: Elem, part: Part)
    requires Run(out) == Running(s) && InParty(s, root, wrapper)
    ensures Run(PartyLegal(out, part)) == Running(WithOrgnumber(WithLegalName(s, wrapper, part), wrapper, part))
  {
    hide OrgnumberOf, Trim, Run, Leaf, Open, Close, Kept, Or;
    RunOpen(out, s, PartyLegalEntity);
    var o1, s1 := Open(out, PartyLegalEntity), s.(path := s.path + [PartyLegalEntity]);
    LegalEntityRead(o1, s1, root, wrapper, part);
    var o2 := Leaf(Leaf(o1, RegistrationName, part.name), CompanyID, part.orgnumber);
    RunClose(o2, WithOrgnumber(WithLegalName(s1, wrapper, part), wrapper, part), s.path, PartyLegalEntity);
  }

  lemma LegalNameField(path: seq<Elem>, wrapper: Elem, root: Elem)
    requires path == [root, wrapper, Party, PartyLegalEntity] && root != AccountingSupplierParty
    ensures FieldAt(path + [RegistrationName], false)
         == if wrapper == AccountingSupplierParty then SellerLegalName else Ignored
  {
    assert (path + [RegistrationName])[1] == wrapper;
  }

  /** A whole party, read into an invoice that knows no name or number of it yet. */
  lemma PartyRead(out: Stream, s: State, root: Elem, wrapper: Elem, part: Part)
    requires Run(out) == Running(s) && s.path == [root] && !s.inLine
    requires wrapper == AccountingSupplierParty || wrapper == AccountingCustomerParty
    requires root != AccountingSupplierParty && root != AccountingCustomerParty
    requires wrapper == AccountingSupplierParty ==> !s.nameFromLegal && s.invoice.sellerOrgnumber == None
    requires wrapper == AccountingCustomerParty ==> s.invoice.buyerOrgnumber == None
    ensures Run(PartyStream(out, wrapper, part)) == Running(AfterParty(s, wrapper, part))
  {
    hide Run, Leaf, Open, Close, PartyIds, PartyAddress, PartyVat, PartyLegal, PartyContact, AfterParty;
    RunOpen(out, s, wrapper);
    var s1 := s.(path := [root, wrapper]);
    assert s.path + [wrapper] == s1.path;
    var o1 := Open(out, wrapper);
    RunOpen(o1, s1, Party);
    var s2 := s.(path := [root, wrapper, Party]);
    assert s1.path + [Party] == s2.path;
    var o2 := Open(o1, Party);
    PartyBodyRead(o2, s2, root, wrapper, part);
    var o3 := PartyContact(PartyLegal(PartyVat(PartyAddress(PartyIds(o2, part), part), part), part), part);
    AfterPartyElsewhere(s, s2.path, wrapper, part);
    AfterPartyElsewhere(s, s1.path, wrapper, part);
    RunClose(o3, AfterParty(s2, wrapper, part), s1.path, Party);
    RunClose(Close(o3, Party), AfterParty(s1, wrapper, part), s.path, wrapper);
  }

  /** What a party adds does not depend on where the reader stands. */
  lemma AfterPartyElsewhere(s: State, path: seq<Elem>, wrapper: Elem, part: Part)
    ensures AfterParty(s.(path := path), wrapper, part) == AfterParty(s, wrapper, part).(path := path)
    ensures AfterParty(s, wrapper, part).path == s.path
  {
    hide Trim, OrgnumberOf, Kept;
  }

  function AfterParty(s: State, wrapper: Elem, part: Part): State {
    if wrapper == AccountingSupplierParty then
      s.(invoice := s.invoice.(sellerName := Kept(part.name, s.invoice.sellerName),
                               sellerOrgnumber := OrgnumberOf(Trim(part.orgnumber))),
         nameFromLegal := Trim(part.name) != "")
    else
      s.(invoice := s.invoice.(buyerOrgnumber := OrgnumberOf(Trim(part.orgnumber))))
  }

  lemma PartyBodyRead(out: Stream, s: State, root: Elem, wrapper: Elem, part: Part)
    requires Run(out) == Running(s) && InParty(s, root, wrapper)
    requires wrapper == AccountingSupplierParty ==> !s.nameFromLegal && s.invoice.sellerOrgnumber == None
    requires wrapper == AccountingCustomerParty ==> s.invoice.buyerOrgnumber == None
    ensures
      var out' := PartyContact(PartyLegal(PartyVat(PartyAddress(PartyIds(out, part), part), part), part), part);
      Run(out') == Running(AfterParty(s, wrapper, part))
  {
    hide Run, PartyIds, PartyAddress, PartyVat, PartyLegal, PartyContact, Trim, OrgnumberOf;
    PartyIdsRead(out, s, root, wrapper, part);
    var s1 := WithName(WithOrgnumber(s, wrapper, part), wrapper, part);
    var o1 := PartyIds(out, part);
    PartyAddressRead(o1, s1, part);
    var o2 := PartyAddress(o1, part);
    PartyVatRead(o2, s1, part);
    var o3 := PartyVat(o2, part);
    PartyLegalRead(o3, s1, root, wrapper, part);
    var s2 := WithOrgnumber(WithLegalName(s1, wrapper, part), wrapper, part);
    PartyContactRead(PartyLegal(o3, part), s2, part);
  }

  // ---------- Header, delivery, payment ----------

  lemma TopFields(root: Elem)
    ensures FieldAt([root] + [ID], false) == InvoiceNumber
    ensures FieldAt([root] + [IssueDate], false) == EhfImport.Field.InvoiceDate
    ensures FieldAt([root] + [DueDate], false) == InvoiceDueDate
    ensures FieldAt([root] + [DocumentCurrencyCode], false) == Currency
  {
  }

  lemma IgnoredTopFields(root: Elem)
    ensures FieldAt([root] + [CustomizationID], false) == Ignored
    ensures FieldAt([root] + [ProfileID], false) == Ignored
    ensures FieldAt([root] + [InvoiceTypeCode], false) == Ignored
    ensures FieldAt([root] + [CreditNoteTypeCode], false) == Ignored
    ensures FieldAt([root] + [BuyerReference], false) == Ignored
  {
  }

  lemma InvoiceNumberRead(out: Stream, s: State, root: Elem, text: string)
    requires Run(out) == Running(s) && s.path == [root] && !s.inLine
    ensures Run(Leaf(out, ID, text))
         == Running(s.(invoice := s.invoice.(invoiceNumber := Kept(text, s.invoice.invoiceNumber))))
  {
    hide FieldAt, Trim, Run, ReadLeaf, Leaf;
    TopFields(root);
    ReadsText(s, ID, text);
    LeafSets(out, s, ID, text, s.(invoice := s.invoice.(invoiceNumber := Kept(text, s.invoice.invoiceNumber))));
  }

  lemma CurrencyRead(out: Stream, s: State, root: Elem, text: string)
    requires Run(out) == Running(s) && s.path == [root] && !s.inLine
    ensures Run(Leaf(out, DocumentCurrencyCode, text))
         == Running(s.(invoice := s.invoice.(currency := Kept(text, s.invoice.currency))))
  {
    hide FieldAt, Trim, Run, ReadLeaf, Leaf;
    TopFields(root);
    ReadsText(s, DocumentCurrencyCode, text);
    LeafSets(out, s, DocumentCurrencyCode, text,
             s.(invoice := s.invoice.(currency := Kept(text, s.invoice.currency))));
  }

  lemma DatesRead(out: Stream, s: State, root: Elem, date: Date, due: Option<Date>)
    requires Run(out) == Running(s) && s.path == [root] && !s.inLine && s.invoice.dueDate == None
    ensures Run(OptLeaf(Leaf(out, IssueDate, IsoString(date)), DueDate, OptDate(due)))
         == Running(s.(invoice := s.invoice.(invoiceDate := Some(date), dueDate := due)))
  {
    hide FieldAt, Run, ReadLeaf, Leaf, IsoString;
    TopFields(root);
    ReadsDate(s, IssueDate, date);
    var s1 := s.(invoice := s.invoice.(invoiceDate := Some(date)));
    LeafSets(out, s, IssueDate, IsoString(date), s1);
    if due.Some? {
      ReadsDate(s1, DueDate, due.value);
      LeafSets(Leaf(out, IssueDate, IsoString(date)), s1, DueDate, IsoString(due.value),
               s1.(invoice := s1.invoice.(dueDate := due)));
    }
  }

  lemma BillingReferenceRead(out: Stream, s: State, doc: Document)
    requires Run(out) == Running(s) && |s.path| == 1
    ensures Run(BillingReferenceStream(out, doc)) == Running(s)
  {
    hide Run, Leaf, Open, Close, FieldAt;
    if doc.krediterer.Some? {
      RunOpen(out, s, BillingReference);
      var o1, s1 := Open(out, BillingReference), s.(path := s.path + [BillingReference]);
      RunOpen(o1, s1, InvoiceDocumentReference);
      var o2, s2 := Open(o1, InvoiceDocumentReference), s1.(path := s1.path + [InvoiceDocumentReference]);
      IdField(s1.path, InvoiceDocumentReference, s.inLine);
      LeafIgnored(o2, s2, ID, doc.krediterer.value);
      var o3 := Leaf(o2, ID, doc.krediterer.value);
      RunClose(o3, s2, s1.path, InvoiceDocumentReference);
      RunClose(Close(o3, InvoiceDocumentReference), s1, s.path, BillingReference);
    }
  }

  function DueDateOf(doc: Document): Option<Date> {
    if doc.documentType.InvoiceDocument? then doc.dueDate else None
  }

  function AfterHeader(s: State, doc: Document): State {
    s.(invoice := s.invoice.(
         invoiceNumber := Kept(doc.invoiceNumber, s.invoice.invoiceNumber),
         invoiceDate := Some(doc.invoiceDate),
         dueDate := DueDateOf(doc),
         currency := Kept(doc.currency, s.invoice.currency)))
  }

  lemma HeaderRead(out: Stream, s: State, root: Elem, doc: Document)
    requires Run(out) == Running(s) && s.path == [root] && !s.inLine && s.invoice.dueDate == None
    ensures Run(HeaderStream(out, doc)) == Running(AfterHeader(s, doc))
  {
    hide Run, Leaf, OptLeaf, FieldAt, IsoString, BillingReferenceStream, Kept, CUSTOMIZATION_ID, PROFILE_ID;
    IgnoredTopFields(root);
    LeafIgnored(out, s, CustomizationID, CUSTOMIZATION_ID);
    var o1 := Leaf(out, CustomizationID, CUSTOMIZATION_ID);
    LeafIgnored(o1, s, ProfileID, PROFILE_ID);
    var o2 := Leaf(o1, ProfileID, PROFILE_ID);
    InvoiceNumberRead(o2, s, root, doc.invoiceNumber);
    var s1 := s.(invoice := s.invoice.(invoiceNumber := Kept(doc.invoiceNumber, s.invoice.invoiceNumber)));
    var o3 := Leaf(o2, ID, doc.invoiceNumber);
    DatesRead(o3, s1, root, doc.invoiceDate, DueDateOf(doc));
    var s2 := s1.(invoice := s1.invoice.(invoiceDate := Some(doc.invoiceDate), dueDate := DueDateOf(doc)));
    var o4 := OptLeaf(Leaf(o3, IssueDate, IsoString(doc.invoiceDate)), DueDate, OptDate(DueDateOf(doc)));
    var o5 := if doc.documentType.InvoiceDocument? then Leaf(o4, InvoiceTypeCode, "380")
              else Leaf(o4, CreditNoteTypeCode, "381");
    if doc.documentType.InvoiceDocument? {
      LeafIgnored(o4, s2, InvoiceTypeCode, "380");
    } else {
      LeafIgnored(o4, s2, CreditNoteTypeCode, "381");
    }
    CurrencyRead(o5, s2, root, doc.currency);
    var s3 := s2.(invoice := s2.invoice.(currency := Kept(doc.currency, s2.invoice.currency)));
    var o6 := Leaf(o5, DocumentCurrencyCode, doc.currency);
    OptLeafIgnored(o6, s3, BuyerReference, doc.buyerReference);
    BillingReferenceRead(OptLeaf(o6, BuyerReference, doc.buyerReference), s3, doc);
    assert (if doc.documentType.InvoiceDocument? then OptDate(doc.dueDate) else None) == OptDate(DueDateOf(doc));
  }

  lemma DeliveryPlaceRead(out: Stream, s: State, place: Option<string>)
    requires Run(out) == Running(s)
    ensures Run(DeliveryPlaceStream(out, place)) == Running(s)
  {
    hide Run, Leaf, Open, Close;
    if place.Some? {
      RunOpen(out, s, DeliveryLocation);
      var o1, s1 := Open(out, DeliveryLocation), s.(path := s.path + [DeliveryLocation]);
      RunOpen(o1, s1, Address);
      var o2, s2 := Open(o1, Address), s1.(path := s1.path + [Address]);
      LeafIgnored(o2, s2, StreetName, place.value);
      var o3 := Leaf(o2, StreetName, place.value);
      RunClose(o3, s2, s1.path, Address);
      RunClose(Close(o3, Address), s1, s.path, DeliveryLocation);
    }
  }

  lemma DeliveryRead(out: Stream, s: State, doc: Document)
    requires Run(out) == Running(s)
    ensures Run(DeliveryStream(out, doc)) == Running(s)
  {
    hide Run, OptLeaf, Open, Close, DeliveryPlaceStream;
    if !(doc.deliveryDate == None && doc.deliveryPlace == None) {
      RunOpen(out, s, Delivery);
      var o1, s1 := Open(out, Delivery), s.(path := s.path + [Delivery]);
      OptLeafIgnored(o1, s1, ActualDeliveryDate, OptDate(doc.deliveryDate));
      var o2 := OptLeaf(o1, ActualDeliveryDate, OptDate(doc.deliveryDate));
      DeliveryPlaceRead(o2, s1, doc.deliveryPlace);
      RunClose(DeliveryPlaceStream(o2, doc.deliveryPlace), s1, s.path, Delivery);
    }
  }

  lemma KidRead(out: Stream, s: State, kid: Option<string>)
    requires Run(out) == Running(s) && s.invoice.kid == None
    ensures Run(OptLeaf(out, PaymentID, kid)) == Running(s.(invoice := s.invoice.(kid := KeptOption(kid))))
  {
    hide Trim, Run, ReadLeaf, Leaf;
    if kid.Some? {
      assert FieldAt(s.path + [PaymentID], s.inLine) == Kid;
      ReadsText(s, PaymentID, kid.value);
      LeafSets(out, s, PaymentID, kid.value, s.(invoice := s.invoice.(kid := KeptOption(kid))));
    }
  }

  lemma AccountRead(out: Stream, s: State, account: string)
    requires Run(out) == Running(s) && s.invoice.accountNumber == None
    requires FieldAt(s.path + [ID], s.inLine) == EhfImport.Field.AccountNumber
    ensures Run(Leaf(out, ID, account))
         == Running(s.(invoice := s.invoice.(accountNumber := KeptOption(Some(account)))))
  {
    hide FieldAt, Trim, Run, ReadLeaf, Leaf;
    ReadsText(s, ID, account);
    LeafSets(out, s, ID, account, s.(invoice := s.invoice.(accountNumber := KeptOption(Some(account)))));
  }

  function AfterPayment(s: State, doc: Document): State {
    if AsksForPayment(doc) then
      s.(invoice := s.invoice.(kid := KeptOption(doc.kid), accountNumber := KeptOption(doc.accountNumber)))
    else s
  }

  lemma PayeeAccountRead(out: Stream, s: State, account: string)
    requires Run(out) == Running(s) && |s.path| >= 1 && s.invoice.accountNumber == None
    ensures Run(Close(Leaf(Open(out, PayeeFinancialAccount), ID, account), PayeeFinancialAccount))
         == Running(s.(invoice := s.invoice.(accountNumber := KeptOption(Some(account)))))
  {
    hide Run, Leaf, Open, Close, FieldAt, KeptOption;
    RunOpen(out, s, PayeeFinancialAccount);
    var o1, s1 := Open(out, PayeeFinancialAccount), s.(path := s.path + [PayeeFinancialAccount]);
    IdField(s.path, PayeeFinancialAccount, s.inLine);
    AccountRead(o1, s1, account);
    var s2 := s1.(invoice := s1.invoice.(accountNumber := KeptOption(Some(account))));
    RunClose(Leaf(o1, ID, account), s2, s.path, PayeeFinancialAccount);
  }

  lemma PaymentRead(out: Stream, s: State, root: Elem, doc: Document)
    requires Run(out) == Running(s) && s.path == [root] && s.invoice.kid == None && s.invoice.accountNumber == None
    ensures Run(PaymentStream(out, doc)) == Running(AfterPayment(s, doc))
  {
    hide Run, Leaf, OptLeaf, Open, Close, FieldAt, KeptOption;
    if AsksForPayment(doc) {
      RunOpen(out, s, PaymentMeans);
      var o1, s1 := Open(out, PaymentMeans), s.(path := s.path + [PaymentMeans]);
      PaymentCodeField(s1.path);
      LeafIgnored(o1, s1, PaymentMeansCode, "30");
      var o2 := Leaf(o1, PaymentMeansCode, "30");
      KidRead(o2, s1, doc.kid);
      var o3, s2 := OptLeaf(o2, PaymentID, doc.kid), s1.(invoice := s1.invoice.(kid := KeptOption(doc.kid)));
      var account := doc.accountNumber.value;
      PayeeAccountRead(o3, s2, account);
      var s3 := s2.(invoice := s2.invoice.(accountNumber := KeptOption(doc.accountNumber)));
      RunClose(Close(Leaf(Open(o3, PayeeFinancialAccount), ID, account), PayeeFinancialAccount), s3, s.path,
               PaymentMeans);
    }
  }

  lemma PaymentCodeField(path: seq<Elem>)
    ensures forall inLine :: FieldAt(path + [PaymentMeansCode], inLine) == Ignored
  {
  }

  // ---------- Amounts ----------

  lemma AmountRead(out: Stream, s: State, tag: Elem, ore: int, field: Field)
    requires Run(out) == Running(s) && OpensNothing(tag)
    requires field == FieldAt(s.path + [tag], s.inLine) && WantsAmount(s.invoice, field)
    ensures Run(Leaf(out, tag, TwoDecimals(ore))) == Running(SetAmount(s, field, ore))
  {
    hide FieldAt, Run, ReadLeaf, Leaf, TwoDecimals, SetAmount;
    ReadsAmount(s, tag, ore);
    LeafSets(out, s, tag, TwoDecimals(ore), SetAmount(s, field, ore));
  }

  /** A tax category outside a line says nothing to the importer. */
  lemma CategoryIgnored(out: Stream, s: State, wrapper: Elem, key: (string, int))
    requires Run(out) == Running(s) && !s.inLine && |s.path| >= 1 && wrapper == TaxCategory
    ensures Run(CategoryStream(out, wrapper, key)) == Running(s)
  {
    hide Run, Leaf, Open, Close, FieldAt, TwoDecimals, VatScheme;
    RunOpen(out, s, wrapper);
    var o1, s1 := Open(out, wrapper), s.(path := s.path + [wrapper]);
    IdField(s.path, wrapper, false);
    LeafIgnored(o1, s1, ID, key.0);
    var o2 := Leaf(o1, ID, key.0);
    PercentField(s1.path);
    LeafIgnored(o2, s1, Percent, TwoDecimals(key.1));
    var o3 := Leaf(o2, Percent, TwoDecimals(key.1));
    VatSchemeRead(o3, s1);
    RunClose(VatScheme(o3), s1, s.path, wrapper);
  }

  lemma PercentField(path: seq<Elem>)
    ensures FieldAt(path + [Percent], false) == Ignored && FieldAt(path + [Percent], true) == LinePercent
  {
  }

  lemma SubtotalIgnored(out: Stream, s: State, lines: seq<Line>, key: (string, int))
    requires Run(out) == Running(s) && !s.inLine && |s.path| >= 1
    ensures Run(SubtotalStream(out, lines, key)) == Running(s)
  {
    hide Run, Leaf, Open, Close, FieldAt, TwoDecimals, CategoryStream, NetOf, VatOf, InGroup;
    var net, vat := TwoDecimals(NetOf(InGroup(lines, key))), TwoDecimals(VatOf(InGroup(lines, key)));
    RunOpen(out, s, TaxSubtotal);
    var o1, s1 := Open(out, TaxSubtotal), s.(path := s.path + [TaxSubtotal]);
    TaxableField(s1.path);
    LeafIgnored(o1, s1, TaxableAmount, net);
    var o2 := Leaf(o1, TaxableAmount, net);
    TaxAmountField(s.path, TaxSubtotal, false);
    LeafIgnored(o2, s1, TaxAmount, vat);
    var o3 := Leaf(o2, TaxAmount, vat);
    CategoryIgnored(o3, s1, TaxCategory, key);
    RunClose(CategoryStream(o3, TaxCategory, key), s1, s.path, TaxSubtotal);
  }

  lemma TaxableField(path: seq<Elem>)
    ensures FieldAt(path + [TaxableAmount], false) == Ignored
  {
  }

  lemma {:induction false} SubtotalsIgnored(out: Stream, s: State, lines: seq<Line>, keys: seq<(string, int)>)
    requires Run(out) == Running(s) && !s.inLine && |s.path| >= 1
    ensures Run(SubtotalsStream(out, lines, keys)) == Running(s)
  {
    hide Run, SubtotalStream;
    if keys != [] {
      var front := keys[..|keys| - 1];
      SubtotalsIgnored(out, s, lines, front);
      SubtotalIgnored(SubtotalsStream(out, lines, front), s, lines, keys[|keys| - 1]);
    }
  }

  lemma TaxTotalRead(out: Stream, s: State, lines: seq<Line>)
    requires Run(out) == Running(s) && !s.inLine && |s.path| == 1
    ensures Run(TaxTotalStream(out, lines)) == Running(s.(invoice := s.invoice.(vatOre := VatOf(lines))))
  {
    hide Run, Leaf, Open, Close, FieldAt, TwoDecimals, SubtotalsStream, VatOf, GroupKeys;
    RunOpen(out, s, TaxTotal);
    var o1, s1 := Open(out, TaxTotal), s.(path := s.path + [TaxTotal]);
    TaxAmountField(s.path, TaxTotal, false);
    AmountRead(o1, s1, TaxAmount, VatOf(lines), VatAmount);
    var o2, s2 := Leaf(o1, TaxAmount, TwoDecimals(VatOf(lines))), SetAmount(s1, VatAmount, VatOf(lines));
    SubtotalsIgnored(o2, s2, lines, GroupKeys(lines));
    RunClose(SubtotalsStream(o2, lines, GroupKeys(lines)), s2, s.path, TaxTotal);
  }

  lemma TotalFields(path: seq<Elem>)
    ensures FieldAt(path + [LineExtensionAmount], false) == NetIfUnset
    ensures FieldAt(path + [TaxExclusiveAmount], false) == NetAmount
    ensures FieldAt(path + [TaxInclusiveAmount], false) == GrossIfUnset
    ensures FieldAt(path + [PayableAmount], false) == GrossAmount
  {
    hide EndsWith, OrgnumberField;
  }

  lemma NetTotalsRead(out: Stream, s: State, net: int)
    requires Run(out) == Running(s) && !s.inLine && s.invoice.netOre == 0
    ensures Run(Leaf(Leaf(out, LineExtensionAmount, TwoDecimals(net)), TaxExclusiveAmount, TwoDecimals(net)))
         == Running(s.(invoice := s.invoice.(netOre := net)))
  {
    hide Run, Leaf, FieldAt, TwoDecimals;
    TotalFields(s.path);
    AmountRead(out, s, LineExtensionAmount, net, NetIfUnset);
    var o1, s1 := Leaf(out, LineExtensionAmount, TwoDecimals(net)), SetAmount(s, NetIfUnset, net);
    AmountRead(o1, s1, TaxExclusiveAmount, net, NetAmount);
  }

  lemma GrossTotalsRead(out: Stream, s: State, gross: int)
    requires Run(out) == Running(s) && !s.inLine && s.invoice.grossOre == 0
    ensures Run(Leaf(Leaf(out, TaxInclusiveAmount, TwoDecimals(gross)), PayableAmount, TwoDecimals(gross)))
         == Running(s.(invoice := s.invoice.(grossOre := gross)))
  {
    hide Run, Leaf, FieldAt, TwoDecimals;
    TotalFields(s.path);
    AmountRead(out, s, TaxInclusiveAmount, gross, GrossIfUnset);
    var o1, s1 := Leaf(out, TaxInclusiveAmount, TwoDecimals(gross)), SetAmount(s, GrossIfUnset, gross);
    AmountRead(o1, s1, PayableAmount, gross, GrossAmount);
  }

  lemma TotalsRead(out: Stream, s: State, net: int, vat: int)
    requires Run(out) == Running(s) && !s.inLine && s.invoice.netOre == 0 && s.invoice.grossOre == 0
    ensures Run(TotalsStream(out, net, vat))
         == Running(s.(invoice := s.invoice.(netOre := net, grossOre := net + vat)))
  {
    hide Run, Leaf, Open, Close, FieldAt, TwoDecimals;
    RunOpen(out, s, LegalMonetaryTotal);
    var o1, s1 := Open(out, LegalMonetaryTotal), s.(path := s.path + [LegalMonetaryTotal]);
    NetTotalsRead(o1, s1, net);
    var o2 := Leaf(Leaf(o1, LineExtensionAmount, TwoDecimals(net)), TaxExclusiveAmount, TwoDecimals(net));
    var s2 := s1.(invoice := s1.invoice.(netOre := net));
    GrossTotalsRead(o2, s2, net + vat);
    var o3 := Leaf(Leaf(o2, TaxInclusiveAmount, TwoDecimals(net + vat)), PayableAmount, TwoDecimals(net + vat));
    var s3 := s2.(invoice := s2.invoice.(grossOre := net + vat));
    RunClose(o3, s3, s.path, LegalMonetaryTotal);
  }

  // ---------- Lines ----------

  predicate IsRoot(root: Elem) {
    root == Invoice || root == CreditNote
  }

  /** The item of an open line: its name and its rate. */
  lemma ItemRead(out: Stream, s: State, root: Elem, tag: Elem, line: Line)
    requires Run(out) == Running(s) && s.inLine && s.path == [root, tag] && IsRoot(root) && IsLineTag(tag)
    requires s.line.description == ""
    ensures Run(ItemStream(out, line))
         == Running(s.(line := s.line.(description := Trim(line.description), vatRateBp := ReceivedRate(line))))
  {
    hide Run, Leaf, Open, Close, FieldAt, CategoryStream, Trim, ReadLeaf;
    RunOpen(out, s, Item);
    var o1, s1 := Open(out, Item), s.(path := s.path + [Item]);
    NameField(s.path, Item, true);
    ReadsText(s1, Name, line.description);
    var s2 := s1.(line := s1.line.(description := Trim(line.description)));
    LeafSets(o1, s1, Name, line.description, s2);
    var o2 := Leaf(o1, Name, line.description);
    LineCategoryRead(o2, s2, root, tag, TaxCategoryOf(line));
    var s3 := s2.(line := s2.line.(vatRateBp := ReceivedRate(line)));
    RunClose(CategoryStream(o2, ClassifiedTaxCategory, TaxCategoryOf(line)), s3, s.path, Item);
  }

  lemma LineCategoryRead(out: Stream, s: State, root: Elem, tag: Elem, key: (string, int))
    requires Run(out) == Running(s) && s.inLine && s.path == [root, tag] + [Item] && IsRoot(root) && IsLineTag(tag)
    requires key.1 >= 0
    ensures Run(CategoryStream(out, ClassifiedTaxCategory, key))
      == Running(s.(line := s.line.(vatRateBp := Some(key.1))))
  {
    hide Run, Leaf, Open, Close, FieldAt, TwoDecimals, VatScheme, ReadLeaf;
    RunOpen(out, s, ClassifiedTaxCategory);
    var o1, s1 := Open(out, ClassifiedTaxCategory), s.(path := s.path + [ClassifiedTaxCategory]);
    IdField(s.path, ClassifiedTaxCategory, true);
    LeafIgnored(o1, s1, ID, key.0);
    var o2 := Leaf(o1, ID, key.0);
    PercentField(s1.path);
    ReadsPercent(s1, Percent, key.1);
    var s2 := s1.(line := s1.line.(vatRateBp := Some(key.1)));
    LeafSets(o2, s1, Percent, TwoDecimals(key.1), s2);
    var o3 := Leaf(o2, Percent, TwoDecimals(key.1));
    VatSchemeRead(o3, s2);
    RunClose(VatScheme(o3), s2, s.path, ClassifiedTaxCategory);
  }

  lemma LineFields(root: Elem, tag: Elem)
    requires IsRoot(root) && IsLineTag(tag)
    ensures FieldAt([root, tag] + [ID], true) == Ignored
    ensures FieldAt([root, tag] + [InvoicedQuantity], true) == Ignored
    ensures FieldAt([root, tag] + [CreditedQuantity], true) == Ignored
    ensures FieldAt([root, tag] + [LineExtensionAmount], true) == LineNet
    ensures FieldAt([root, tag] + [Price] + [PriceAmount], true) == Ignored
  {
    hide EndsWith, OrgnumberField;
    IdField([root], tag, true);
    assert [root] + [tag] == [root, tag];
  }

  lemma RunOpenLine(out: Stream, s: State, tag: Elem)
    requires Run(out) == Running(s) && s.rootSeen && IsLineTag(tag)
    ensures Run(Open(out, tag)) == Running(s.(path := s.path + [tag], inLine := true, line := FRESH_LINE))
  {
    RunOne(out, Start(tag));
  }

  lemma RunCloseLine(out: Stream, s: State, path: seq<Elem>, tag: Elem)
    requires Run(out) == Running(s) && IsLineTag(tag) && s.path == path + [tag]
    ensures Run(Close(out, tag)) == Running(s.(path := path, inLine := false, line := s.line.(description := ""),
                                               invoice := s.invoice.(lines := s.invoice.lines + [s.line])))
  {
    RunOne(out, End(tag));
  }

  /** The line as it stands just before its end tag. */
  lemma LineBodyRead(out: Stream, s: State, root: Elem, doc: Document, number: nat, line: Line)
    requires Run(out) == Running(s) && s.inLine && s.path == [root, LineTag(doc)] && IsRoot(root)
    requires s.line == FRESH_LINE
    ensures
      var o1 := Leaf(out, ID, ToString(number));
      var o2 := Leaf(o1, QuantityTag(doc), Quantity(line.quantityMilli));
      var o3 := Leaf(o2, LineExtensionAmount, TwoDecimals(line.netOre));
      Run(ItemStream(o3, line)) == Running(s.(line := ExpectedLine(line)))
  {
    hide Run, Leaf, FieldAt, TwoDecimals, Quantity, ToString, ItemStream, Trim;
    LineFields(root, LineTag(doc));
    LeafIgnored(out, s, ID, ToString(number));
    var o1 := Leaf(out, ID, ToString(number));
    LeafIgnored(o1, s, QuantityTag(doc), Quantity(line.quantityMilli));
    var o2 := Leaf(o1, QuantityTag(doc), Quantity(line.quantityMilli));
    AmountRead(o2, s, LineExtensionAmount, line.netOre, LineNet);
    var o3, s3 := Leaf(o2, LineExtensionAmount, TwoDecimals(line.netOre)), SetAmount(s, LineNet, line.netOre);
    ItemRead(o3, s3, root, LineTag(doc), line);
  }

  lemma PriceRead(out: Stream, s: State, root: Elem, tag: Elem, price: string)
    requires Run(out) == Running(s) && s.inLine && s.path == [root, tag] && IsRoot(root) && IsLineTag(tag)
    ensures Run(Close(Leaf(Open(out, Price), PriceAmount, price), Price)) == Running(s)
  {
    hide Run, Leaf, Open, Close, FieldAt;
    RunOpen(out, s, Price);
    var o1, s1 := Open(out, Price), s.(path := s.path + [Price]);
    LineFields(root, tag);
    LeafIgnored(o1, s1, PriceAmount, price);
    RunClose(Leaf(o1, PriceAmount, price), s1, s.path, Price);
  }

  predicate BetweenLines(s: State, root: Elem) {
    s.path == [root] && IsRoot(root) && s.rootSeen && !s.inLine
  }

  lemma LineRead(out: Stream, s: State, root: Elem, doc: Document, number: nat, line: Line)
    requires Run(out) == Running(s) && BetweenLines(s, root)
    ensures
      var m := Run(LineStream(out, doc, number, line));
      && m.Running? && BetweenLines(m.state, root)
      && m.state.invoice == s.invoice.(lines := s.invoice.lines + [ExpectedLine(line)])
  {
    hide Run, Leaf, Open, Close, FieldAt, TwoDecimals, Quantity, ToString, ItemStream, ExpectedLine;
    var tag := LineTag(doc);
    RunOpenLine(out, s, tag);
    var o1, s1 := Open(out, tag), s.(path := [root, tag], inLine := true, line := FRESH_LINE);
    assert s.path + [tag] == s1.path;
    LineBodyRead(o1, s1, root, doc, number, line);
    var o2 := Leaf(Leaf(o1, ID, ToString(number)), QuantityTag(doc), Quantity(line.quantityMilli));
    var o3 := ItemStream(Leaf(o2, LineExtensionAmount, TwoDecimals(line.netOre)), line);
    var s3 := s1.(line := ExpectedLine(line));
    PriceRead(o3, s3, root, tag, TwoDecimals(line.unitPriceOre));
    var o4 := Close(Leaf(Open(o3, Price), PriceAmount, TwoDecimals(line.unitPriceOre)), Price);
    RunCloseLine(o4, s3, s.path, tag);
  }

  lemma {:induction false} LinesRead(out: Stream, s: State, root: Elem, doc: Document, n: nat)
    requires Run(out) == Running(s) && BetweenLines(s, root) && n <= |doc.lines|
    ensures
      var m := Run(LinesStream(out, doc, n));
      && m.Running? && BetweenLines(m.state, root)
      && m.state.invoice == s.invoice.(lines := s.invoice.lines + ExpectedLines(doc.lines[..n]))
  {
    hide Run, LineStream, ExpectedLine;
    if n == 0 {
      assert s.invoice.lines + ExpectedLines(doc.lines[..0]) == s.invoice.lines;
    } else {
      LinesRead(out, s, root, doc, n - 1);
      var m := Run(LinesStream(out, doc, n - 1));
      LineRead(LinesStream(out, doc, n - 1), m.state, root, doc, n, doc.lines[n - 1]);
      assert s.invoice.lines + ExpectedLines(doc.lines[..n - 1]) + [ExpectedLine(doc.lines[n - 1])]
          == s.invoice.lines + ExpectedLines(doc.lines[..n]);
    }
  }

  // ---------- The document ----------

  lemma RootRead(doc: Document)
    ensures
      var m := Run(Open([], Root(doc)));
      m == Running(INITIAL.(path := [Root(doc)], rootSeen := true,
                            invoice := EMPTY_INVOICE.(isCreditNote := doc.documentType.CreditNoteDocument?)))
  {
    RunOne([], Start(Root(doc)));
  }

  /** The state once the root, the header and both parties have been read. */
  function AfterParties(doc: Document): State {
    var s0 := INITIAL.(path := [Root(doc)], rootSeen := true,
                       invoice := EMPTY_INVOICE.(isCreditNote := doc.documentType.CreditNoteDocument?));
    AfterParty(AfterParty(AfterHeader(s0, doc), AccountingSupplierParty, doc.seller), AccountingCustomerParty,
               doc.buyer)
  }

  lemma PartiesRead(doc: Document)
    ensures
      var o1 := HeaderStream(Open([], Root(doc)), doc);
      var o2 := PartyStream(o1, AccountingSupplierParty, doc.seller);
      Run(PartyStream(o2, AccountingCustomerParty, doc.buyer)) == Running(AfterParties(doc))
  {
    hide Run, HeaderStream, PartyStream, Trim, OrgnumberOf, KeptOption;
    var root := Root(doc);
    RootRead(doc);
    var s0 := INITIAL.(path := [root], rootSeen := true,
                       invoice := EMPTY_INVOICE.(isCreditNote := doc.documentType.CreditNoteDocument?));
    HeaderRead(Open([], root), s0, root, doc);
    var o1, s1 := HeaderStream(Open([], root), doc), AfterHeader(s0, doc);
    PartyRead(o1, s1, root, AccountingSupplierParty, doc.seller);
    var o2, s2 := PartyStream(o1, AccountingSupplierParty, doc.seller),
      AfterParty(s1, AccountingSupplierParty, doc.seller);
    PartyRead(o2, s2, root, AccountingCustomerParty, doc.buyer);
  }

  lemma AfterPartiesFields(doc: Document)
    ensures
      var s := AfterParties(doc);
      && s.path == [Root(doc)] && s.rootSeen && !s.inLine && s.line.description == ""
      && s.invoice == Expected(doc).(kid := None, accountNumber := None, netOre := 0, vatOre := 0, grossOre := 0,
                                     lines := [])
  {
    hide Trim, OrgnumberOf, KeptOption, NetOf, VatOf, ExpectedLines, Root, AsksForPayment;
    assert Kept(doc.seller.name, "") == Trim(doc.seller.name) && Kept(doc.invoiceNumber, "") == Trim(doc.invoiceNumber);
    hide Kept;
  }

  /** The state after everything up to the lines. */
  lemma FrontRead(doc: Document)
    ensures
      var o1 := HeaderStream(Open([], Root(doc)), doc);
      var o2 := PartyStream(o1, AccountingSupplierParty, doc.seller);
      var o3 := PartyStream(o2, AccountingCustomerParty, doc.buyer);
      var o4 := PaymentStream(DeliveryStream(o3, doc), doc);
      var o5 := TotalsStream(TaxTotalStream(o4, doc.lines), NetOf(doc.lines), VatOf(doc.lines));
      && Run(o5).Running? && BetweenLines(Run(o5).state, Root(doc))
      && Run(o5).state.invoice == Expected(doc).(lines := [])
  {
    hide Run, HeaderStream, PartyStream, DeliveryStream, PaymentStream, TaxTotalStream, TotalsStream, NetOf, VatOf,
         Trim, OrgnumberOf, KeptOption;
    var root := Root(doc);
    var o3 := PartyStream(PartyStream(HeaderStream(Open([], root), doc), AccountingSupplierParty, doc.seller),
                          AccountingCustomerParty, doc.buyer);
    var s3 := AfterParties(doc);
    PartiesRead(doc);
    AfterPartiesFields(doc);
    hide AfterParties;
    DeliveryRead(o3, s3, doc);
    PaymentRead(DeliveryStream(o3, doc), s3, root, doc);
    var o4, s4 := PaymentStream(DeliveryStream(o3, doc), doc), AfterPayment(s3, doc);
    TaxTotalRead(o4, s4, doc.lines);
    var o5, s5 := TaxTotalStream(o4, doc.lines), s4.(invoice := s4.invoice.(vatOre := VatOf(doc.lines)));
    TotalsRead(o5, s5, NetOf(doc.lines), VatOf(doc.lines));
  }

  lemma {:induction false} ReceivedNets(lines: seq<Line>)
    ensures SumBy((l: ReceivedLine) => l.netOre, ExpectedLines(lines)) == NetOf(lines)
  {
    if lines != [] {
      var n := |lines| - 1;
      ReceivedNets(lines[..n]);
      assert ExpectedLines(lines)[..n] == ExpectedLines(lines[..n]);
    }
  }

  /** What we write, we can read: for every document, whatever its texts, amounts
      and number of lines. */
  lemma RenderedDocumentIsReadBack(doc: Document)
    ensures Finish(Run(DocumentStream(doc))) == Ok(Expected(doc))
    ensures Run(DocumentStream(doc)).state.path == []
  {
    hide Run, HeaderStream, PartyStream, DeliveryStream, PaymentStream, TaxTotalStream, TotalsStream, LinesStream,
         NetOf, VatOf, Trim, OrgnumberOf, KeptOption;
    FrontRead(doc);
    var root := Root(doc);
    var o1 := HeaderStream(Open([], root), doc);
    var o2 := PartyStream(o1, AccountingSupplierParty, doc.seller);
    var o3 := PartyStream(o2, AccountingCustomerParty, doc.buyer);
    var o4 := PaymentStream(DeliveryStream(o3, doc), doc);
    var o5 := TotalsStream(TaxTotalStream(o4, doc.lines), NetOf(doc.lines), VatOf(doc.lines));
    LinesRead(o5, Run(o5).state, root, doc, |doc.lines|);
    assert doc.lines[..|doc.lines|] == doc.lines;
    var o6 := LinesStream(o5, doc, |doc.lines|);
    assert [] + ExpectedLines(doc.lines) == ExpectedLines(doc.lines);
    RunClose(o6, Run(o6).state, [], root);
    ReceivedNets(doc.lines);
  }

  /** A positive rate comes back as itself; a missing, zero or negative one as zero. */
  lemma RatesComeBack(doc: Document, i: nat)
    requires i < |doc.lines|
    ensures
      var read, rate := Finish(Run(DocumentStream(doc))), doc.lines[i].vatRateBp;
      && read.Ok? && |read.value.lines| == |doc.lines|
      && read.value.lines[i].vatRateBp == Some(if rate.Some? && rate.value > 0 then rate.value else 0)
  {
    hide Run, DocumentStream, Trim, NetOf, VatOf;
    RenderedDocumentIsReadBack(doc);
  }

  /** What should come back of a document whose texts need no cleaning: its own
      fields, word for word. */
  function ExactCopy(doc: Document): ReceivedInvoice {
    ReceivedInvoice(
      isCreditNote := doc.documentType.CreditNoteDocument?,
      invoiceNumber := doc.invoiceNumber,
      invoiceDate := Some(doc.invoiceDate),
      dueDate := if doc.documentType.InvoiceDocument? then doc.dueDate else None,
      currency := doc.currency,
      sellerName := doc.seller.name,
      sellerOrgnumber := Some(doc.seller.orgnumber),
      buyerOrgnumber := Some(doc.buyer.orgnumber),
      kid := if AsksForPayment(doc) then doc.kid else None,
      accountNumber := if AsksForPayment(doc) then doc.accountNumber else None,
      netOre := NetOf(doc.lines),
      vatOre := VatOf(doc.lines),
      grossOre := NetOf(doc.lines) + VatOf(doc.lines),
      lines := seq(|doc.lines|, i requires 0 <= i < |doc.lines| =>
        ReceivedLine(doc.lines[i].description, doc.lines[i].netOre, ReceivedRate(doc.lines[i]))))
  }

  predicate IsCanonical(text: string) {
    text != "" && IsTrimmed(text)
  }

  predicate IsOrgnumber(text: string) {
    |text| == 9 && AllDigits(text)
  }

  ghost predicate Canonical(doc: Document) {
    && IsCanonical(doc.invoiceNumber) && IsCanonical(doc.currency) && IsCanonical(doc.seller.name)
    && IsOrgnumber(doc.seller.orgnumber) && IsOrgnumber(doc.buyer.orgnumber)
    && (forall line | line in doc.lines :: IsCanonical(line.description))
    && (doc.kid.Some? ==> IsCanonical(doc.kid.value))
    && (doc.accountNumber.Some? ==> IsCanonical(doc.accountNumber.value))
  }

  /** The canonical case: trimmed, non-empty texts and nine-digit numbers come back
      exactly as they went out. */
  lemma CanonicalDocumentIsReadBackExactly(doc: Document)
    requires Canonical(doc)
    ensures Finish(Run(DocumentStream(doc))) == Ok(ExactCopy(doc))
  {
    hide Run, DocumentStream, NetOf, VatOf;
    RenderedDocumentIsReadBack(doc);
    CanonicalTexts(doc);
    CanonicalLines(doc);
  }

  lemma CanonicalTexts(doc: Document)
    requires Canonical(doc)
    ensures Expected(doc) == ExactCopy(doc).(lines := ExpectedLines(doc.lines))
  {
    hide Trim, OrgnumberOf, NetOf, VatOf, ExpectedLines;
    TrimOfTrimmed(doc.invoiceNumber);
    TrimOfTrimmed(doc.currency);
    TrimOfTrimmed(doc.seller.name);
    OrgnumberRoundTrip(doc.seller.orgnumber);
    OrgnumberRoundTrip(doc.buyer.orgnumber);
    if doc.kid.Some? {
      TrimOfTrimmed(doc.kid.value);
    }
    if doc.accountNumber.Some? {
      TrimOfTrimmed(doc.accountNumber.value);
    }
  }

  lemma CanonicalLines(doc: Document)
    requires Canonical(doc)
    ensures ExpectedLines(doc.lines) == ExactCopy(doc).lines
  {
    hide Trim, OrgnumberOf, NetOf, VatOf, IsTrimmed;
    forall i | 0 <= i < |doc.lines| ensures Trim(doc.lines[i].description) == doc.lines[i].description {
      assert doc.lines[i] in doc.lines;
      TrimOfTrimmed(doc.lines[i].description);
    }
  }

  lemma OrgnumberRoundTrip(text: string)
    requires IsOrgnumber(text)
    ensures OrgnumberOf(Trim(text)) == Some(text)
  {
    assert forall c | IsDigit(c) :: !IsSpace(c);
    TrimOfTrimmed(text);
    DigitsOfDigits(text);
  }

  lemma {:induction false} DigitsOfDigits(text: string)
    requires AllDigits(text)
    ensures DigitsOf(text) == text
  {
    if text != [] {
      DigitsOfDigits(text[..|text| - 1]);
    }
  }
}
