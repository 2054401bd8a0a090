/** EHF / PEPPOL BIS Billing 3.0: outgoing invoices and credit notes, written
    through a small tag writer. The output is the stream of tags and escaped
    texts; attributes and indentation are not part of it. */
module Ehf {
  import opened Wrappers
  import opened Decimal
  import opened Calendar
  import opened Xml
  import opened Sums
  import opened Ubl

  const CUSTOMIZATION_ID := "urn:cen.eu:en16931:2017#compliant#urn:fdc:peppol.eu:2017:poacc:billing:3.0"
  const PROFILE_ID := "urn:fdc:peppol.eu:2017:poacc:billing:01:1.0"

  datatype DocumentType = InvoiceDocument | CreditNoteDocument

  datatype Part = Part(
    name: string,
    orgnumber: string,
    address: Option<string>,
    postalCode: Option<string>,
    postalCity: Option<string>,
    land: string,
    vatRegistered: bool,
    email: Option<string>)

  datatype Line = Line(
    description: string,
    quantityMilli: int,
    unit: string,
    unitPriceOre: int,
    netOre: int,
    vatRateBp: Option<int>,
    vatOre: int)

  datatype Document = Document(
    documentType: DocumentType,
    invoiceNumber: string,
    krediterer: Option<string>,
    invoiceDate: Date,
    dueDate: Option<Date>,
    currency: string,
    buyerReference: Option<string>,
    seller: Part,
    buyer: Part,
    deliveryDate: Option<Date>,
    deliveryPlace: Option<string>,
    accountNumber: Option<string>,
    kid: Option<string>,
    lines: seq<Line>)

  // ---------- Numbers ----------

  /** Thousandths: "2.000". */
  function Quantity(milli: int): string {
    (if milli < 0 then "-" else "") + ToString(Abs(milli) / 1000) + "." + Padded(Abs(milli) % 1000, 3)
  }

  /** A quantity says its thousandths: a minus for a negative one, the whole part, and three
      decimals. */
  lemma QuantityIsThousandths(milli: int) returns (whole: string, decimals: string)
    ensures Quantity(milli) == (if milli < 0 then ['-'] else []) + whole + ['.'] + decimals
    ensures IsNumber(whole) && AllDigits(decimals) && |decimals| == 3
    ensures 1000 * Value(whole) + Value(decimals) == if milli < 0 then -milli else milli
  {
    whole, decimals := ToString(Abs(milli) / 1000), Padded(Abs(milli) % 1000, 3);
    ValueOfToString(Abs(milli) / 1000);
    assert Pow10(3) == 10 * Pow10(2) && Pow10(2) == 100;
    ValueOfPadded(Abs(milli) % 1000, 3);
  }

  // ---------- Tax groups ----------

  /** The EN 16931 category and rate of a line: standard rated or zero rated. */
  function TaxCategoryOf(line: Line): (string, int) {
    if line.vatRateBp.Some? && line.vatRateBp.value > 0 then ("S", line.vatRateBp.value) else ("Z", 0)
  }

  function NetOf(lines: seq<Line>): int {
    SumBy((l: Line) => l.netOre, lines)
  }

  function VatOf(lines: seq<Line>): int {
    SumBy((l: Line) => l.vatOre, lines)
  }

  function InGroup(lines: seq<Line>, key: (string, int)): seq<Line> {
    Filter((l: Line) => TaxCategoryOf(l) == key, lines)
  }

  /** The keys in first-appearance order. */
  function GroupKeys(lines: seq<Line>): seq<(string, int)> {
    if lines == [] then []
    else
      var front, key := GroupKeys(lines[..|lines| - 1]), TaxCategoryOf(lines[|lines| - 1]);
      if key in front then front else front + [key]
  }

  method CollectKeys(lines: seq<Line>) returns (rates: seq<(string, int)>)
    ensures rates == GroupKeys(lines)
  {
    rates := [];
    for i := 0 to |lines|
      invariant rates == GroupKeys(lines[..i])
    {
      assert lines[..i + 1][..i] == lines[..i];
      var key := TaxCategoryOf(lines[i]);
      if key !in rates {
        rates := rates + [key];
      }
    }
    assert lines[..|lines|] == lines;
  }

  /** No key is listed twice. */
  lemma {:induction false} KeysAreDistinct(lines: seq<Line>)
    ensures forall i, j | 0 <= i < j < |GroupKeys(lines)| :: GroupKeys(lines)[i] != GroupKeys(lines)[j]
  {
    if lines != [] {
      KeysAreDistinct(lines[..|lines| - 1]);
    }
  }

  /** A key is listed exactly when some line has it. */
  lemma {:induction false} KeyIsListed(lines: seq<Line>, key: (string, int))
    ensures key in GroupKeys(lines) <==> exists line | line in lines :: TaxCategoryOf(line) == key
  {
    if lines != [] {
      var front, last := lines[..|lines| - 1], lines[|lines| - 1];
      KeyIsListed(front, key);
      assert lines == front + [last];
      assert forall line :: line in lines <==> line in front || line == last;
    }
  }

  /** Every line falls in one tax group and one only, and no group is empty. */
  lemma KeysPartitionLines(lines: seq<Line>)
    ensures forall i, j | 0 <= i < j < |GroupKeys(lines)| :: GroupKeys(lines)[i] != GroupKeys(lines)[j]
    ensures forall key :: key in GroupKeys(lines) <==> exists line | line in lines :: TaxCategoryOf(line) == key
  {
    KeysAreDistinct(lines);
    forall key ensures key in GroupKeys(lines) <==> exists line | line in lines :: TaxCategoryOf(line) == key {
      KeyIsListed(lines, key);
    }
  }

  /** The subtotals of all groups, summed. */
  function SumOfGroups(f: Line -> int, keys: seq<(string, int)>, lines: seq<Line>): int {
    if keys == [] then 0
    else SumOfGroups(f, keys[..|keys| - 1], lines) + SumBy(f, InGroup(lines, keys[|keys| - 1]))
  }

  /** Adding a line adds its amount to its own group's subtotal. */
  lemma {:induction false} OneMoreLine(f: Line -> int, keys: seq<(string, int)>, lines: seq<Line>, line: Line)
    requires forall i, j | 0 <= i < j < |keys| :: keys[i] != keys[j]
    ensures SumOfGroups(f, keys, lines + [line])
         == SumOfGroups(f, keys, lines) + if TaxCategoryOf(line) in keys then f(line) else 0
  {
    if keys != [] {
      var front, key := keys[..|keys| - 1], keys[|keys| - 1];
      OneMoreLine(f, front, lines, line);
      assert keys == front + [key];
      FilterOne((l: Line) => TaxCategoryOf(l) == key, lines, line);
      if TaxCategoryOf(line) == key {
        assert InGroup(lines + [line], key) == InGroup(lines, key) + [line];
        SumByOne(f, InGroup(lines, key), line);
      } else {
        assert InGroup(lines + [line], key) == InGroup(lines, key);
      }
    }
  }

  /** A key no line has contributes nothing. */
  lemma UnusedKey(f: Line -> int, keys: seq<(string, int)>, key: (string, int), lines: seq<Line>)
    requires forall line | line in lines :: TaxCategoryOf(line) != key
    ensures SumOfGroups(f, keys + [key], lines) == SumOfGroups(f, keys, lines)
  {
    assert (keys + [key])[..|keys|] == keys;
    FilterNone((l: Line) => TaxCategoryOf(l) == key, lines);
  }

  /** The subtotals sum to the document's total, for any amount of a line. */
  lemma {:induction false} GroupsSumToTotal(f: Line -> int, lines: seq<Line>)
    ensures SumOfGroups(f, GroupKeys(lines), lines) == SumBy(f, lines)
  {
    hide InGroup, TaxCategoryOf;
    if lines == [] {
      assert GroupKeys([]) == [];
    } else {
      var front, line := lines[..|lines| - 1], lines[|lines| - 1];
      GroupsSumToTotal(f, front);
      KeysAreDistinct(lines);
      assert lines == front + [line];
      GrownKeys(f, front, line);
      OneMoreLine(f, GroupKeys(lines), front, line);
    }
  }

  lemma GrownKeys(f: Line -> int, front: seq<Line>, line: Line)
    ensures TaxCategoryOf(line) in GroupKeys(front + [line])
    ensures SumOfGroups(f, GroupKeys(front + [line]), front) == SumOfGroups(f, GroupKeys(front), front)
  {
    var key := TaxCategoryOf(line);
    assert (front + [line])[..|front|] == front;
    KeyIsListed(front, key);
    if key !in GroupKeys(front) {
      UnusedKey(f, GroupKeys(front), key, front);
    }
  }

  /** What a recipient who reconciles per rate relies on. */
  lemma SubtotalsReconcile(lines: seq<Line>)
    ensures SumOfGroups((l: Line) => l.netOre, GroupKeys(lines), lines) == NetOf(lines)
    ensures SumOfGroups((l: Line) => l.vatOre, GroupKeys(lines), lines) == VatOf(lines)
  {
    GroupsSumToTotal((l: Line) => l.netOre, lines);
    GroupsSumToTotal((l: Line) => l.vatOre, lines);
  }

  // ---------- The document as a stream ----------

  type Stream = seq<Event<Elem>>

  function Open(out: Stream, tag: Elem): Stream {
    out + [Start(tag)]
  }

  function Close(out: Stream, tag: Elem): Stream {
    out + [End(tag)]
  }

  function Leaf(out: Stream, tag: Elem, value: string): Stream {
    out + [Start(tag), Chars(Esc(value)), End(tag)]
  }

  function OptLeaf(out: Stream, tag: Elem, value: Option<string>): Stream {
    match value
    case Some(text) => Leaf(out, tag, text)
    case None => out
  }

  function OptDate(date: Option<Date>): Option<string> {
    match date
    case Some(d) => Some(IsoString(d))
    case None => None
  }

  function PartyIds(out: Stream, part: Part): Stream {
    var out := Leaf(out, EndpointID, part.orgnumber);
    var out := Open(out, PartyIdentification);
    var out := Leaf(out, ID, part.orgnumber);
    var out := Close(out, PartyIdentification);
    var out := Open(out, PartyName);
    var out := Leaf(out, Name, part.name);
    Close(out, PartyName)
  }

  function PartyAddress(out: Stream, part: Part): Stream {
    var out := Open(out, PostalAddress);
    var out := OptLeaf(out, StreetName, part.address);
    var out := OptLeaf(out, CityName, part.postalCity);
    var out := OptLeaf(out, PostalZone, part.postalCode);
    var out := Open(out, Country);
    var out := Leaf(out, IdentificationCode, part.land);
    var out := Close(out, Country);
    Close(out, PostalAddress)
  }

  function VatScheme(out: Stream): Stream {
    var out := Open(out, TaxScheme);
    var out := Leaf(out, ID, "VAT");
    Close(out, TaxScheme)
  }

  function PartyVat(out: Stream, part: Part): Stream {
    if !part.vatRegistered then out
    else
      var out := Open(out, PartyTaxScheme);
      var out := Leaf(out, CompanyID, "NO" + part.orgnumber + "MVA");
      var out := VatScheme(out);
      Close(out, PartyTaxScheme)
  }

  function PartyLegal(out: Stream, part: Part): Stream {
    var out := Open(out, PartyLegalEntity);
    var out := Leaf(out, RegistrationName, part.name);
    var out := Leaf(out, CompanyID, part.orgnumber);
    Close(out, PartyLegalEntity)
  }

  function PartyContact(out: Stream, part: Part): Stream {
    match part.email
    case None => out
    case Some(email) =>
      var out := Open(out, Contact);
      var out := Leaf(out, ElectronicMail, email);
      Close(out, Contact)
  }

  function PartyStream(out: Stream, wrapper: Elem, part: Part): Stream {
    var out := Open(out, wrapper);
    var out := Open(out, Party);
    var out := PartyIds(out, part);
    var out := PartyAddress(out, part);
    var out := PartyVat(out, part);
    var out := PartyLegal(out, part);
    var out := PartyContact(out, part);
    var out := Close(out, Party);
    Close(out, wrapper)
  }

  function Root(doc: Document): Elem {
    if doc.documentType.InvoiceDocument? then Invoice else CreditNote
  }

  function BillingReferenceStream(out: Stream, doc: Document): Stream {
    match doc.krediterer
    case None => out
    case Some(credited) =>
      var out := Open(out, BillingReference);
      var out := Open(out, InvoiceDocumentReference);
      var out := Leaf(out, ID, credited);
      var out := Close(out, InvoiceDocumentReference);
      Close(out, BillingReference)
  }

  function HeaderStream(out: Stream, doc: Document): Stream {
    var out := Leaf(out, CustomizationID, CUSTOMIZATION_ID);
    var out := Leaf(out, ProfileID, PROFILE_ID);
    var out := Leaf(out, ID, doc.invoiceNumber);
    var out := Leaf(out, IssueDate, IsoString(doc.invoiceDate));
    var out := OptLeaf(out, DueDate, if doc.documentType.InvoiceDocument? then OptDate(doc.dueDate) else None);
    var out := if doc.documentType.InvoiceDocument? then Leaf(out, InvoiceTypeCode, "380")
               else Leaf(out, CreditNoteTypeCode, "381");
    var out := Leaf(out, DocumentCurrencyCode, doc.currency);
    var out := OptLeaf(out, BuyerReference, doc.buyerReference);
    BillingReferenceStream(out, doc)
  }

  function DeliveryPlaceStream(out: Stream, place: Option<string>): Stream {
    match place
    case None => out
    case Some(street) =>
      var out := Open(out, DeliveryLocation);
      var out := Open(out, Address);
      var out := Leaf(out, StreetName, street);
      var out := Close(out, Address);
      Close(out, DeliveryLocation)
  }

  function DeliveryStream(out: Stream, doc: Document): Stream {
    if doc.deliveryDate == None && doc.deliveryPlace == None then out
    else
      var out := Open(out, Delivery);
      var out := OptLeaf(out, ActualDeliveryDate, OptDate(doc.deliveryDate));
      var out := DeliveryPlaceStream(out, doc.deliveryPlace);
      Close(out, Delivery)
  }

  /** Only an invoice asks to be paid. */
  function PaymentStream(out: Stream, doc: Document): Stream {
    if doc.documentType.CreditNoteDocument? || doc.accountNumber == None then out
    else
      var out := Open(out, PaymentMeans);
      var out := Leaf(out, PaymentMeansCode, "30");
      var out := OptLeaf(out, PaymentID, doc.kid);
      var out := Open(out, PayeeFinancialAccount);
      var out := Leaf(out, ID, doc.accountNumber.value);
      var out := Close(out, PayeeFinancialAccount);
      Close(out, PaymentMeans)
  }

  function CategoryStream(out: Stream, wrapper: Elem, key: (string, int)): Stream {
    var out := Open(out, wrapper);
    var out := Leaf(out, ID, key.0);
    var out := Leaf(out, Percent, TwoDecimals(key.1));
    var out := VatScheme(out);
    Close(out, wrapper)
  }

  function SubtotalStream(out: Stream, lines: seq<Line>, key: (string, int)): Stream {
    var out := Open(out, TaxSubtotal);
    var out := Leaf(out, TaxableAmount, TwoDecimals(NetOf(InGroup(lines, key))));
    var out := Leaf(out, TaxAmount, TwoDecimals(VatOf(InGroup(lines, key))));
    var out := CategoryStream(out, TaxCategory, key);
    Close(out, TaxSubtotal)
  }

  function SubtotalsStream(out: Stream, lines: seq<Line>, keys: seq<(string, int)>): Stream {
    if keys == [] then out
    else SubtotalStream(SubtotalsStream(out, lines, keys[..|keys| - 1]), lines, keys[|keys| - 1])
  }

  function TaxTotalStream(out: Stream, lines: seq<Line>): Stream {
    var out := Open(out, TaxTotal);
    var out := Leaf(out, TaxAmount, TwoDecimals(VatOf(lines)));
    var out := SubtotalsStream(out, lines, GroupKeys(lines));
    Close(out, TaxTotal)
  }

  function TotalsStream(out: Stream, net: int, vat: int): Stream {
    var out := Open(out, LegalMonetaryTotal);
    var out := Leaf(out, LineExtensionAmount, TwoDecimals(net));
    var out := Leaf(out, TaxExclusiveAmount, TwoDecimals(net));
    var out := Leaf(out, TaxInclusiveAmount, TwoDecimals(net + vat));
    var out := Leaf(out, PayableAmount, TwoDecimals(net + vat));
    Close(out, LegalMonetaryTotal)
  }

  function ItemStream(out: Stream, line: Line): Stream {
    var out := Open(out, Item);
    var out := Leaf(out, Name, line.description);
    var out := CategoryStream(out, ClassifiedTaxCategory, TaxCategoryOf(line));
    Close(out, Item)
  }

  function LineTag(doc: Document): Elem {
    if doc.documentType.InvoiceDocument? then InvoiceLine else CreditNoteLine
  }

  function QuantityTag(doc: Document): Elem {
    if doc.documentType.InvoiceDocument? then InvoicedQuantity else CreditedQuantity
  }

  function LineStream(out: Stream, doc: Document, number: nat, line: Line): Stream {
    var out := Open(out, LineTag(doc));
    var out := Leaf(out, ID, ToString(number));
    var out := Leaf(out, QuantityTag(doc), Quantity(line.quantityMilli));
    var out := Leaf(out, LineExtensionAmount, TwoDecimals(line.netOre));
    var out := ItemStream(out, line);
    var out := Open(out, Price);
    var out := Leaf(out, PriceAmount, TwoDecimals(line.unitPriceOre));
    var out := Close(out, Price);
    Close(out, LineTag(doc))
  }

  /** The first `n` lines, numbered from one. */
  function LinesStream(out: Stream, doc: Document, n: nat): Stream
    requires n <= |doc.lines|
  {
    if n == 0 then out else LineStream(LinesStream(out, doc, n - 1), doc, n, doc.lines[n - 1])
  }

  function DocumentStream(doc: Document): Stream {
    hide *;
    var out := Open([], Root(doc));
    var out := HeaderStream(out, doc);
    var out := PartyStream(out, AccountingSupplierParty, doc.seller);
    var out := PartyStream(out, AccountingCustomerParty, doc.buyer);
    var out := DeliveryStream(out, doc);
    var out := PaymentStream(out, doc);
    var out := TaxTotalStream(out, doc.lines);
    var out := TotalsStream(out, NetOf(doc.lines), VatOf(doc.lines));
    var out := LinesStream(out, doc, |doc.lines|);
    Close(out, Root(doc))
  }

  // ---------- The writer ----------

  class Writer {
    var out: Stream
    /** How many elements are open: the indentation of the next line. */
    var depth: nat

    constructor ()
      ensures out == [] && depth == 0
    {
      out, depth := [], 0;
    }

    method OpenTag(tag: Elem)
      modifies this
      ensures out == Open(old(out), tag) && depth == old(depth) + 1
    {
      out := out + [Start(tag)];
      depth := depth + 1;
    }

    method CloseTag(tag: Elem)
      requires depth > 0
      modifies this
      ensures out == Close(old(out), tag) && depth == old(depth) - 1
    {
      depth := depth - 1;
      out := out + [End(tag)];
    }

    method WriteLeaf(tag: Elem, value: string)
      modifies this
      ensures out == Leaf(old(out), tag, value) && depth == old(depth)
    {
      out := out + [Start(tag), Chars(Esc(value)), End(tag)];
    }

    method WriteOptLeaf(tag: Elem, value: Option<string>)
      modifies this
      ensures out == OptLeaf(old(out), tag, value) && depth == old(depth)
    {
      if value.Some? {
        WriteLeaf(tag, value.value);
      }
    }

    method WritePartyIds(part: Part)
      modifies this
      ensures out == PartyIds(old(out), part) && depth == old(depth)
    {
      WriteLeaf(EndpointID, part.orgnumber);
      OpenTag(PartyIdentification);
      WriteLeaf(ID, part.orgnumber);
      CloseTag(PartyIdentification);
      OpenTag(PartyName);
      WriteLeaf(Name, part.name);
      CloseTag(PartyName);
    }

    method WritePartyAddress(part: Part)
      modifies this
      ensures out == PartyAddress(old(out), part) && depth == old(depth)
    {
      OpenTag(PostalAddress);
      WriteOptLeaf(StreetName, part.address);
      WriteOptLeaf(CityName, part.postalCity);
      WriteOptLeaf(PostalZone, part.postalCode);
      OpenTag(Country);
      WriteLeaf(IdentificationCode, part.land);
      CloseTag(Country);
      CloseTag(PostalAddress);
    }

    method WriteVatScheme()
      modifies this
      ensures out == VatScheme(old(out)) && depth == old(depth)
    {
      OpenTag(TaxScheme);
      WriteLeaf(ID, "VAT");
      CloseTag(TaxScheme);
    }

    method WritePartyRegistrations(part: Part)
      modifies this
      ensures out == PartyContact(PartyLegal(PartyVat(old(out), part), part), part) && depth == old(depth)
    {
      if part.vatRegistered {
        OpenTag(PartyTaxScheme);
        WriteLeaf(CompanyID, "NO" + part.orgnumber + "MVA");
        WriteVatScheme();
        CloseTag(PartyTaxScheme);
      }
      OpenTag(PartyLegalEntity);
      WriteLeaf(RegistrationName, part.name);
      WriteLeaf(CompanyID, part.orgnumber);
      CloseTag(PartyLegalEntity);
      if part.email.Some? {
        OpenTag(Contact);
        WriteLeaf(ElectronicMail, part.email.value);
        CloseTag(Contact);
      }
    }

    method WriteParty(wrapper: Elem, part: Part)
      modifies this
      ensures out == PartyStream(old(out), wrapper, part) && depth == old(depth)
    {
      OpenTag(wrapper);
      OpenTag(Party);
      WritePartyIds(part);
      WritePartyAddress(part);
      WritePartyRegistrations(part);
      CloseTag(Party);
      CloseTag(wrapper);
    }

    method WriteHeader(doc: Document)
      modifies this
      ensures out == HeaderStream(old(out), doc) && depth == old(depth)
    {
      hide Leaf;
      WriteLeaf(CustomizationID, CUSTOMIZATION_ID);
      WriteLeaf(ProfileID, PROFILE_ID);
      WriteLeaf(ID, doc.invoiceNumber);
      WriteLeaf(IssueDate, IsoString(doc.invoiceDate));
      if doc.documentType == InvoiceDocument && doc.dueDate.Some? {
        WriteLeaf(DueDate, IsoString(doc.dueDate.value));
      }
      match doc.documentType {
        case InvoiceDocument => WriteLeaf(InvoiceTypeCode, "380");
        case CreditNoteDocument => WriteLeaf(CreditNoteTypeCode, "381");
      }
      WriteLeaf(DocumentCurrencyCode, doc.currency);
      WriteOptLeaf(BuyerReference, doc.buyerReference);
      if doc.krediterer.Some? {
        OpenTag(BillingReference);
        OpenTag(InvoiceDocumentReference);
        WriteLeaf(ID, doc.krediterer.value);
        CloseTag(InvoiceDocumentReference);
        CloseTag(BillingReference);
      }
    }

    method WriteDelivery(doc: Document)
      modifies this
      ensures out == DeliveryStream(old(out), doc) && depth == old(depth)
    {
      if doc.deliveryDate.Some? || doc.deliveryPlace.Some? {
        OpenTag(Delivery);
        if doc.deliveryDate.Some? {
          WriteLeaf(ActualDeliveryDate, IsoString(doc.deliveryDate.value));
        }
        if doc.deliveryPlace.Some? {
          OpenTag(DeliveryLocation);
          OpenTag(Address);
          WriteLeaf(StreetName, doc.deliveryPlace.value);
          CloseTag(Address);
          CloseTag(DeliveryLocation);
        }
        CloseTag(Delivery);
      }
    }

    method WritePayment(doc: Document)
      modifies this
      ensures out == PaymentStream(old(out), doc) && depth == old(depth)
    {
      if doc.documentType == InvoiceDocument && doc.accountNumber.Some? {
        OpenTag(PaymentMeans);
        WriteLeaf(PaymentMeansCode, "30");
        WriteOptLeaf(PaymentID, doc.kid);
        OpenTag(PayeeFinancialAccount);
        WriteLeaf(ID, doc.accountNumber.value);
        CloseTag(PayeeFinancialAccount);
        CloseTag(PaymentMeans);
      }
    }

    method WriteCategory(wrapper: Elem, key: (string, int))
      modifies this
      ensures out == CategoryStream(old(out), wrapper, key) && depth == old(depth)
    {
      OpenTag(wrapper);
      WriteLeaf(ID, key.0);
      WriteLeaf(Percent, TwoDecimals(key.1));
      WriteVatScheme();
      CloseTag(wrapper);
    }

    method WriteSubtotal(lines: seq<Line>, key: (string, int))
      modifies this
      ensures out == SubtotalStream(old(out), lines, key) && depth == old(depth)
    {
      var basis := NetOf(InGroup(lines, key));
      var avgift := VatOf(InGroup(lines, key));
      OpenTag(TaxSubtotal);
      WriteLeaf(TaxableAmount, TwoDecimals(basis));
      WriteLeaf(TaxAmount, TwoDecimals(avgift));
      WriteCategory(TaxCategory, key);
      CloseTag(TaxSubtotal);
    }

    method WriteTaxTotal(lines: seq<Line>, vatSum: int)
      requires vatSum == VatOf(lines)
      modifies this
      ensures out == TaxTotalStream(old(out), lines) && depth == old(depth)
    {
      hide SubtotalStream;
      var rates := CollectKeys(lines);
      OpenTag(TaxTotal);
      WriteLeaf(TaxAmount, TwoDecimals(vatSum));
      ghost var start := out;
      for i := 0 to |rates|
        invariant out == SubtotalsStream(start, lines, rates[..i]) && depth == old(depth) + 1
      {
        assert rates[..i + 1][..i] == rates[..i];
        WriteSubtotal(lines, rates[i]);
      }
      assert rates[..|rates|] == rates;
      CloseTag(TaxTotal);
    }

    method WriteTotals(netSum: int, vatSum: int)
      modifies this
      ensures out == TotalsStream(old(out), netSum, vatSum) && depth == old(depth)
    {
      OpenTag(LegalMonetaryTotal);
      WriteLeaf(LineExtensionAmount, TwoDecimals(netSum));
      WriteLeaf(TaxExclusiveAmount, TwoDecimals(netSum));
      WriteLeaf(TaxInclusiveAmount, TwoDecimals(netSum + vatSum));
      WriteLeaf(PayableAmount, TwoDecimals(netSum + vatSum));
      CloseTag(LegalMonetaryTotal);
    }

    method WriteLine(doc: Document, number: nat, line: Line)
      modifies this
      ensures out == LineStream(old(out), doc, number, line) && depth == old(depth)
    {
      OpenTag(LineTag(doc));
      WriteLeaf(ID, ToString(number));
      WriteLeaf(QuantityTag(doc), Quantity(line.quantityMilli));
      WriteLeaf(LineExtensionAmount, TwoDecimals(line.netOre));
      OpenTag(Item);
      WriteLeaf(Name, line.description);
      WriteCategory(ClassifiedTaxCategory, TaxCategoryOf(line));
      CloseTag(Item);
      OpenTag(Price);
      WriteLeaf(PriceAmount, TwoDecimals(line.unitPriceOre));
      CloseTag(Price);
      CloseTag(LineTag(doc));
    }
  }

  method Render(doc: Document) returns (out: Stream)
    ensures out == DocumentStream(doc)
  {
    hide HeaderStream, PartyStream, DeliveryStream, PaymentStream, TaxTotalStream, TotalsStream, LineStream;
    var netSum, vatSum := NetOf(doc.lines), VatOf(doc.lines);
    var w := new Writer();
    w.OpenTag(Root(doc));
    w.WriteHeader(doc);
    w.WriteParty(AccountingSupplierParty, doc.seller);
    w.WriteParty(AccountingCustomerParty, doc.buyer);
    w.WriteDelivery(doc);
    w.WritePayment(doc);
    w.WriteTaxTotal(doc.lines, vatSum);
    w.WriteTotals(netSum, vatSum);
    ghost var start := w.out;
    for i := 0 to |doc.lines|
      invariant w.out == LinesStream(start, doc, i) && w.depth == 1
    {
      w.WriteLine(doc, i + 1, doc.lines[i]);
    }
    w.CloseTag(Root(doc));
    out := w.out;
  }
}
