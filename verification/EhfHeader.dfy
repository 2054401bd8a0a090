/** The header of a received document: for every stream of events, which of its texts
    each field is read from. */
module EhfHeader {
  import opened Wrappers
  import opened Calendar
  import opened Decimal
  import opened Text
  import opened Xml
  import opened Sums
  import opened Ubl
  import opened Ehf
  import opened EhfImport
  import opened EhfLeaves
  import opened EhfReading

  // ---------- What a stream says ----------

  /** The texts that are not blank, each with the elements it stands in. */
  function Texts(events: Stream): seq<(Path, string)> {
    if events == [] then []
    else
      var front, event := events[..|events| - 1], events[|events| - 1];
      Texts(front)
      + if event.Chars? && OpenAfter(front) != [] && ValueOf(event.raw) != "" then
          [(OpenAfter(front), ValueOf(event.raw))]
        else []
  }

  /** The last text that stands where `where` says. */
  function LastText(texts: seq<(Path, string)>, where: Path -> bool): Option<string> {
    if texts == [] then None
    else
      var last := texts[|texts| - 1];
      if where(last.0) then Some(last.1) else LastText(texts[..|texts| - 1], where)
  }

  /** The first number of nine digits among the texts that stand where `where` says. */
  function FirstNumber(texts: seq<(Path, string)>, where: Path -> bool): Option<string> {
    if texts == [] then None
    else
      var front, last := FirstNumber(texts[..|texts| - 1], where), texts[|texts| - 1];
      if front.Some? then front else if where(last.0) then OrgnumberOf(last.1) else None
  }

  /** The first element that names a document. */
  function FirstRoot(events: Stream): Option<Elem> {
    if events == [] then None
    else
      var front, event := FirstRoot(events[..|events| - 1]), events[|events| - 1];
      if front.None? && event.Start? && event.name in {Invoice, CreditNote} then Some(event.name) else front
  }

  // ---------- Where the header stands ----------

  predicate IsBelow(path: Path, parent: Elem, leaf: Elem) {
    |path| >= 2 && path[|path| - 2] == parent && path[|path| - 1] == leaf
  }

  predicate IsInvoiceNumber(path: Path) {
    |path| == 2 && path[1] == ID
  }

  predicate IsInvoiceDate(path: Path) {
    |path| == 2 && path[1] == IssueDate
  }

  predicate IsDueDate(path: Path) {
    |path| == 2 && path[1] == DueDate
  }

  predicate IsCurrency(path: Path) {
    |path| == 2 && path[1] == DocumentCurrencyCode
  }

  predicate IsKid(path: Path) {
    path != [] && path[|path| - 1] == PaymentID
  }

  predicate IsAccountNumber(path: Path) {
    |path| > 2 && IsBelow(path, PayeeFinancialAccount, ID)
  }

  predicate IsPartyName(path: Path) {
    AccountingSupplierParty in path && IsBelow(path, PartyName, Name)
  }

  predicate IsLegalName(path: Path) {
    path != [] && AccountingSupplierParty in path && path[|path| - 1] == RegistrationName
  }

  /** The three places an organisation number can stand in. */
  predicate IsPartyNumber(path: Path) {
    || IsBelow(path, Party, EndpointID)
    || IsBelow(path, PartyIdentification, ID)
    || IsBelow(path, PartyLegalEntity, CompanyID)
  }

  predicate IsSellerNumber(path: Path) {
    IsPartyNumber(path) && AccountingSupplierParty in path
  }

  predicate IsBuyerNumber(path: Path) {
    IsPartyNumber(path) && AccountingCustomerParty in path && AccountingSupplierParty !in path
  }

  // ---------- What the fields are ----------

  function TextOr(text: Option<string>, unset: string): string {
    if text.Some? then text.value else unset
  }

  /** The date is the text's; there is none only when there is no text. */
  predicate IsDateOf(date: Option<Date>, text: Option<string>) {
    if text.Some? then date == ParseIso(text.value) && date.Some? else date == None
  }

  predicate HasReferences(invoice: ReceivedInvoice, texts: seq<(Path, string)>) {
    && invoice.invoiceNumber == TextOr(LastText(texts, IsInvoiceNumber), "")
    && invoice.currency == TextOr(LastText(texts, IsCurrency), "NOK")
    && IsDateOf(invoice.invoiceDate, LastText(texts, IsInvoiceDate))
    && IsDateOf(invoice.dueDate, LastText(texts, IsDueDate))
    && invoice.kid == LastText(texts, IsKid)
    && invoice.accountNumber == LastText(texts, IsAccountNumber)
  }

  predicate HasParties(invoice: ReceivedInvoice, texts: seq<(Path, string)>) {
    && invoice.sellerName == TextOr(LastText(texts, IsLegalName), TextOr(LastText(texts, IsPartyName), ""))
    && invoice.sellerOrgnumber == FirstNumber(texts, IsSellerNumber)
    && invoice.buyerOrgnumber == FirstNumber(texts, IsBuyerNumber)
  }

  // ---------- One text ----------

  lemma TopFields(path: Path, inLine: bool)
    requires path != []
    ensures
      var field := FieldAt(path, inLine);
      && (field == InvoiceNumber <==> IsInvoiceNumber(path)) && (field == Currency <==> IsCurrency(path))
      && (field == InvoiceDate <==> IsInvoiceDate(path)) && (field == InvoiceDueDate <==> IsDueDate(path))
  {
    hide EndsWith;
  }

  /** Identifications are fields by what stands around them. */
  lemma IdentificationFields(path: Path, inLine: bool)
    requires path != []
    ensures
      var field, leaf, party := FieldAt(path, inLine), path[|path| - 1], OrgnumberField(path);
      && (leaf == ID ==>
            field == if |path| == 2 then InvoiceNumber else if party != Ignored then party
                     else if EndsWith(path, [PayeeFinancialAccount, ID]) then AccountNumber else Ignored)
      && (leaf in {EndpointID, CompanyID} ==> field == party)
      && (leaf !in {ID, EndpointID, CompanyID} ==> field !in {AccountNumber, SellerOrgnumber, BuyerOrgnumber})
      && (field == Kid <==> leaf == PaymentID)
      && party in {SellerOrgnumber, BuyerOrgnumber, Ignored}
  {
    hide EndsWith;
  }

  lemma PaymentFields(path: Path, inLine: bool)
    requires path != []
    ensures
      var field := FieldAt(path, inLine);
      (field == Kid <==> IsKid(path)) && (field == AccountNumber <==> IsAccountNumber(path))
  {
    IdentificationFields(path, inLine);
    NumberFields(path);
    TailOfTwo(path, PayeeFinancialAccount, ID);
    hide FieldAt, EndsWith, OrgnumberField, IsSellerNumber, IsBuyerNumber;
    assert IsBelow(path, PayeeFinancialAccount, ID) ==> !IsPartyNumber(path);
  }

  lemma NameFields(path: Path, inLine: bool)
    requires path != []
    ensures
      var field := FieldAt(path, inLine);
      (field == SellerPartyName <==> IsPartyName(path)) && (field == SellerLegalName <==> IsLegalName(path))
  {
    TailOfTwo(path, PartyName, Name);
    hide EndsWith;
  }

  lemma NumberFields(path: Path)
    requires path != []
    ensures OrgnumberField(path) == SellerOrgnumber <==> IsSellerNumber(path)
    ensures OrgnumberField(path) == BuyerOrgnumber <==> IsBuyerNumber(path)
    ensures OrgnumberField(path) != Ignored ==> IsPartyNumber(path) && |path| > 2
  {
    TailOfTwo(path, PartyIdentification, ID);
    TailOfTwo(path, Party, EndpointID);
    TailOfTwo(path, PartyLegalEntity, CompanyID);
    hide EndsWith;
    if |path| <= 2 && IsPartyNumber(path) {
      assert AccountingSupplierParty !in path && AccountingCustomerParty !in path;
    }
  }

  lemma PartyNumberFields(path: Path, inLine: bool)
    requires path != []
    ensures
      var field := FieldAt(path, inLine);
      (field == SellerOrgnumber <==> IsSellerNumber(path)) && (field == BuyerOrgnumber <==> IsBuyerNumber(path))
  {
    IdentificationFields(path, inLine);
    NumberFields(path);
    if IsPartyNumber(path) {
      PartyLeaf(path);
    }
    hide FieldAt, EndsWith, OrgnumberField, IsPartyNumber;
  }

  lemma PartyLeaf(path: Path)
    requires IsPartyNumber(path)
    ensures path != [] && path[|path| - 1] in {ID, EndpointID, CompanyID}
  {
  }

  /** A text sets the field it is addressed to and no other. */
  predicate SetsReference(a: ReceivedInvoice, b: ReceivedInvoice, field: Field, value: string) {
    && b.invoiceNumber == (if field == InvoiceNumber then value else a.invoiceNumber)
    && b.currency == (if field == Currency then value else a.currency)
    && b.kid == (if field == Kid then Some(value) else a.kid)
    && b.accountNumber == (if field == AccountNumber then Some(value) else a.accountNumber)
    && (if field == InvoiceDate then b.invoiceDate == ParseIso(value) && b.invoiceDate.Some?
        else b.invoiceDate == a.invoiceDate)
    && (if field == InvoiceDueDate then b.dueDate == ParseIso(value) && b.dueDate.Some? else b.dueDate == a.dueDate)
  }

  predicate SetsParty(a: State, b: State, field: Field, value: string) {
    && b.path == a.path && b.rootSeen == a.rootSeen && b.invoice.isCreditNote == a.invoice.isCreditNote
    && b.nameFromLegal == (a.nameFromLegal || field == SellerLegalName)
    && b.invoice.sellerName
       == (if field == SellerLegalName || (field == SellerPartyName && !a.nameFromLegal) then value
           else a.invoice.sellerName)
    && b.invoice.sellerOrgnumber
       == (if field == SellerOrgnumber && a.invoice.sellerOrgnumber == None then OrgnumberOf(value)
           else a.invoice.sellerOrgnumber)
    && b.invoice.buyerOrgnumber
       == (if field == BuyerOrgnumber && a.invoice.buyerOrgnumber == None then OrgnumberOf(value)
           else a.invoice.buyerOrgnumber)
  }

  lemma TextSetsReference(s: State, field: Field, value: string)
    requires !IsDateField(field)
    ensures SetsReference(s.invoice, SetText(s, field, value).invoice, field, value)
  {
    hide OrgnumberOf, ParseIso, Or;
  }

  lemma TextSetsParty(s: State, field: Field, value: string)
    requires !IsDateField(field)
    ensures SetsParty(s, SetText(s, field, value), field, value)
  {
    hide OrgnumberOf;
  }

  lemma DateSets(s: State, field: Field, value: string)
    requires IsDateField(field) && ParseIso(value).Some?
    ensures
      var t := s.(invoice := SetDate(s.invoice, field, ParseIso(value).value));
      SetsReference(s.invoice, t.invoice, field, value) && SetsParty(s, t, field, value)
  {
    hide OrgnumberOf, ParseIso;
  }

  lemma AmountSetsNothingHere(s: State, field: Field, ore: int, value: string)
    requires WantsAmount(s.invoice, field)
    ensures SetsReference(s.invoice, SetAmount(s, field, ore).invoice, field, value)
    ensures SetsParty(s, SetAmount(s, field, ore), field, value)
  {
    hide OrgnumberOf, ParseIso;
  }

  lemma PercentSetsNothingHere(s: State, line: ReceivedLine, value: string)
    ensures SetsReference(s.invoice, s.invoice, LinePercent, value)
      && SetsParty(s, s.(line := line), LinePercent, value)
  {
    hide OrgnumberOf, ParseIso;
  }

  lemma ValueSets(s: State, value: string)
    requires s.path != []
    ensures OnValue(s, value).Running? ==>
      var t, field := OnValue(s, value).state, FieldAt(s.path, s.inLine);
      SetsReference(s.invoice, t.invoice, field, value) && SetsParty(s, t, field, value)
  {
    var field := FieldAt(s.path, s.inLine);
    hide FieldAt, Amount, PercentBp, OrgnumberOf, ParseIso, WantsAmount, SetsReference, SetsParty, SetText, SetAmount,
      SetDate;
    if IsDateField(field) {
      if ParseIso(value).Some? {
        DateSets(s, field, value);
      }
    } else if WantsAmount(s.invoice, field) {
      if Amount(value).Some? {
        AmountSetsNothingHere(s, field, Amount(value).value, value);
      }
    } else if field == LinePercent {
      if PercentBp(value).Ok? {
        PercentSetsNothingHere(s, s.line.(vatRateBp := PercentBp(value).value), value);
      }
    } else {
      TextSetsReference(s, field, value);
      TextSetsParty(s, field, value);
    }
  }

  lemma ValueSetsReferences(s: State, value: string, texts: seq<(Path, string)>)
    requires s.path != [] && HasReferences(s.invoice, texts)
    ensures OnValue(s, value).Running? ==> HasReferences(OnValue(s, value).state.invoice, texts + [(s.path, value)])
  {
    hide FieldAt, OnValue, ParseIso, LastText, IsInvoiceNumber, IsCurrency, IsInvoiceDate, IsDueDate, IsKid,
         IsAccountNumber, SetsParty;
    ValueSets(s, value);
    TopFields(s.path, s.inLine);
    PaymentFields(s.path, s.inLine);
    OneMoreText(texts, s.path, value, IsInvoiceNumber);
    OneMoreText(texts, s.path, value, IsCurrency);
    OneMoreText(texts, s.path, value, IsInvoiceDate);
    OneMoreText(texts, s.path, value, IsDueDate);
    OneMoreText(texts, s.path, value, IsKid);
    OneMoreText(texts, s.path, value, IsAccountNumber);
  }

  lemma ValueSetsParties(s: State, value: string, texts: seq<(Path, string)>)
    requires s.path != [] && HasParties(s.invoice, texts) && (s.nameFromLegal <==> LastText(texts, IsLegalName).Some?)
    ensures OnValue(s, value).Running? ==>
      var t, more := OnValue(s, value).state, texts + [(s.path, value)];
      HasParties(t.invoice, more) && (t.nameFromLegal <==> LastText(more, IsLegalName).Some?)
  {
    hide FieldAt, OnValue, OrgnumberOf, LastText, FirstNumber, IsLegalName, IsPartyName, IsSellerNumber, IsBuyerNumber,
         SetsReference;
    ValueSets(s, value);
    NameFields(s.path, s.inLine);
    PartyNumberFields(s.path, s.inLine);
    OneMoreText(texts, s.path, value, IsLegalName);
    OneMoreText(texts, s.path, value, IsPartyName);
    OneMoreNumber(texts, s.path, value, IsSellerNumber);
    OneMoreNumber(texts, s.path, value, IsBuyerNumber);
  }

  lemma OneMoreText(texts: seq<(Path, string)>, path: Path, value: string, where: Path -> bool)
    ensures LastText(texts + [(path, value)], where) == if where(path) then Some(value) else LastText(texts, where)
  {
    assert (texts + [(path, value)])[..|texts|] == texts;
  }

  lemma OneMoreNumber(texts: seq<(Path, string)>, path: Path, value: string, where: Path -> bool)
    ensures FirstNumber(texts + [(path, value)], where)
         == if FirstNumber(texts, where).Some? then FirstNumber(texts, where)
            else if where(path) then OrgnumberOf(value) else None
  {
    assert (texts + [(path, value)])[..|texts|] == texts;
  }

  // ---------- Whole streams ----------

  /** The machine stands where the stream has led it. */
  ghost predicate IsAt(s: State, events: Stream) {
    && s.path == OpenAfter(events)
    && (s.rootSeen <==> FirstRoot(events).Some?) && (s.invoice.isCreditNote <==> FirstRoot(events) == Some(CreditNote))
    && HasReferences(s.invoice, Texts(events)) && HasParties(s.invoice, Texts(events))
    && (s.nameFromLegal <==> LastText(Texts(events), IsLegalName).Some?)
  }

  lemma ValueKeepsTheRest(s: State, value: string)
    requires s.path != []
    ensures OnValue(s, value).Running? ==>
      var t := OnValue(s, value).state;
      t.path == s.path && t.rootSeen == s.rootSeen && t.invoice.isCreditNote == s.invoice.isCreditNote
  {
    hide OnValue, FieldAt, OrgnumberOf, SetsReference;
    ValueSets(s, value);
  }

  lemma OneMoreEvent(front: Stream, event: Event<Elem>)
    ensures
      var open, events := OpenAfter(front), front + [event];
      && OpenAfter(events) == PathStep(open, event)
      && Texts(events) == Texts(front) + (if event.Chars? && open != [] && ValueOf(event.raw) != "" then
                                            [(open, ValueOf(event.raw))] else [])
      && FirstRoot(events) == (if FirstRoot(front).None? && event.Start? && event.name in {Invoice, CreditNote} then
                                 Some(event.name) else FirstRoot(front))
  {
    hide ValueOf;
    assert (front + [event])[..|front|] == front;
  }

  lemma CharsLeadOn(front: Stream, s: State, raw: string)
    requires IsAt(s, front)
    ensures OnChars(s, raw).Running? ==> IsAt(OnChars(s, raw).state, front + [Chars(raw)])
  {
    OneMoreEvent(front, Chars(raw));
    assert Texts(front) + [] == Texts(front);
    hide OnValue, TextValue, Trim, HasReferences, HasParties, LastText, OpenAfter, Texts, FirstRoot;
    if s.path != [] && ValueOf(raw) != "" {
      ValueKeepsTheRest(s, ValueOf(raw));
      ValueSetsReferences(s, ValueOf(raw), Texts(front));
      ValueSetsParties(s, ValueOf(raw), Texts(front));
    }
  }

  lemma TagKeepsHeader(s: State, event: Event<Elem>)
    requires !event.Chars?
    ensures
      var m := Step(Running(s), event);
      m.Running? ==>
        && m.state.nameFromLegal == s.nameFromLegal
        && m.state.invoice.(lines := [], isCreditNote := false) == s.invoice.(lines := [], isCreditNote := false)
        && m.state.path == PathStep(s.path, event)
        && m.state.rootSeen == (s.rootSeen || (event.Start? && event.name in {Invoice, CreditNote}))
        && m.state.invoice.isCreditNote
           == (s.invoice.isCreditNote || (!s.rootSeen && event == Start(CreditNote)))
  {
  }

  lemma SameHeader(a: ReceivedInvoice, b: ReceivedInvoice, texts: seq<(Path, string)>)
    requires a.(lines := [], isCreditNote := false) == b.(lines := [], isCreditNote := false)
    ensures HasReferences(a, texts) == HasReferences(b, texts) && HasParties(a, texts) == HasParties(b, texts)
  {
    hide LastText, FirstNumber, TextOr, IsDateOf;
  }

  lemma TagsLeadOn(front: Stream, s: State, event: Event<Elem>)
    requires IsAt(s, front) && !event.Chars?
    ensures Step(Running(s), event).Running? ==> IsAt(Step(Running(s), event).state, front + [event])
  {
    OneMoreEvent(front, event);
    assert Texts(front) + [] == Texts(front);
    TagKeepsHeader(s, event);
    hide Step, HasReferences, HasParties, LastText, OpenAfter, Texts, FirstRoot, ValueOf;
    if Step(Running(s), event).Running? {
      SameHeader(s.invoice, Step(Running(s), event).state.invoice, Texts(front));
    }
  }

  lemma {:induction false} MachineFollows(events: Stream)
    ensures Run(events).Running? ==> IsAt(Run(events).state, events)
  {
    hide IsAt, Step, OnChars;
    if events == [] {
      NothingRead();
    } else {
      var front, event := events[..|events| - 1], events[|events| - 1];
      assert events == front + [event];
      MachineFollows(front);
      if Run(front).Failed? {
        FailsOn(front, event);
      } else if event.Chars? {
        CharsStep(Run(front).state, event.raw);
        CharsLeadOn(front, Run(front).state, event.raw);
      } else {
        TagsLeadOn(front, Run(front).state, event);
      }
    }
  }

  lemma NothingRead()
    ensures IsAt(INITIAL, [])
  {
  }

  lemma FailsOn(front: Stream, event: Event<Elem>)
    requires Run(front).Failed?
    ensures Step(Run(front), event).Failed?
  {
  }

  /** Every document that is read, whatever wrote it. It is a credit note if the first of
      its elements that names a document says so. Number, dates, currency, KID and
      account number are the last texts in their places. The seller is called by the last
      registered name, or else the last party name; and each party has the first number
      of nine digits that stands in one of the three places for it. */
  lemma HeaderIsWhatItsTextsSay(events: Stream)
    ensures Finish(Run(events)).Ok? ==>
      var invoice, texts := Finish(Run(events)).value, Texts(events);
      && FirstRoot(events).Some? && invoice.isCreditNote == (FirstRoot(events) == Some(CreditNote))
      && HasReferences(invoice, texts) && HasParties(invoice, texts)
    ensures FirstRoot(events) == None ==> Finish(Run(events)).Err?
  {
    hide Run, LastText, FirstNumber;
    MachineFollows(events);
  }

  // ---------- What cannot be read ----------

  /** The amounts that are read as they come; the two fallbacks only while there is
      nothing yet, and a net outside lines is one of them. */
  predicate IsAmountWanted(s: State)
    requires s.path != []
  {
    var leaf := s.path[|s.path| - 1];
    || leaf in {TaxExclusiveAmount, PayableAmount}
    || IsBelow(s.path, TaxTotal, TaxAmount)
    || (leaf == LineExtensionAmount && (s.inLine || s.invoice.netOre == 0))
    || (leaf == TaxInclusiveAmount && s.invoice.grossOre == 0)
  }

  lemma AmountFields(s: State)
    requires s.path != []
    ensures WantsAmount(s.invoice, FieldAt(s.path, s.inLine)) <==> IsAmountWanted(s)
    ensures FieldAt(s.path, s.inLine) == LinePercent <==> s.inLine && s.path[|s.path| - 1] == Percent
  {
    TailOfTwo(s.path, TaxTotal, TaxAmount);
    hide EndsWith;
  }

  /** A text ends the reading if and only if it stands for a date, an amount or a line's
      rate and is none; and the error shows it. */
  lemma RefusedIff(s: State, value: string)
    requires s.path != []
    ensures OnValue(s, value) == Failed(BadDate(value))
       <==> (IsInvoiceDate(s.path) || IsDueDate(s.path)) && ParseIso(value) == None
    ensures OnValue(s, value) == Failed(BadAmount(value)) <==> IsAmountWanted(s) && Amount(value) == None
    ensures OnValue(s, value) == Failed(Panic)
       <==> s.inLine && s.path[|s.path| - 1] == Percent && PercentBp(value) == Err(Panic)
    ensures OnValue(s, value).Failed? ==> OnValue(s, value).error in {BadDate(value), BadAmount(value), Panic}
  {
    TopFields(s.path, s.inLine);
    AmountFields(s);
    OnlyPanics(value);
    hide FieldAt, Amount, PercentBp, ParseIso, SetText, SetAmount, SetDate, IsAmountWanted, IsInvoiceDate, IsDueDate;
  }

  lemma OnlyPanics(value: string)
    ensures PercentBp(value).Err? ==> PercentBp(value) == Err(Panic)
  {
  }

  // ---------- Organisation numbers ----------

  predicate HasNoDigit(s: string) {
    forall c | c in s :: !('0' <= c <= '9')
  }

  /** Nine digits at the end of a text, however they are wrapped, are its number. */
  lemma NumberIsTheLastNineDigits(before: string, nine: string, after: string)
    requires |nine| == 9 && (forall c | c in nine :: '0' <= c <= '9') && HasNoDigit(after)
    ensures OrgnumberOf(before + nine + after) == Some(nine)
  {
    var digits := Filter(IsDigit, before) + nine;
    FilterBoth(IsDigit, before, nine);
    FilterBoth(IsDigit, before + nine, after);
    FilterAll(IsDigit, nine);
    FilterNone(IsDigit, after);
    assert digits + [] == digits;
    assert digits[|digits| - 9..] == nine;
  }

  lemma {:induction false} FilterBoth(p: char -> bool, a: string, b: string)
    ensures Filter(p, a + b) == Filter(p, a) + Filter(p, b)
  {
    if b == [] {
      assert a + b == a && Filter(p, a) + [] == Filter(p, a);
    } else {
      var front, last := b[..|b| - 1], b[|b| - 1];
      assert a + b == a + front + [last] && b == front + [last];
      FilterBoth(p, a, front);
      FilterOne(p, a + front, last);
      FilterOne(p, front, last);
      Regroup(Filter(p, a), Filter(p, front), if p(last) then [last] else []);
    }
  }

  lemma {:induction false} FilterAll(p: char -> bool, s: string)
    requires forall c | c in s :: p(c)
    ensures Filter(p, s) == s
  {
    if s != [] {
      FilterAll(p, s[..|s| - 1]);
      FilterOne(p, s[..|s| - 1], s[|s| - 1]);
      assert s == s[..|s| - 1] + [s[|s| - 1]];
    }
  }
}
