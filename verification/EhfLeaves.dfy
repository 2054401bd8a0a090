/** What a rendered document says, read off its stream of tags and texts: every text with
    the path of the elements it stands in. */
module EhfLeaves {
  import opened Wrappers
  import opened Decimal
  import opened Calendar
  import opened Xml
  import opened Sums
  import opened Ubl
  import opened Ehf

  type Path = seq<Elem>

  function PathStep(path: Path, event: Event<Elem>): Path {
    if event.Start? then path + [event.name]
    else if event.End? && path != [] then path[..|path| - 1]
    else path
  }

  /** The elements open at the end of a stream, outermost first. */
  function OpenAfter(out: Stream): Path {
    if out == [] then [] else PathStep(OpenAfter(out[..|out| - 1]), out[|out| - 1])
  }

  /** The texts of a stream in order, unescaped, each with its path. */
  function Leaves(out: Stream): seq<(Path, string)> {
    if out == [] then []
    else
      var front, last := out[..|out| - 1], out[|out| - 1];
      Leaves(front) + if last.Chars? && Unescape(last.raw).Some? then [(OpenAfter(front), Unescape(last.raw).value)]
        else []
  }

  // ---------- What each writer adds ----------

  /** `after` is `before` with some leaves more, at the same place. */
  predicate Adds(before: Stream, after: Stream, leaves: seq<(Path, string)>) {
    Leaves(after) == Leaves(before) + leaves && OpenAfter(after) == OpenAfter(before)
  }

  lemma AddsTwice(a: Stream, b: Stream, c: Stream, first: seq<(Path, string)>, second: seq<(Path, string)>)
    requires Adds(a, b, first) && Adds(b, c, second)
    ensures Adds(a, c, first + second)
  {
    Regroup(Leaves(a), first, second);
  }

  lemma OneEvent(out: Stream, event: Event<Elem>)
    ensures OpenAfter(out + [event]) == PathStep(OpenAfter(out), event)
    ensures Leaves(out + [event])
         == Leaves(out) + if event.Chars? && Unescape(event.raw).Some? then [(OpenAfter(out),
                                                                              Unescape(event.raw).value)] else []
  {
    assert (out + [event])[..|out|] == out;
  }

  lemma LeafAdds(out: Stream, tag: Elem, value: string)
    ensures Adds(out, Leaf(out, tag, value), [(OpenAfter(out) + [tag], value)])
  {
    hide Unescape, Esc;
    var o1 := out + [Start(tag)];
    var o2 := o1 + [Chars(Esc(value))];
    assert Leaf(out, tag, value) == o2 + [End(tag)];
    OneEvent(out, Start(tag));
    OneEvent(o1, Chars(Esc(value)));
    OneEvent(o2, End(tag));
    UnescapeEsc(value);
    hide Leaves, OpenAfter;
    assert OpenAfter(o2)[..|OpenAfter(o2)| - 1] == OpenAfter(out);
    assert Leaves(out) + [] == Leaves(out);
    var leaf := [(OpenAfter(out) + [tag], value)];
    assert Leaves(out) + leaf + [] == Leaves(out) + leaf;
  }

  /** An element around what was written inside it. */
  lemma ElementAdds(out: Stream, tag: Elem, inside: Stream, leaves: seq<(Path, string)>)
    requires Adds(Open(out, tag), inside, leaves)
    ensures Adds(out, Close(inside, tag), leaves)
  {
    OneEvent(out, Start(tag));
    OneEvent(inside, End(tag));
    hide Leaves, OpenAfter;
    assert (OpenAfter(out) + [tag])[..|OpenAfter(out)|] == OpenAfter(out);
    assert Leaves(out) + [] == Leaves(out);
    assert Leaves(inside) + [] == Leaves(inside);
  }

  lemma OpenedAt(out: Stream, tag: Elem)
    ensures OpenAfter(Open(out, tag)) == OpenAfter(out) + [tag]
  {
    OneEvent(out, Start(tag));
  }

  function Maybe(path: Path, value: Option<string>): seq<(Path, string)> {
    match value
    case Some(text) => [(path, text)]
    case None => []
  }

  lemma OptLeafAdds(out: Stream, tag: Elem, value: Option<string>)
    ensures Adds(out, OptLeaf(out, tag, value), Maybe(OpenAfter(out) + [tag], value))
  {
    hide Leaf, Leaves, OpenAfter;
    if value.Some? {
      LeafAdds(out, tag, value.value);
    } else {
      assert Leaves(out) + [] == Leaves(out);
    }
  }

  /** An element with one leaf in it. */
  lemma WrappedLeafAdds(out: Stream, tag: Elem, leaf: Elem, value: string)
    ensures Adds(out, Close(Leaf(Open(out, tag), leaf, value), tag), [(OpenAfter(out) + [tag, leaf], value)])
  {
    hide Leaf, Open, Close, Leaves, OpenAfter;
    OpenedAt(out, tag);
    LeafAdds(Open(out, tag), leaf, value);
    assert OpenAfter(out) + [tag] + [leaf] == OpenAfter(out) + [tag, leaf];
    ElementAdds(out, tag, Leaf(Open(out, tag), leaf, value), [(OpenAfter(out) + [tag, leaf], value)]);
  }

  lemma NothingAdds(out: Stream)
    ensures Adds(out, out, [])
  {
    hide Leaves, OpenAfter;
    assert Leaves(out) + [] == Leaves(out);
  }

  // ---------- A party ----------

  lemma PartyIdsSay(out: Stream, part: Part)
    ensures
      var p := OpenAfter(out);
      Adds(out, PartyIds(out, part),
           [(p + [EndpointID], part.orgnumber), (p + [PartyIdentification, ID], part.orgnumber),
            (p + [PartyName, Name], part.name)])
  {
    hide Leaf, Open, Close, Leaves, OpenAfter, Adds;
    var o1 := Leaf(out, EndpointID, part.orgnumber);
    var o2 := Close(Leaf(Open(o1, PartyIdentification), ID, part.orgnumber), PartyIdentification);
    LeafAdds(out, EndpointID, part.orgnumber);
    WrappedLeafAdds(o1, PartyIdentification, ID, part.orgnumber);
    WrappedLeafAdds(o2, PartyName, Name, part.name);
    var p := OpenAfter(out);
    var a, b, c := (p + [EndpointID], part.orgnumber), (p + [PartyIdentification, ID], part.orgnumber),
      (p + [PartyName, Name], part.name);
    SamePlace(out, o1, [a]);
    SamePlace(o1, o2, [b]);
    AddsThrice(out, o1, o2, PartyIds(out, part), [a], [b], [c]);
    assert [a] + [b] + [c] == [a, b, c];
  }

  lemma SamePlace(a: Stream, b: Stream, leaves: seq<(Path, string)>)
    requires Adds(a, b, leaves)
    ensures OpenAfter(b) == OpenAfter(a)
  {
  }

  lemma AddsThrice(a: Stream, b: Stream, c: Stream, d: Stream, first: seq<(Path, string)>, second: seq<(Path, string)>,
                   third: seq<(Path, string)>)
    requires Adds(a, b, first) && Adds(b, c, second) && Adds(c, d, third)
    ensures Adds(a, d, first + second + third)
  {
    hide Adds;
    AddsTwice(a, b, c, first, second);
    AddsTwice(a, c, d, first + second, third);
  }

  lemma PartyAddressSays(out: Stream, part: Part)
    ensures
      var p := OpenAfter(out);
      Adds(out, PartyAddress(out, part),
           Maybe(p + [PostalAddress, StreetName], part.address) + Maybe(p + [PostalAddress, CityName], part.postalCity)
           + Maybe(p + [PostalAddress, PostalZone], part.postalCode)
           + [(p + [PostalAddress, Country, IdentificationCode], part.land)])
  {
    hide Leaf, OptLeaf, Open, Close, Leaves, OpenAfter, Adds, Maybe;
    var p := OpenAfter(out);
    var q := p + [PostalAddress];
    assert q + [StreetName] == p + [PostalAddress, StreetName] && q + [CityName] == p + [PostalAddress, CityName];
    assert q + [PostalZone] == p + [PostalAddress, PostalZone];
    assert q + [Country, IdentificationCode] == p + [PostalAddress, Country, IdentificationCode];
    var o0 := Open(out, PostalAddress);
    var o1 := OptLeaf(o0, StreetName, part.address);
    var o2 := OptLeaf(o1, CityName, part.postalCity);
    var o3 := OptLeaf(o2, PostalZone, part.postalCode);
    var o4 := Close(Leaf(Open(o3, Country), IdentificationCode, part.land), Country);
    var a, b, c := Maybe(q + [StreetName], part.address), Maybe(q + [CityName], part.postalCity),
      Maybe(q + [PostalZone], part.postalCode);
    OpenedAt(out, PostalAddress);
    OptLeafAdds(o0, StreetName, part.address);
    SamePlace(o0, o1, a);
    OptLeafAdds(o1, CityName, part.postalCity);
    SamePlace(o1, o2, b);
    OptLeafAdds(o2, PostalZone, part.postalCode);
    SamePlace(o2, o3, c);
    WrappedLeafAdds(o3, Country, IdentificationCode, part.land);
    AddsThrice(o0, o1, o2, o3, a, b, c);
    AddsTwice(o0, o3, o4, a + b + c, [(q + [Country, IdentificationCode], part.land)]);
    ElementAdds(out, PostalAddress, o4, a + b + c + [(q + [Country, IdentificationCode], part.land)]);
  }

  lemma VatSchemeSays(out: Stream)
    ensures Adds(out, VatScheme(out), [(OpenAfter(out) + [TaxScheme, ID], "VAT")])
  {
    WrappedLeafAdds(out, TaxScheme, ID, "VAT");
    hide Adds, Leaf, Open, Close, Leaves, OpenAfter;
  }

  lemma PartyVatSays(out: Stream, part: Part)
    ensures
      var p := OpenAfter(out);
      Adds(out, PartyVat(out, part),
           if part.vatRegistered then [(p + [PartyTaxScheme, CompanyID], "NO" + part.orgnumber + "MVA"),
                                       (p + [PartyTaxScheme, TaxScheme, ID], "VAT")]
           else [])
  {
    hide Leaf, Open, Close, Leaves, OpenAfter, Adds, VatScheme;
    if part.vatRegistered {
      var p, id := OpenAfter(out), "NO" + part.orgnumber + "MVA";
      var q := p + [PartyTaxScheme];
      assert q + [CompanyID] == p + [PartyTaxScheme, CompanyID];
      assert q + [TaxScheme, ID] == p + [PartyTaxScheme, TaxScheme, ID];
      var o0 := Open(out, PartyTaxScheme);
      var o1 := Leaf(o0, CompanyID, id);
      OpenedAt(out, PartyTaxScheme);
      LeafAdds(o0, CompanyID, id);
      SamePlace(o0, o1, [(q + [CompanyID], id)]);
      VatSchemeSays(o1);
      AddsTwice(o0, o1, VatScheme(o1), [(q + [CompanyID], id)], [(q + [TaxScheme, ID], "VAT")]);
      ElementAdds(out, PartyTaxScheme, VatScheme(o1), [(q + [CompanyID], id)] + [(q + [TaxScheme, ID], "VAT")]);
      assert [(q + [CompanyID], id)] + [(q + [TaxScheme, ID], "VAT")]
        == [(q + [CompanyID], id), (q + [TaxScheme, ID], "VAT")];
    } else {
      NothingAdds(out);
    }
  }

  lemma PartyLegalSays(out: Stream, part: Part)
    ensures
      var p := OpenAfter(out);
      Adds(out, PartyLegal(out, part),
           [(p + [PartyLegalEntity, RegistrationName], part.name), (p + [PartyLegalEntity, CompanyID], part.orgnumber)])
  {
    hide Leaf, Open, Close, Leaves, OpenAfter, Adds;
    var p := OpenAfter(out);
    var q := p + [PartyLegalEntity];
    assert q + [RegistrationName] == p + [PartyLegalEntity, RegistrationName];
    assert q + [CompanyID] == p + [PartyLegalEntity, CompanyID];
    var o0 := Open(out, PartyLegalEntity);
    var o1 := Leaf(o0, RegistrationName, part.name);
    var o2 := Leaf(o1, CompanyID, part.orgnumber);
    var a, b := [(q + [RegistrationName], part.name)], [(q + [CompanyID], part.orgnumber)];
    OpenedAt(out, PartyLegalEntity);
    LeafAdds(o0, RegistrationName, part.name);
    SamePlace(o0, o1, a);
    LeafAdds(o1, CompanyID, part.orgnumber);
    AddsTwice(o0, o1, o2, a, b);
    ElementAdds(out, PartyLegalEntity, o2, a + b);
    assert a + b == [a[0], b[0]];
  }

  lemma PartyContactSays(out: Stream, part: Part)
    ensures Adds(out, PartyContact(out, part), Maybe(OpenAfter(out) + [Contact, ElectronicMail], part.email))
  {
    hide Leaf, Open, Close, Leaves, OpenAfter, Adds;
    if part.email.Some? {
      WrappedLeafAdds(out, Contact, ElectronicMail, part.email.value);
    } else {
      NothingAdds(out);
    }
  }

  /** What a party at `p` says. */
  function PartyLeaves(p: Path, part: Part): seq<(Path, string)> {
    [(p + [EndpointID], part.orgnumber), (p + [PartyIdentification, ID], part.orgnumber),
     (p + [PartyName, Name], part.name)]
    + (Maybe(p + [PostalAddress, StreetName], part.address) + Maybe(p + [PostalAddress, CityName], part.postalCity)
       + Maybe(p + [PostalAddress, PostalZone], part.postalCode)
       + [(p + [PostalAddress, Country, IdentificationCode], part.land)])
    + (if part.vatRegistered then [(p + [PartyTaxScheme, CompanyID], "NO" + part.orgnumber + "MVA"),
                                   (p + [PartyTaxScheme, TaxScheme, ID], "VAT")]
       else [])
    + [(p + [PartyLegalEntity, RegistrationName], part.name), (p + [PartyLegalEntity, CompanyID], part.orgnumber)]
    + Maybe(p + [Contact, ElectronicMail], part.email)
  }

  lemma PartySays(out: Stream, wrapper: Elem, part: Part)
    ensures Adds(out, PartyStream(out, wrapper, part), PartyLeaves(OpenAfter(out) + [wrapper, Party], part))
  {
    hide Open, Close, Leaves, OpenAfter, Adds, Maybe, PartyIds, PartyAddress, PartyVat, PartyLegal, PartyContact;
    var q := OpenAfter(out) + [wrapper, Party];
    var oo := Open(out, wrapper);
    var o0 := Open(oo, Party);
    OpenedAt(out, wrapper);
    OpenedAt(oo, Party);
    assert OpenAfter(out) + [wrapper] + [Party] == q;
    var o1 := PartyIds(o0, part);
    var o2 := PartyAddress(o1, part);
    var o3 := PartyVat(o2, part);
    var o4 := PartyLegal(o3, part);
    var o5 := PartyContact(o4, part);
    PartyIdsSay(o0, part);
    var a := [(q + [EndpointID], part.orgnumber), (q + [PartyIdentification, ID], part.orgnumber),
              (q + [PartyName, Name], part.name)];
    SamePlace(o0, o1, a);
    PartyAddressSays(o1, part);
    var b := Maybe(q + [PostalAddress, StreetName], part.address)
      + Maybe(q + [PostalAddress, CityName], part.postalCity)
           + Maybe(q + [PostalAddress, PostalZone], part.postalCode)
           + [(q + [PostalAddress, Country, IdentificationCode], part.land)];
    SamePlace(o1, o2, b);
    PartyVatSays(o2, part);
    var c := if part.vatRegistered then [(q + [PartyTaxScheme, CompanyID], "NO" + part.orgnumber + "MVA"),
                                   (q + [PartyTaxScheme, TaxScheme, ID], "VAT")] else [];
    SamePlace(o2, o3, c);
    PartyLegalSays(o3, part);
    var d := [(q + [PartyLegalEntity, RegistrationName], part.name),
              (q + [PartyLegalEntity, CompanyID], part.orgnumber)];
    SamePlace(o3, o4, d);
    PartyContactSays(o4, part);
    AddsThrice(o0, o1, o2, o3, a, b, c);
    AddsThrice(o0, o3, o4, o5, a + b + c, d, Maybe(q + [Contact, ElectronicMail], part.email));
    ElementAdds(oo, Party, o5, PartyLeaves(q, part));
    ElementAdds(out, wrapper, Close(o5, Party), PartyLeaves(q, part));
  }

  // ---------- The rest of the document ----------

  lemma OpeningSays(out: Stream, doc: Document)
    ensures
      var p := OpenAfter(out);
      Adds(out, Leaf(Leaf(Leaf(Leaf(out, CustomizationID, CUSTOMIZATION_ID), ProfileID, PROFILE_ID), ID,
                          doc.invoiceNumber),
                     IssueDate, IsoString(doc.invoiceDate)),
           [(p + [CustomizationID], "urn:cen.eu:en16931:2017#compliant#urn:fdc:peppol.eu:2017:poacc:billing:3.0"),
            (p + [ProfileID], "urn:fdc:peppol.eu:2017:poacc:billing:01:1.0"),
            (p + [ID], doc.invoiceNumber), (p + [IssueDate], IsoString(doc.invoiceDate))])
  {
    hide Leaf, Leaves, OpenAfter, Adds, IsoString;
    var p := OpenAfter(out);
    var a, b, c, d := (p + [CustomizationID], CUSTOMIZATION_ID), (p + [ProfileID], PROFILE_ID),
      (p + [ID], doc.invoiceNumber),
                      (p + [IssueDate], IsoString(doc.invoiceDate));
    var o1 := Leaf(out, CustomizationID, CUSTOMIZATION_ID);
    var o2 := Leaf(o1, ProfileID, PROFILE_ID);
    var o3 := Leaf(o2, ID, doc.invoiceNumber);
    var o4 := Leaf(o3, IssueDate, IsoString(doc.invoiceDate));
    LeafAdds(out, CustomizationID, CUSTOMIZATION_ID);
    SamePlace(out, o1, [a]);
    LeafAdds(o1, ProfileID, PROFILE_ID);
    SamePlace(o1, o2, [b]);
    LeafAdds(o2, ID, doc.invoiceNumber);
    SamePlace(o2, o3, [c]);
    LeafAdds(o3, IssueDate, IsoString(doc.invoiceDate));
    AddsThrice(out, o1, o2, o3, [a], [b], [c]);
    AddsTwice(out, o3, o4, [a] + [b] + [c], [d]);
    assert [a] + [b] + [c] + [d] == [a, b, c, d];
  }

  lemma BillingReferenceSays(out: Stream, doc: Document)
    ensures Adds(out, BillingReferenceStream(out, doc),
                 Maybe(OpenAfter(out) + [BillingReference, InvoiceDocumentReference, ID], doc.krediterer))
  {
    hide Leaf, Open, Close, Leaves, OpenAfter, Adds;
    if doc.krediterer.Some? {
      var p := OpenAfter(out);
      OpenedAt(out, BillingReference);
      WrappedLeafAdds(Open(out, BillingReference), InvoiceDocumentReference, ID, doc.krediterer.value);
      assert p + [BillingReference] + [InvoiceDocumentReference, ID] == p
        + [BillingReference, InvoiceDocumentReference, ID];
      ElementAdds(out, BillingReference,
                  Close(Leaf(Open(Open(out, BillingReference), InvoiceDocumentReference), ID, doc.krediterer.value),
                        InvoiceDocumentReference),
                  [(p + [BillingReference, InvoiceDocumentReference, ID], doc.krediterer.value)]);
    } else {
      NothingAdds(out);
    }
  }

  lemma HeaderSays(out: Stream, doc: Document)
    ensures
      var p := OpenAfter(out);
      Adds(out, HeaderStream(out, doc),
           [(p + [CustomizationID], "urn:cen.eu:en16931:2017#compliant#urn:fdc:peppol.eu:2017:poacc:billing:3.0"),
            (p + [ProfileID], "urn:fdc:peppol.eu:2017:poacc:billing:01:1.0"),
            (p + [ID], doc.invoiceNumber), (p + [IssueDate], IsoString(doc.invoiceDate))]
           + (if doc.documentType.InvoiceDocument?
              && doc.dueDate.Some? then [(p + [DueDate], IsoString(doc.dueDate.value))] else [])
           + [if doc.documentType.InvoiceDocument? then (p + [InvoiceTypeCode], "380")
              else (p + [CreditNoteTypeCode], "381")]
           + [(p + [DocumentCurrencyCode], doc.currency)] + Maybe(p + [BuyerReference], doc.buyerReference)
           + Maybe(p + [BillingReference, InvoiceDocumentReference, ID], doc.krediterer))
  {
    var p := OpenAfter(out);
    var o1 := Leaf(Leaf(Leaf(Leaf(out, CustomizationID, CUSTOMIZATION_ID), ProfileID, PROFILE_ID), ID,
                        doc.invoiceNumber),
                   IssueDate, IsoString(doc.invoiceDate));
    hide Leaf, OptLeaf, Leaves, OpenAfter, Adds, IsoString, BillingReferenceStream;
    OpeningSays(out, doc);
    var a :| Adds(out, o1, a) && a ==
           [(p + [CustomizationID], "urn:cen.eu:en16931:2017#compliant#urn:fdc:peppol.eu:2017:poacc:billing:3.0"),
            (p + [ProfileID], "urn:fdc:peppol.eu:2017:poacc:billing:01:1.0"),
            (p + [ID], doc.invoiceNumber), (p + [IssueDate], IsoString(doc.invoiceDate))];
    SamePlace(out, o1, a);
    var due := if doc.documentType.InvoiceDocument? then OptDate(doc.dueDate) else None;
    var o2 := OptLeaf(o1, DueDate, due);
    OptLeafAdds(o1, DueDate, due);
    var b := Maybe(p + [DueDate], due);
    SamePlace(o1, o2, b);
    var (tag, code) := if doc.documentType.InvoiceDocument? then (InvoiceTypeCode, "380")
      else (CreditNoteTypeCode, "381");
    var o3 := Leaf(o2, tag, code);
    LeafAdds(o2, tag, code);
    var c := [(p + [tag], code)];
    SamePlace(o2, o3, c);
    var o4 := Leaf(o3, DocumentCurrencyCode, doc.currency);
    LeafAdds(o3, DocumentCurrencyCode, doc.currency);
    var d := [(p + [DocumentCurrencyCode], doc.currency)];
    SamePlace(o3, o4, d);
    var o5 := OptLeaf(o4, BuyerReference, doc.buyerReference);
    OptLeafAdds(o4, BuyerReference, doc.buyerReference);
    var e := Maybe(p + [BuyerReference], doc.buyerReference);
    SamePlace(o4, o5, e);
    BillingReferenceSays(o5, doc);
    AddsThrice(out, o1, o2, o3, a, b, c);
    AddsThrice(out, o3, o4, o5, a + b + c, d, e);
    AddsTwice(out, o5, BillingReferenceStream(o5, doc), a + b + c + d + e,
              Maybe(p + [BillingReference, InvoiceDocumentReference, ID], doc.krediterer));
  }

  lemma DeliveryPlaceSays(out: Stream, place: Option<string>)
    ensures Adds(out, DeliveryPlaceStream(out, place),
                 Maybe(OpenAfter(out) + [DeliveryLocation, Address, StreetName], place))
  {
    hide Leaf, Open, Close, Leaves, OpenAfter, Adds;
    if place.Some? {
      var p := OpenAfter(out);
      OpenedAt(out, DeliveryLocation);
      WrappedLeafAdds(Open(out, DeliveryLocation), Address, StreetName, place.value);
      assert p + [DeliveryLocation] + [Address, StreetName] == p + [DeliveryLocation, Address, StreetName];
      ElementAdds(out, DeliveryLocation, Close(Leaf(Open(Open(out, DeliveryLocation), Address), StreetName,
                                                    place.value), Address),
                  [(p + [DeliveryLocation, Address, StreetName], place.value)]);
    } else {
      NothingAdds(out);
    }
  }

  lemma DeliverySays(out: Stream, doc: Document)
    ensures
      var p := OpenAfter(out) + [Delivery];
      Adds(out, DeliveryStream(out, doc),
           (if doc.deliveryDate.Some? then [(p + [ActualDeliveryDate], IsoString(doc.deliveryDate.value))] else [])
           + Maybe(p + [DeliveryLocation, Address, StreetName], doc.deliveryPlace))
  {
    hide OptLeaf, Open, Close, Leaves, OpenAfter, Adds, IsoString, DeliveryPlaceStream;
    var p := OpenAfter(out) + [Delivery];
    if doc.deliveryDate == None && doc.deliveryPlace == None {
      NothingAdds(out);
      var nothing: seq<(Path, string)> := [];
      assert nothing + Maybe(p + [DeliveryLocation, Address, StreetName], doc.deliveryPlace) == nothing;
    } else {
      var o0 := Open(out, Delivery);
      var o1 := OptLeaf(o0, ActualDeliveryDate, OptDate(doc.deliveryDate));
      var o2 := DeliveryPlaceStream(o1, doc.deliveryPlace);
      var a, b := Maybe(p + [ActualDeliveryDate], OptDate(doc.deliveryDate)),
        Maybe(p + [DeliveryLocation, Address, StreetName], doc.deliveryPlace);
      OpenedAt(out, Delivery);
      OptLeafAdds(o0, ActualDeliveryDate, OptDate(doc.deliveryDate));
      SamePlace(o0, o1, a);
      DeliveryPlaceSays(o1, doc.deliveryPlace);
      AddsTwice(o0, o1, o2, a, b);
      ElementAdds(out, Delivery, o2, a + b);
    }
  }

  lemma PaymentSays(out: Stream, doc: Document)
    ensures
      var p := OpenAfter(out) + [PaymentMeans];
      Adds(out, PaymentStream(out, doc),
           if doc.documentType.InvoiceDocument? && doc.accountNumber.Some? then
             [(p + [PaymentMeansCode], "30")] + Maybe(p + [PaymentID], doc.kid)
             + [(p + [PayeeFinancialAccount, ID], doc.accountNumber.value)]
           else [])
  {
    hide Leaf, OptLeaf, Open, Close, Leaves, OpenAfter, Adds;
    if doc.documentType.InvoiceDocument? && doc.accountNumber.Some? {
      var p := OpenAfter(out) + [PaymentMeans];
      var o0 := Open(out, PaymentMeans);
      var o1 := Leaf(o0, PaymentMeansCode, "30");
      var o2 := OptLeaf(o1, PaymentID, doc.kid);
      var o3 := Close(Leaf(Open(o2, PayeeFinancialAccount), ID, doc.accountNumber.value), PayeeFinancialAccount);
      var a, b, c := [(p + [PaymentMeansCode], "30")], Maybe(p + [PaymentID], doc.kid),
        [(p + [PayeeFinancialAccount, ID], doc.accountNumber.value)];
      OpenedAt(out, PaymentMeans);
      LeafAdds(o0, PaymentMeansCode, "30");
      SamePlace(o0, o1, a);
      OptLeafAdds(o1, PaymentID, doc.kid);
      SamePlace(o1, o2, b);
      WrappedLeafAdds(o2, PayeeFinancialAccount, ID, doc.accountNumber.value);
      AddsThrice(o0, o1, o2, o3, a, b, c);
      ElementAdds(out, PaymentMeans, o3, a + b + c);
    } else {
      NothingAdds(out);
    }
  }

  lemma CategorySays(out: Stream, wrapper: Elem, key: (string, int))
    ensures
      var p := OpenAfter(out) + [wrapper];
      Adds(out, CategoryStream(out, wrapper, key),
           [(p + [ID], key.0), (p + [Percent], TwoDecimals(key.1)), (p + [TaxScheme, ID], "VAT")])
  {
    hide Leaf, Open, Close, Leaves, OpenAfter, Adds, VatScheme, TwoDecimals;
    var p := OpenAfter(out) + [wrapper];
    var a, b, c := (p + [ID], key.0), (p + [Percent], TwoDecimals(key.1)), (p + [TaxScheme, ID], "VAT");
    var o0 := Open(out, wrapper);
    var o1 := Leaf(o0, ID, key.0);
    var o2 := Leaf(o1, Percent, TwoDecimals(key.1));
    OpenedAt(out, wrapper);
    LeafAdds(o0, ID, key.0);
    SamePlace(o0, o1, [a]);
    LeafAdds(o1, Percent, TwoDecimals(key.1));
    SamePlace(o1, o2, [b]);
    VatSchemeSays(o2);
    AddsThrice(o0, o1, o2, VatScheme(o2), [a], [b], [c]);
    assert [a] + [b] + [c] == [a, b, c];
    ElementAdds(out, wrapper, VatScheme(o2), [a, b, c]);
  }

  /** One tax subtotal at `p`: the net of the lines in the group, their VAT, the category
      and the rate. */
  function SubtotalLeaves(p: Path, net: int, vat: int, category: string, rate: int): seq<(Path, string)> {
    [(p + [TaxableAmount], TwoDecimals(net)), (p + [TaxAmount], TwoDecimals(vat))]
    + [(p + [TaxCategory, ID], category), (p + [TaxCategory, Percent], TwoDecimals(rate)),
       (p + [TaxCategory, TaxScheme, ID], "VAT")]
  }

  lemma SubtotalSays(out: Stream, lines: seq<Line>, key: (string, int))
    ensures
      var p := OpenAfter(out) + [TaxSubtotal];
      Adds(out, SubtotalStream(out, lines, key),
           SubtotalLeaves(p, SumBy((l: Line) => l.netOre, Filter((l: Line) => TaxCategoryOf(l) == key, lines)),
                          SumBy((l: Line) => l.vatOre, Filter((l: Line) => TaxCategoryOf(l) == key, lines)), key.0,
                            key.1))
  {
    hide Leaf, Open, Close, Leaves, OpenAfter, Adds, CategoryStream, TwoDecimals, SumBy, Filter, TaxCategoryOf;
    var p := OpenAfter(out) + [TaxSubtotal];
    var net, vat := NetOf(InGroup(lines, key)), VatOf(InGroup(lines, key));
    var a, b := (p + [TaxableAmount], TwoDecimals(net)), (p + [TaxAmount], TwoDecimals(vat));
    var q := p + [TaxCategory];
    assert q + [ID] == p + [TaxCategory, ID] && q + [Percent] == p + [TaxCategory, Percent]
      && q + [TaxScheme, ID] == p + [TaxCategory, TaxScheme, ID];
    var c := [(q + [ID], key.0), (q + [Percent], TwoDecimals(key.1)), (q + [TaxScheme, ID], "VAT")];
    var o0 := Open(out, TaxSubtotal);
    var o1 := Leaf(o0, TaxableAmount, TwoDecimals(net));
    var o2 := Leaf(o1, TaxAmount, TwoDecimals(vat));
    var o3 := CategoryStream(o2, TaxCategory, key);
    OpenedAt(out, TaxSubtotal);
    LeafAdds(o0, TaxableAmount, TwoDecimals(net));
    SamePlace(o0, o1, [a]);
    LeafAdds(o1, TaxAmount, TwoDecimals(vat));
    SamePlace(o1, o2, [b]);
    CategorySays(o2, TaxCategory, key);
    AddsThrice(o0, o1, o2, o3, [a], [b], c);
    assert [a] + [b] == [a, b];
    ElementAdds(out, TaxSubtotal, o3, [a] + [b] + c);
  }

  lemma TotalsSay(out: Stream, net: int, vat: int)
    ensures
      var p := OpenAfter(out) + [LegalMonetaryTotal];
      Adds(out, TotalsStream(out, net, vat),
           [(p + [LineExtensionAmount], TwoDecimals(net)), (p + [TaxExclusiveAmount], TwoDecimals(net)),
            (p + [TaxInclusiveAmount], TwoDecimals(net + vat)), (p + [PayableAmount], TwoDecimals(net + vat))])
  {
    hide Leaf, Open, Close, Leaves, OpenAfter, Adds, TwoDecimals;
    var p, n, g := OpenAfter(out) + [LegalMonetaryTotal], TwoDecimals(net), TwoDecimals(net + vat);
    var a, b, c, d := (p + [LineExtensionAmount], n), (p + [TaxExclusiveAmount], n), (p + [TaxInclusiveAmount], g),
      (p + [PayableAmount], g);
    var o0 := Open(out, LegalMonetaryTotal);
    var o1 := Leaf(o0, LineExtensionAmount, n);
    var o2 := Leaf(o1, TaxExclusiveAmount, n);
    var o3 := Leaf(o2, TaxInclusiveAmount, g);
    var o4 := Leaf(o3, PayableAmount, g);
    OpenedAt(out, LegalMonetaryTotal);
    LeafAdds(o0, LineExtensionAmount, n);
    SamePlace(o0, o1, [a]);
    LeafAdds(o1, TaxExclusiveAmount, n);
    SamePlace(o1, o2, [b]);
    LeafAdds(o2, TaxInclusiveAmount, g);
    SamePlace(o2, o3, [c]);
    LeafAdds(o3, PayableAmount, g);
    AddsThrice(o0, o1, o2, o3, [a], [b], [c]);
    AddsTwice(o0, o3, o4, [a] + [b] + [c], [d]);
    assert [a] + [b] + [c] + [d] == [a, b, c, d];
    ElementAdds(out, LegalMonetaryTotal, o4, [a, b, c, d]);
  }

  lemma ItemSays(out: Stream, line: Line)
    ensures
      var p := OpenAfter(out) + [Item];
      Adds(out, ItemStream(out, line),
           [(p + [Name], line.description), (p + [ClassifiedTaxCategory, ID], TaxCategoryOf(line).0),
            (p + [ClassifiedTaxCategory, Percent], TwoDecimals(TaxCategoryOf(line).1)),
            (p + [ClassifiedTaxCategory, TaxScheme, ID], "VAT")])
  {
    hide Leaf, Open, Close, Leaves, OpenAfter, Adds, CategoryStream, TwoDecimals, TaxCategoryOf;
    var p, key := OpenAfter(out) + [Item], TaxCategoryOf(line);
    var q := p + [ClassifiedTaxCategory];
    assert q + [ID] == p + [ClassifiedTaxCategory, ID] && q + [Percent] == p + [ClassifiedTaxCategory, Percent];
    assert q + [TaxScheme, ID] == p + [ClassifiedTaxCategory, TaxScheme, ID];
    var a := (p + [Name], line.description);
    var b, c, d := (q + [ID], key.0), (q + [Percent], TwoDecimals(key.1)), (q + [TaxScheme, ID], "VAT");
    var o0 := Open(out, Item);
    var o1 := Leaf(o0, Name, line.description);
    OpenedAt(out, Item);
    LeafAdds(o0, Name, line.description);
    SamePlace(o0, o1, [a]);
    CategorySays(o1, ClassifiedTaxCategory, key);
    AddsTwice(o0, o1, CategoryStream(o1, ClassifiedTaxCategory, key), [a], [b, c, d]);
    assert [a] + [b, c, d] == [a, b, c, d];
    ElementAdds(out, Item, CategoryStream(o1, ClassifiedTaxCategory, key), [a, b, c, d]);
  }

  /** The rate a line is taxed at: none or one that is not positive counts as zero. */
  function RateOf(line: Line): int {
    if line.vatRateBp.Some? && line.vatRateBp.value > 0 then line.vatRateBp.value else 0
  }

  /** What a line at `p` says. */
  function LineLeaves(p: Path, quantityTag: Elem, number: nat, line: Line): seq<(Path, string)> {
    [(p + [ID], ToString(number)), (p + [quantityTag], Quantity(line.quantityMilli)),
     (p + [LineExtensionAmount], TwoDecimals(line.netOre))]
    + [(p + [Item, Name], line.description), (p + [Item, ClassifiedTaxCategory, ID],
                                              if RateOf(line) > 0 then "S" else "Z"),
       (p + [Item, ClassifiedTaxCategory, Percent], TwoDecimals(RateOf(line))),
       (p + [Item, ClassifiedTaxCategory, TaxScheme, ID], "VAT")]
    + [(p + [Price, PriceAmount], TwoDecimals(line.unitPriceOre))]
  }

  lemma LineSays(out: Stream, doc: Document, number: nat, line: Line)
    ensures
      Adds(out, LineStream(out, doc, number, line),
           if doc.documentType.InvoiceDocument?
           then LineLeaves(OpenAfter(out) + [InvoiceLine], InvoicedQuantity, number, line)
           else LineLeaves(OpenAfter(out) + [CreditNoteLine], CreditedQuantity, number, line))
  {
    hide Leaf, Open, Close, Leaves, OpenAfter, Adds, ItemStream, TwoDecimals, Quantity, ToString;
    var tag := LineTag(doc);
    var p := OpenAfter(out) + [tag];
    var q := p + [Item];
    assert q + [Name] == p + [Item, Name] && q + [ClassifiedTaxCategory, ID] == p + [Item, ClassifiedTaxCategory, ID];
    assert q + [ClassifiedTaxCategory, Percent] == p + [Item, ClassifiedTaxCategory, Percent];
    assert q + [ClassifiedTaxCategory, TaxScheme, ID] == p + [Item, ClassifiedTaxCategory, TaxScheme, ID];
    var a, b, c := (p + [ID], ToString(number)), (p + [QuantityTag(doc)], Quantity(line.quantityMilli)),
      (p + [LineExtensionAmount], TwoDecimals(line.netOre));
    var d := [(q + [Name], line.description), (q + [ClassifiedTaxCategory, ID], TaxCategoryOf(line).0),
              (q + [ClassifiedTaxCategory, Percent], TwoDecimals(TaxCategoryOf(line).1)),
                (q + [ClassifiedTaxCategory, TaxScheme, ID], "VAT")];
    var e := [(p + [Price, PriceAmount], TwoDecimals(line.unitPriceOre))];
    var o0 := Open(out, tag);
    var o1 := Leaf(o0, ID, ToString(number));
    var o2 := Leaf(o1, QuantityTag(doc), Quantity(line.quantityMilli));
    var o3 := Leaf(o2, LineExtensionAmount, TwoDecimals(line.netOre));
    var o4 := ItemStream(o3, line);
    var o5 := Close(Leaf(Open(o4, Price), PriceAmount, TwoDecimals(line.unitPriceOre)), Price);
    OpenedAt(out, tag);
    LeafAdds(o0, ID, ToString(number));
    SamePlace(o0, o1, [a]);
    LeafAdds(o1, QuantityTag(doc), Quantity(line.quantityMilli));
    SamePlace(o1, o2, [b]);
    LeafAdds(o2, LineExtensionAmount, TwoDecimals(line.netOre));
    SamePlace(o2, o3, [c]);
    ItemSays(o3, line);
    SamePlace(o3, o4, d);
    WrappedLeafAdds(o4, Price, PriceAmount, TwoDecimals(line.unitPriceOre));
    AddsThrice(o0, o1, o2, o3, [a], [b], [c]);
    assert [a] + [b] + [c] == [a, b, c];
    AddsThrice(o0, o3, o4, o5, [a, b, c], d, e);
    ElementAdds(out, tag, o5, [a, b, c] + d + e);
  }

  // ---------- The whole document ----------

  function NetOfGroup(lines: seq<Line>, key: (string, int)): int {
    SumBy((l: Line) => l.netOre, Filter((l: Line) => TaxCategoryOf(l) == key, lines))
  }

  function VatOfGroup(lines: seq<Line>, key: (string, int)): int {
    SumBy((l: Line) => l.vatOre, Filter((l: Line) => TaxCategoryOf(l) == key, lines))
  }

  function SubtotalsLeaves(p: Path, lines: seq<Line>, keys: seq<(string, int)>): seq<(Path, string)> {
    if keys == [] then []
    else
      var key := keys[|keys| - 1];
      SubtotalsLeaves(p, lines, keys[..|keys| - 1])
      + SubtotalLeaves(p, NetOfGroup(lines, key), VatOfGroup(lines, key), key.0, key.1)
  }

  lemma {:induction false} SubtotalsSay(out: Stream, lines: seq<Line>, keys: seq<(string, int)>)
    ensures Adds(out, SubtotalsStream(out, lines, keys), SubtotalsLeaves(OpenAfter(out) + [TaxSubtotal], lines, keys))
  {
    hide Adds, SubtotalStream, SubtotalLeaves, OpenAfter, SumBy, Filter, TaxCategoryOf;
    if keys == [] {
      NothingAdds(out);
    } else {
      var front, key, p := keys[..|keys| - 1], keys[|keys| - 1], OpenAfter(out) + [TaxSubtotal];
      SubtotalsSay(out, lines, front);
      SamePlace(out, SubtotalsStream(out, lines, front), SubtotalsLeaves(p, lines, front));
      SubtotalSays(SubtotalsStream(out, lines, front), lines, key);
      AddsTwice(out, SubtotalsStream(out, lines, front), SubtotalsStream(out, lines, keys),
                SubtotalsLeaves(p, lines, front),
                SubtotalLeaves(p, NetOfGroup(lines, key), VatOfGroup(lines, key), key.0, key.1));
    }
  }

  lemma TaxTotalSays(out: Stream, lines: seq<Line>)
    ensures
      var p := OpenAfter(out) + [TaxTotal];
      Adds(out, TaxTotalStream(out, lines),
           [(p + [TaxAmount], TwoDecimals(SumBy((l: Line) => l.vatOre, lines)))]
           + SubtotalsLeaves(p + [TaxSubtotal], lines, GroupKeys(lines)))
  {
    hide Leaf, Open, Close, Leaves, OpenAfter, Adds, TwoDecimals, SumBy, GroupKeys, SubtotalsStream, SubtotalsLeaves;
    var p := OpenAfter(out) + [TaxTotal];
    var a, b := [(p + [TaxAmount], TwoDecimals(VatOf(lines)))],
      SubtotalsLeaves(p + [TaxSubtotal], lines, GroupKeys(lines));
    var o0 := Open(out, TaxTotal);
    var o1 := Leaf(o0, TaxAmount, TwoDecimals(VatOf(lines)));
    var o2 := SubtotalsStream(o1, lines, GroupKeys(lines));
    OpenedAt(out, TaxTotal);
    LeafAdds(o0, TaxAmount, TwoDecimals(VatOf(lines)));
    SamePlace(o0, o1, a);
    SubtotalsSay(o1, lines, GroupKeys(lines));
    AddsTwice(o0, o1, o2, a, b);
    ElementAdds(out, TaxTotal, o2, a + b);
  }

  /** The first `n` lines at `p`, numbered from one. */
  function LinesLeaves(p: Path, doc: Document, n: nat): seq<(Path, string)>
    requires n <= |doc.lines|
  {
    if n == 0 then []
    else
      LinesLeaves(p, doc, n - 1)
      + (if doc.documentType.InvoiceDocument? then LineLeaves(p + [InvoiceLine], InvoicedQuantity, n, doc.lines[n - 1])
         else LineLeaves(p + [CreditNoteLine], CreditedQuantity, n, doc.lines[n - 1]))
  }

  lemma {:induction false} LinesSay(out: Stream, doc: Document, n: nat)
    requires n <= |doc.lines|
    ensures Adds(out, LinesStream(out, doc, n), LinesLeaves(OpenAfter(out), doc, n))
  {
    hide Adds, LineStream, LineLeaves, OpenAfter;
    if n == 0 {
      NothingAdds(out);
    } else {
      var p := OpenAfter(out);
      LinesSay(out, doc, n - 1);
      SamePlace(out, LinesStream(out, doc, n - 1), LinesLeaves(p, doc, n - 1));
      LineSays(LinesStream(out, doc, n - 1), doc, n, doc.lines[n - 1]);
      AddsTwice(out, LinesStream(out, doc, n - 1), LinesStream(out, doc, n), LinesLeaves(p, doc, n - 1),
                if doc.documentType.InvoiceDocument? then LineLeaves(p + [InvoiceLine], InvoicedQuantity, n,
                                                                     doc.lines[n - 1])
                else LineLeaves(p + [CreditNoteLine], CreditedQuantity, n, doc.lines[n - 1]));
    }
  }

  function HeaderLeaves(p: Path, doc: Document): seq<(Path, string)> {
    [(p + [CustomizationID], "urn:cen.eu:en16931:2017#compliant#urn:fdc:peppol.eu:2017:poacc:billing:3.0"),
     (p + [ProfileID], "urn:fdc:peppol.eu:2017:poacc:billing:01:1.0"),
     (p + [ID], doc.invoiceNumber), (p + [IssueDate], IsoString(doc.invoiceDate))]
    + (if doc.documentType.InvoiceDocument? && doc.dueDate.Some? then [(p + [DueDate], IsoString(doc.dueDate.value))]
       else [])
    + [if doc.documentType.InvoiceDocument? then (p + [InvoiceTypeCode], "380") else (p + [CreditNoteTypeCode], "381")]
    + [(p + [DocumentCurrencyCode], doc.currency)] + Maybe(p + [BuyerReference], doc.buyerReference)
    + Maybe(p + [BillingReference, InvoiceDocumentReference, ID], doc.krediterer)
  }

  function DeliveryLeaves(p: Path, doc: Document): seq<(Path, string)> {
    (if doc.deliveryDate.Some? then [(p + [ActualDeliveryDate], IsoString(doc.deliveryDate.value))] else [])
    + Maybe(p + [DeliveryLocation, Address, StreetName], doc.deliveryPlace)
  }

  function PaymentLeaves(p: Path, doc: Document): seq<(Path, string)> {
    if doc.documentType.InvoiceDocument? && doc.accountNumber.Some? then
      [(p + [PaymentMeansCode], "30")] + Maybe(p + [PaymentID], doc.kid)
      + [(p + [PayeeFinancialAccount, ID], doc.accountNumber.value)]
    else []
  }

  /** Everything before the amounts. */
  function HeadLeaves(p: Path, doc: Document): seq<(Path, string)> {
    HeaderLeaves(p, doc)
    + PartyLeaves(p + [AccountingSupplierParty, Party], doc.seller)
    + PartyLeaves(p + [AccountingCustomerParty, Party], doc.buyer)
    + DeliveryLeaves(p + [Delivery], doc)
    + PaymentLeaves(p + [PaymentMeans], doc)
  }

  lemma HeadSays(out: Stream, doc: Document) returns (after: Stream)
    ensures after
         == PaymentStream(
              DeliveryStream(
                PartyStream(PartyStream(HeaderStream(out, doc), AccountingSupplierParty, doc.seller),
                            AccountingCustomerParty, doc.buyer),
                doc), doc)
    ensures Adds(out, after, HeadLeaves(OpenAfter(out), doc))
  {
    hide Adds, OpenAfter, Leaves, HeaderStream, PartyStream, DeliveryStream, PaymentStream, PartyLeaves, Maybe,
      IsoString;
    var p := OpenAfter(out);
    var o1 := HeaderStream(out, doc);
    var o2 := PartyStream(o1, AccountingSupplierParty, doc.seller);
    var o3 := PartyStream(o2, AccountingCustomerParty, doc.buyer);
    var o4 := DeliveryStream(o3, doc);
    after := PaymentStream(o4, doc);
    HeaderSays(out, doc);
    var a := HeaderLeaves(p, doc);
    SamePlace(out, o1, a);
    PartySays(o1, AccountingSupplierParty, doc.seller);
    var b := PartyLeaves(p + [AccountingSupplierParty, Party], doc.seller);
    SamePlace(o1, o2, b);
    PartySays(o2, AccountingCustomerParty, doc.buyer);
    var c := PartyLeaves(p + [AccountingCustomerParty, Party], doc.buyer);
    SamePlace(o2, o3, c);
    DeliverySays(o3, doc);
    var d := DeliveryLeaves(p + [Delivery], doc);
    SamePlace(o3, o4, d);
    PaymentSays(o4, doc);
    AddsThrice(out, o1, o2, o3, a, b, c);
    AddsThrice(out, o3, o4, after, a + b + c, d, PaymentLeaves(p + [PaymentMeans], doc));
  }

  /** The tax total, its subtotals, and the totals. */
  function AmountLeaves(p: Path, lines: seq<Line>): seq<(Path, string)> {
    var net, vat := SumBy((l: Line) => l.netOre, lines), SumBy((l: Line) => l.vatOre, lines);
    ([(p + [TaxTotal] + [TaxAmount], TwoDecimals(vat))]
     + SubtotalsLeaves(p + [TaxTotal] + [TaxSubtotal], lines, GroupKeys(lines)))
    + [(p + [LegalMonetaryTotal] + [LineExtensionAmount], TwoDecimals(net)),
       (p + [LegalMonetaryTotal] + [TaxExclusiveAmount], TwoDecimals(net)),
       (p + [LegalMonetaryTotal] + [TaxInclusiveAmount], TwoDecimals(net + vat)),
       (p + [LegalMonetaryTotal] + [PayableAmount], TwoDecimals(net + vat))]
  }

  function DocumentLeaves(doc: Document): seq<(Path, string)> {
    var root := if doc.documentType.InvoiceDocument? then Invoice else CreditNote;
    HeadLeaves([root], doc) + AmountLeaves([root], doc.lines) + LinesLeaves([root], doc, |doc.lines|)
  }

  /** All a document says, in the order it says it: every text with its path, nothing
      else, and every element closed. */
  lemma DocumentSays(doc: Document)
    ensures Leaves(DocumentStream(doc)) == DocumentLeaves(doc)
    ensures OpenAfter(DocumentStream(doc)) == []
  {
    hide Adds, OpenAfter, Leaves, HeaderStream, PartyStream, DeliveryStream, PaymentStream, TaxTotalStream,
      TotalsStream,
         LinesStream, HeadLeaves, LinesLeaves, SubtotalsLeaves, SumBy, TwoDecimals, GroupKeys;
    var root := if doc.documentType.InvoiceDocument? then Invoice else CreditNote;
    var p := [root];
    var o0 := Open([], root);
    OpenedAt([], root);
    NothingOpen();
    assert [] + [root] == p;
    var o1 := HeadSays(o0, doc);
    SamePlace(o0, o1, HeadLeaves(p, doc));
    var o2 := TaxTotalStream(o1, doc.lines);
    TaxTotalSays(o1, doc.lines);
    var a := [(p + [TaxTotal] + [TaxAmount], TwoDecimals(VatOf(doc.lines)))]
           + SubtotalsLeaves(p + [TaxTotal] + [TaxSubtotal], doc.lines, GroupKeys(doc.lines));
    SamePlace(o1, o2, a);
    var o3 := TotalsStream(o2, NetOf(doc.lines), VatOf(doc.lines));
    TotalsSay(o2, NetOf(doc.lines), VatOf(doc.lines));
    var q, n, g := p + [LegalMonetaryTotal], TwoDecimals(NetOf(doc.lines)),
      TwoDecimals(NetOf(doc.lines) + VatOf(doc.lines));
    var b := [(q + [LineExtensionAmount], n), (q + [TaxExclusiveAmount], n), (q + [TaxInclusiveAmount], g),
              (q + [PayableAmount], g)];
    SamePlace(o2, o3, b);
    AddsTwice(o1, o2, o3, a, b);
    var o4 := LinesStream(o3, doc, |doc.lines|);
    LinesSay(o3, doc, |doc.lines|);
    AddsThrice(o0, o1, o3, o4, HeadLeaves(p, doc), a + b, LinesLeaves(p, doc, |doc.lines|));
    ElementAdds([], root, o4, HeadLeaves(p, doc) + (a + b) + LinesLeaves(p, doc, |doc.lines|));
    FromNothing(Close(o4, root), HeadLeaves(p, doc) + (a + b) + LinesLeaves(p, doc, |doc.lines|));
  }

  lemma NothingOpen()
    ensures OpenAfter([]) == [] && Leaves([]) == []
  {
  }

  lemma FromNothing(out: Stream, leaves: seq<(Path, string)>)
    requires Adds([], out, leaves)
    ensures Leaves(out) == leaves && OpenAfter(out) == []
  {
    NothingOpen();
    assert [] + leaves == leaves;
  }
}
