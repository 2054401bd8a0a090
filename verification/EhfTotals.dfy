/** The amounts of a rendered document, read off what it says: the tax subtotals hold what
    their lines hold, and add up to the document's totals. */
module EhfTotals {
  import opened Wrappers
  import opened Decimal
  import opened Sums
  import opened Ubl
  import opened Ehf
  import opened EhfLeaves
  import EhfImport
  import EhfRoundTrip

  /** The texts at one path, in document order. */
  function TextsAt(leaves: seq<(Path, string)>, path: Path): seq<string> {
    if leaves == [] then []
    else
      var last := leaves[|leaves| - 1];
      TextsAt(leaves[..|leaves| - 1], path) + if last.0 == path then [last.1] else []
  }

  lemma {:induction false} TextsAtAppend(a: seq<(Path, string)>, b: seq<(Path, string)>, path: Path)
    ensures TextsAt(a + b, path) == TextsAt(a, path) + TextsAt(b, path)
  {
    if b == [] {
      assert a + b == a && TextsAt(a, path) + [] == TextsAt(a, path);
    } else {
      var front, last := b[..|b| - 1], b[|b| - 1];
      assert (a + b)[..|a + b| - 1] == a + front;
      TextsAtAppend(a, front, path);
      Regroup(TextsAt(a, path), TextsAt(front, path), if last.0 == path then [last.1] else []);
    }
  }

  lemma {:induction false} NoTextsAt(leaves: seq<(Path, string)>, path: Path)
    requires forall i | 0 <= i < |leaves| :: leaves[i].0 != path
    ensures TextsAt(leaves, path) == []
  {
    if leaves != [] {
      NoTextsAt(leaves[..|leaves| - 1], path);
    }
  }

  /** All these leaves stand below the root, in elements of these names. */
  ghost predicate AreUnder(leaves: seq<(Path, string)>, root: Elem, tags: set<Elem>) {
    forall i | 0 <= i < |leaves| :: |leaves[i].0| > 1 && leaves[i].0[0] == root && leaves[i].0[1] in tags
  }

  lemma UnderBoth(a: seq<(Path, string)>, b: seq<(Path, string)>, root: Elem, tags: set<Elem>)
    requires AreUnder(a, root, tags) && AreUnder(b, root, tags)
    ensures AreUnder(a + b, root, tags)
  {
  }

  const HEAD_TAGS := {CustomizationID, ProfileID, ID, IssueDate, DueDate, InvoiceTypeCode, CreditNoteTypeCode,
                      DocumentCurrencyCode, BuyerReference, BillingReference, AccountingSupplierParty,
                      AccountingCustomerParty, Delivery, PaymentMeans}

  lemma HeadIsUnder(root: Elem, doc: Document)
    ensures AreUnder(HeadLeaves([root], doc), root, HEAD_TAGS)
  {
    hide PartyLeaves, DeliveryLeaves, PaymentLeaves, HeaderLeaves, AreUnder;
    HeaderIsUnder(root, doc);
    PartyIsUnder(root, AccountingSupplierParty, doc.seller);
    PartyIsUnder(root, AccountingCustomerParty, doc.buyer);
    PaymentIsUnder(root, doc);
    var h, s, b := HeaderLeaves([root], doc), PartyLeaves([root] + [AccountingSupplierParty, Party], doc.seller),
                   PartyLeaves([root] + [AccountingCustomerParty, Party], doc.buyer);
    var d, m := DeliveryLeaves([root] + [Delivery], doc), PaymentLeaves([root] + [PaymentMeans], doc);
    UnderBoth(h, s, root, HEAD_TAGS);
    UnderBoth(h + s, b, root, HEAD_TAGS);
    UnderBoth(h + s + b, d, root, HEAD_TAGS);
    UnderBoth(h + s + b + d, m, root, HEAD_TAGS);
  }

  lemma HeaderIsUnder(root: Elem, doc: Document)
    ensures AreUnder(HeaderLeaves([root], doc), root, HEAD_TAGS)
  {
  }

  lemma PartyIsUnder(root: Elem, wrapper: Elem, part: Part)
    requires wrapper in HEAD_TAGS
    ensures AreUnder(PartyLeaves([root] + [wrapper, Party], part), root, HEAD_TAGS)
  {
    var p := [root] + [wrapper, Party];
    assert p[0] == root && p[1] == wrapper;
  }

  lemma PaymentIsUnder(root: Elem, doc: Document)
    ensures AreUnder(DeliveryLeaves([root] + [Delivery], doc), root, HEAD_TAGS)
    ensures AreUnder(PaymentLeaves([root] + [PaymentMeans], doc), root, HEAD_TAGS)
  {
  }

  const LINE_TAGS := {InvoiceLine, CreditNoteLine}

  lemma LineIsUnder(root: Elem, tag: Elem, quantityTag: Elem, number: nat, line: Line)
    requires tag in LINE_TAGS
    ensures AreUnder(LineLeaves([root] + [tag], quantityTag, number, line), root, LINE_TAGS)
  {
    hide TwoDecimals, Quantity, ToString;
    var p := [root] + [tag];
    assert p[0] == root && p[1] == tag;
  }

  lemma {:induction false} LinesAreUnder(root: Elem, doc: Document, n: nat)
    requires n <= |doc.lines|
    ensures AreUnder(LinesLeaves([root], doc, n), root, LINE_TAGS)
  {
    hide LineLeaves;
    if n > 0 {
      LinesAreUnder(root, doc, n - 1);
      var (tag, quantityTag) := if doc.documentType.InvoiceDocument? then (InvoiceLine, InvoicedQuantity)
                                else (CreditNoteLine, CreditedQuantity);
      LineIsUnder(root, tag, quantityTag, n, doc.lines[n - 1]);
      UnderBoth(LinesLeaves([root], doc, n - 1), LineLeaves([root] + [tag], quantityTag, n, doc.lines[n - 1]), root,
                LINE_TAGS);
    }
  }

  lemma NothingElsewhere(leaves: seq<(Path, string)>, root: Elem, tags: set<Elem>, path: Path)
    requires AreUnder(leaves, root, tags) && |path| > 1 && path[1] !in tags
    ensures TextsAt(leaves, path) == []
  {
    NoTextsAt(leaves, path);
  }

  /** Below `TaxTotal` and `LegalMonetaryTotal` a document says what its amounts say. */
  lemma AmountsAreFound(doc: Document, path: Path)
    requires |path| > 1 && path[1] in {TaxTotal, LegalMonetaryTotal}
    ensures
      var root := if doc.documentType.InvoiceDocument? then Invoice else CreditNote;
      TextsAt(Leaves(DocumentStream(doc)), path) == TextsAt(AmountLeaves([root], doc.lines), path)
  {
    var root := if doc.documentType.InvoiceDocument? then Invoice else CreditNote;
    var h, a, l := HeadLeaves([root], doc), AmountLeaves([root], doc.lines), LinesLeaves([root], doc, |doc.lines|);
    hide HeadLeaves, AmountLeaves, LinesLeaves, Leaves, DocumentStream, TextsAt, AreUnder;
    hide HEAD_TAGS, LINE_TAGS;
    AmountTags(path[1]);
    DocumentSays(doc);
    HeadIsUnder(root, doc);
    LinesAreUnder(root, doc, |doc.lines|);
    NothingElsewhere(h, root, HEAD_TAGS, path);
    NothingElsewhere(l, root, LINE_TAGS, path);
    TextsAtAppend(h + a, l, path);
    TextsAtAppend(h, a, path);
    OnlyTheMiddle(TextsAt(a, path));
  }

  lemma AmountTags(tag: Elem)
    requires tag in {TaxTotal, LegalMonetaryTotal}
    ensures tag !in HEAD_TAGS && tag !in LINE_TAGS
  {
  }

  lemma OnlyTheMiddle(texts: seq<string>)
    ensures [] + texts + [] == texts
  {
  }

  // ---------- The subtotals ----------

  /** The four texts of one subtotal at `p`. */
  lemma SubtotalTexts(p: Path, net: int, vat: int, category: string, rate: int)
    ensures
      var leaves := SubtotalLeaves(p, net, vat, category, rate);
      && TextsAt(leaves, p + [TaxableAmount]) == [TwoDecimals(net)]
        && TextsAt(leaves, p + [TaxAmount]) == [TwoDecimals(vat)]
      && TextsAt(leaves, p + [TaxCategory, ID]) == [category]
      && TextsAt(leaves, p + [TaxCategory, Percent]) == [TwoDecimals(rate)]
  {
    hide TwoDecimals;
    var a, b, c, d, e := p + [TaxableAmount], p + [TaxAmount], p + [TaxCategory, ID], p + [TaxCategory, Percent], p
      + [TaxCategory, TaxScheme, ID];
    var n, v, r := TwoDecimals(net), TwoDecimals(vat), TwoDecimals(rate);
    assert SubtotalLeaves(p, net, vat, category, rate) == [(a, n), (b, v), (c, category), (d, r), (e, "VAT")];
    LastNames(p);
    hide SubtotalLeaves;
    FiveTexts((a, n), (b, v), (c, category), (d, r), (e, "VAT"), a);
    FiveTexts((a, n), (b, v), (c, category), (d, r), (e, "VAT"), b);
    FiveTexts((a, n), (b, v), (c, category), (d, r), (e, "VAT"), c);
    FiveTexts((a, n), (b, v), (c, category), (d, r), (e, "VAT"), d);
  }

  lemma LastNames(p: Path)
    ensures
      var a, b, c, d, e := p + [TaxableAmount], p + [TaxAmount], p + [TaxCategory, ID], p + [TaxCategory, Percent], p
        + [TaxCategory, TaxScheme, ID];
      a != b && a != c && a != d && a != e && b != c && b != d && b != e && c != d && c != e && d != e
  {
    var n := |p|;
    assert (p + [TaxableAmount])[n] == TaxableAmount && (p + [TaxAmount])[n] == TaxAmount;
    assert (p + [TaxCategory, ID])[n + 1] == ID && (p + [TaxCategory, Percent])[n + 1] == Percent;
    assert (p + [TaxCategory, TaxScheme, ID])[n + 1] == TaxScheme;
  }

  lemma FiveTexts(a: (Path, string), b: (Path, string), c: (Path, string), d: (Path, string), e: (Path, string),
                  path: Path)
    ensures TextsAt([a, b, c, d, e], path)
         == (if a.0 == path then [a.1] else []) + (if b.0 == path then [b.1] else [])
           + (if c.0 == path then [c.1] else [])
          + (if d.0 == path then [d.1] else []) + (if e.0 == path then [e.1] else [])
  {
    assert [a, b, c, d, e][..4] == [a, b, c, d] && [a, b, c, d][..3] == [a, b, c] && [a, b, c][..2] == [a, b]
      && [a, b][..1] == [a];
    assert [a][..0] == [];
    assert TextsAt([a], path) == if a.0 == path then [a.1] else [];
    assert TextsAt([a, b], path) == TextsAt([a], path) + if b.0 == path then [b.1] else [];
    assert TextsAt([a, b, c], path) == TextsAt([a, b], path) + if c.0 == path then [c.1] else [];
    assert TextsAt([a, b, c, d], path) == TextsAt([a, b, c], path) + if d.0 == path then [d.1] else [];
  }

  type Key = (string, int)

  function Nets(lines: seq<Line>, keys: seq<Key>): (texts: seq<string>)
    ensures |texts| == |keys|
  {
    seq(|keys|, k requires 0 <= k < |keys| => TwoDecimals(NetOfGroup(lines, keys[k])))
  }

  function Vats(lines: seq<Line>, keys: seq<Key>): (texts: seq<string>)
    ensures |texts| == |keys|
  {
    seq(|keys|, k requires 0 <= k < |keys| => TwoDecimals(VatOfGroup(lines, keys[k])))
  }

  function Categories(keys: seq<Key>): (texts: seq<string>)
    ensures |texts| == |keys|
  {
    seq(|keys|, k requires 0 <= k < |keys| => keys[k].0)
  }

  function Rates(keys: seq<Key>): (texts: seq<string>)
    ensures |texts| == |keys|
  {
    seq(|keys|, k requires 0 <= k < |keys| => TwoDecimals(keys[k].1))
  }

  lemma OneMoreKey(lines: seq<Line>, keys: seq<Key>)
    requires keys != []
    ensures
      var front, key := keys[..|keys| - 1], keys[|keys| - 1];
      && Nets(lines, keys) == Nets(lines, front) + [TwoDecimals(NetOfGroup(lines, key))]
      && Vats(lines, keys) == Vats(lines, front) + [TwoDecimals(VatOfGroup(lines, key))]
      && Categories(keys) == Categories(front) + [key.0] && Rates(keys) == Rates(front) + [TwoDecimals(key.1)]
  {
    hide TwoDecimals, NetOfGroup, VatOfGroup;
  }

  /** The texts of all subtotals, in the order of their groups. */
  lemma {:induction false} SubtotalsTexts(p: Path, lines: seq<Line>, keys: seq<Key>)
    ensures
      var leaves := SubtotalsLeaves(p, lines, keys);
      && TextsAt(leaves, p + [TaxableAmount]) == Nets(lines, keys)
        && TextsAt(leaves, p + [TaxAmount]) == Vats(lines, keys)
      && TextsAt(leaves, p + [TaxCategory, ID]) == Categories(keys)
      && TextsAt(leaves, p + [TaxCategory, Percent]) == Rates(keys)
  {
    hide TwoDecimals, NetOfGroup, VatOfGroup, SubtotalLeaves;
    if keys != [] {
      var front, key := keys[..|keys| - 1], keys[|keys| - 1];
      var one := SubtotalLeaves(p, NetOfGroup(lines, key), VatOfGroup(lines, key), key.0, key.1);
      SubtotalsTexts(p, lines, front);
      SubtotalTexts(p, NetOfGroup(lines, key), VatOfGroup(lines, key), key.0, key.1);
      OneMoreKey(lines, keys);
      var before := SubtotalsLeaves(p, lines, front);
      assert SubtotalsLeaves(p, lines, keys) == before + one;
      hide SubtotalsLeaves, TextsAt, Nets, Vats, Categories, Rates;
      TextsAtAppend(before, one, p + [TaxableAmount]);
      TextsAtAppend(before, one, p + [TaxAmount]);
      TextsAtAppend(before, one, p + [TaxCategory, ID]);
      TextsAtAppend(before, one, p + [TaxCategory, Percent]);
    }
  }

  function RootOf(doc: Document): Elem {
    if doc.documentType.InvoiceDocument? then Invoice else CreditNote
  }

  /** What a rendered document says at a path. */
  function Says(doc: Document, path: Path): seq<string> {
    TextsAt(Leaves(DocumentStream(doc)), [RootOf(doc)] + path)
  }

  lemma {:induction false} DeepPaths(p: Path, lines: seq<Line>, keys: seq<(string, int)>, n: nat)
    requires n <= |p|
    ensures forall i | 0 <= i < |SubtotalsLeaves(p, lines, keys)| :: |SubtotalsLeaves(p, lines, keys)[i].0| > n
  {
    hide TwoDecimals, NetOfGroup, VatOfGroup;
    if keys != [] {
      DeepPaths(p, lines, keys[..|keys| - 1], n);
    }
  }

  function TotalsLeaves(p: Path, net: int, vat: int): seq<(Path, string)> {
    [(p + [LegalMonetaryTotal] + [LineExtensionAmount], TwoDecimals(net)),
     (p + [LegalMonetaryTotal] + [TaxExclusiveAmount], TwoDecimals(net)),
     (p + [LegalMonetaryTotal] + [TaxInclusiveAmount], TwoDecimals(net + vat)),
     (p + [LegalMonetaryTotal] + [PayableAmount], TwoDecimals(net + vat))]
  }

  lemma AmountsFallApart(root: Elem, lines: seq<Line>, path: Path)
    ensures
      var net, vat := SumBy((l: Line) => l.netOre, lines), SumBy((l: Line) => l.vatOre, lines);
      TextsAt(AmountLeaves([root], lines), path)
      == TextsAt([([root] + [TaxTotal] + [TaxAmount], TwoDecimals(vat))], path)
       + TextsAt(SubtotalsLeaves([root] + [TaxTotal] + [TaxSubtotal], lines, GroupKeys(lines)), path)
       + TextsAt(TotalsLeaves([root], net, vat), path)
  {
    var net, vat := SumBy((l: Line) => l.netOre, lines), SumBy((l: Line) => l.vatOre, lines);
    var a := [([root] + [TaxTotal] + [TaxAmount], TwoDecimals(vat))];
    var b := SubtotalsLeaves([root] + [TaxTotal] + [TaxSubtotal], lines, GroupKeys(lines));
    var c := TotalsLeaves([root], net, vat);
    hide TwoDecimals, SubtotalsLeaves, GroupKeys, SumBy, TextsAt;
    assert AmountLeaves([root], lines) == a + b + c;
    hide AmountLeaves, TotalsLeaves;
    TextsAtAppend(a + b, c, path);
    TextsAtAppend(a, b, path);
  }

  lemma ShallowTexts(root: Elem, net: int, vat: int, path: Path)
    requires |path| > 3
    ensures TextsAt([([root] + [TaxTotal] + [TaxAmount], TwoDecimals(vat))], path) == []
    ensures TextsAt(TotalsLeaves([root], net, vat), path) == []
  {
    hide TwoDecimals;
    NoTextsAt([([root] + [TaxTotal] + [TaxAmount], TwoDecimals(vat))], path);
    NoTextsAt(TotalsLeaves([root], net, vat), path);
  }

  /** In the amounts, paths of four names lead to the subtotals. */
  lemma SubtotalsAreFound(root: Elem, lines: seq<Line>, path: Path)
    requires |path| > 3
    ensures TextsAt(AmountLeaves([root], lines), path)
         == TextsAt(SubtotalsLeaves([root, TaxTotal, TaxSubtotal], lines, GroupKeys(lines)), path)
  {
    hide TwoDecimals, SubtotalsLeaves, GroupKeys, SumBy, AmountLeaves, TotalsLeaves, TextsAt;
    AmountsFallApart(root, lines, path);
    ShallowTexts(root, SumBy((l: Line) => l.netOre, lines), SumBy((l: Line) => l.vatOre, lines), path);
    assert [root] + [TaxTotal] + [TaxSubtotal] == [root, TaxTotal, TaxSubtotal];
    OnlyTheMiddle(TextsAt(SubtotalsLeaves([root, TaxTotal, TaxSubtotal], lines, GroupKeys(lines)), path));
  }

  /** What stands in the subtotals of a document, group by group. */
  lemma SubtotalsStand(doc: Document)
    ensures
      var keys := GroupKeys(doc.lines);
      && Says(doc, [TaxTotal, TaxSubtotal] + [TaxableAmount]) == Nets(doc.lines, keys)
      && Says(doc, [TaxTotal, TaxSubtotal] + [TaxAmount]) == Vats(doc.lines, keys)
      && Says(doc, [TaxTotal, TaxSubtotal] + [TaxCategory, ID]) == Categories(keys)
      && Says(doc, [TaxTotal, TaxSubtotal] + [TaxCategory, Percent]) == Rates(keys)
  {
    hide Nets, Vats, Categories, Rates, SubtotalsLeaves, GroupKeys, TextsAt, Says;
    SubtotalsTexts([RootOf(doc), TaxTotal, TaxSubtotal], doc.lines, GroupKeys(doc.lines));
    SubtotalStands(doc, [TaxableAmount]);
    SubtotalStands(doc, [TaxAmount]);
    SubtotalStands(doc, [TaxCategory, ID]);
    SubtotalStands(doc, [TaxCategory, Percent]);
  }

  lemma SubtotalStands(doc: Document, rest: Path)
    requires rest != []
    ensures Says(doc, [TaxTotal, TaxSubtotal] + rest)
         == TextsAt(SubtotalsLeaves([RootOf(doc), TaxTotal, TaxSubtotal], doc.lines, GroupKeys(doc.lines)),
                    [RootOf(doc), TaxTotal, TaxSubtotal] + rest)
  {
    hide SubtotalsLeaves, Leaves, DocumentStream, GroupKeys, TextsAt, AmountLeaves;
    var path := [RootOf(doc), TaxTotal, TaxSubtotal] + rest;
    assert [RootOf(doc)] + ([TaxTotal, TaxSubtotal] + rest) == path;
    AmountsAreFound(doc, path);
    SubtotalsAreFound(RootOf(doc), doc.lines, path);
  }

  // ---------- What the subtotals mean ----------

  lemma KeyIsRate(key: (string, int), lines: seq<Line>)
    requires key in GroupKeys(lines)
    ensures key.1 >= 0 && key.0 == if key.1 > 0 then "S" else "Z"
    ensures forall l | l in lines :: TaxCategoryOf(l) == key <==> RateOf(l) == key.1
    ensures exists l | l in lines :: RateOf(l) == key.1
  {
    KeyIsListed(lines, key);
  }

  /** The amounts of one group, over all lines of its rate. */
  lemma GroupIsRate(key: (string, int), lines: seq<Line>)
    requires key in GroupKeys(lines)
    ensures NetOfGroup(lines, key) == SumBy((l: Line) => if RateOf(l) == key.1 then l.netOre else 0, lines)
    ensures VatOfGroup(lines, key) == SumBy((l: Line) => if RateOf(l) == key.1 then l.vatOre else 0, lines)
  {
    KeyIsRate(key, lines);
    hide TaxCategoryOf, RateOf;
    SumByFilter((l: Line) => l.netOre, (l: Line) => TaxCategoryOf(l) == key,
                (l: Line) => if RateOf(l) == key.1 then l.netOre else 0, lines);
    SumByFilter((l: Line) => l.vatOre, (l: Line) => TaxCategoryOf(l) == key,
                (l: Line) => if RateOf(l) == key.1 then l.vatOre else 0, lines);
  }

  /** One subtotal, read: its rate, its category, and its amounts over the lines of that
      rate. */
  ghost predicate IsSubtotal(lines: seq<Line>, rate: int, taxable: string, tax: string, category: string,
                             percent: string) {
    && EhfImport.PercentBp(percent) == Ok(Some(rate))
    && category == (if rate > 0 then "S" else "Z")
    && EhfImport.Amount(taxable) == Some(SumBy((l: Line) => if RateOf(l) == rate then l.netOre else 0, lines))
    && EhfImport.Amount(tax) == Some(SumBy((l: Line) => if RateOf(l) == rate then l.vatOre else 0, lines))
  }

  /** One subtotal for each rate, place by place. */
  ghost predicate AreSubtotals(lines: seq<Line>, rates: seq<int>, taxable: seq<string>, tax: seq<string>,
                               category: seq<string>, percent: seq<string>)
  {
    && |taxable| == |tax| == |category| == |percent| == |rates|
    && forall k | 0 <= k < |rates| :: IsSubtotal(lines, rates[k], taxable[k], tax[k], category[k], percent[k])
  }

  lemma KeySaysItsGroup(lines: seq<Line>, key: Key)
    requires key in GroupKeys(lines)
    ensures IsSubtotal(lines, key.1, TwoDecimals(NetOfGroup(lines, key)), TwoDecimals(VatOfGroup(lines, key)), key.0,
                       TwoDecimals(key.1))
  {
    KeyIsRate(key, lines);
    GroupIsRate(key, lines);
    EhfRoundTrip.PercentRoundTrip(key.1);
    EhfRoundTrip.AmountRoundTrip(NetOfGroup(lines, key));
    EhfRoundTrip.AmountRoundTrip(VatOfGroup(lines, key));
    hide EhfImport.PercentBp, EhfImport.Amount, TwoDecimals, NetOfGroup, VatOfGroup, SumBy, RateOf, GroupKeys;
  }

  /** The subtotals of every document, as their recipient reads them: one for each rate the
      lines have, and in it the net of the lines at that rate, their VAT, and the category
      the rate calls for. */
  lemma SubtotalsSayTheirGroups(doc: Document) returns (rates: seq<int>)
    ensures IsDistinct(rates) && forall rate :: rate in rates <==> exists l | l in doc.lines :: RateOf(l) == rate
    ensures AreSubtotals(doc.lines, rates,
      Says(doc, [TaxTotal, TaxSubtotal] + [TaxableAmount]), Says(doc, [TaxTotal, TaxSubtotal] + [TaxAmount]),
      Says(doc, [TaxTotal, TaxSubtotal] + [TaxCategory, ID]),
        Says(doc, [TaxTotal, TaxSubtotal] + [TaxCategory, Percent]))
  {
    hide *;
    SubtotalsStand(doc);
    RatesAreTheLines(doc.lines);
    KeysSayTheirGroups(doc.lines);
    rates := RateNumbers(GroupKeys(doc.lines));
  }

  function RateNumbers(keys: seq<Key>): (rates: seq<int>)
    ensures |rates| == |keys|
  {
    seq(|keys|, k requires 0 <= k < |keys| => keys[k].1)
  }

  lemma KeysSayTheirGroups(lines: seq<Line>)
    ensures
      var keys := GroupKeys(lines);
      AreSubtotals(lines, RateNumbers(keys), Nets(lines, keys), Vats(lines, keys), Categories(keys), Rates(keys))
  {
    var keys := GroupKeys(lines);
    hide GroupKeys, NetOfGroup, VatOfGroup, TwoDecimals, IsSubtotal;
    forall k | 0 <= k < |keys|
      ensures IsSubtotal(lines, RateNumbers(keys)[k], Nets(lines, keys)[k], Vats(lines, keys)[k], Categories(keys)[k],
                         Rates(keys)[k])
    {
      KeySaysItsGroup(lines, keys[k]);
    }
  }

  lemma RatesAreTheLines(lines: seq<Line>)
    ensures
      var rates := RateNumbers(GroupKeys(lines));
      IsDistinct(rates) && forall rate :: rate in rates <==> exists l | l in lines :: RateOf(l) == rate
  {
    var keys := GroupKeys(lines);
    var rates := RateNumbers(keys);
    KeysAreDistinct(lines);
    forall i, j | 0 <= i < j < |rates| ensures rates[i] != rates[j] {
      KeyIsRate(keys[i], lines);
      KeyIsRate(keys[j], lines);
    }
    forall rate ensures rate in rates <==> exists l | l in lines :: RateOf(l) == rate {
      if k :| 0 <= k < |rates| && rates[k] == rate {
        KeyIsRate(keys[k], lines);
      }
      if l :| l in lines && RateOf(l) == rate {
        KeyIsListed(lines, TaxCategoryOf(l));
        var k :| 0 <= k < |keys| && keys[k] == TaxCategoryOf(l);
        assert rates[k] == rate;
      }
    }
  }

  // ---------- The totals ----------

  lemma FourTexts(a: (Path, string), b: (Path, string), c: (Path, string), d: (Path, string), path: Path)
    ensures TextsAt([a, b, c, d], path)
         == (if a.0 == path then [a.1] else []) + (if b.0 == path then [b.1] else [])
           + (if c.0 == path then [c.1] else [])
          + (if d.0 == path then [d.1] else [])
  {
    assert [a, b, c, d][..3] == [a, b, c] && [a, b, c][..2] == [a, b] && [a, b][..1] == [a] && [a][..0] == [];
    assert TextsAt([a], path) == if a.0 == path then [a.1] else [];
    assert TextsAt([a, b], path) == TextsAt([a], path) + if b.0 == path then [b.1] else [];
    assert TextsAt([a, b, c], path) == TextsAt([a, b], path) + if c.0 == path then [c.1] else [];
  }

  lemma NoSubtotalIsShallow(root: Elem, lines: seq<Line>, path: Path)
    requires |path| == 3
    ensures TextsAt(SubtotalsLeaves([root] + [TaxTotal] + [TaxSubtotal], lines, GroupKeys(lines)), path) == []
  {
    DeepPaths([root] + [TaxTotal] + [TaxSubtotal], lines, GroupKeys(lines), 3);
    hide SubtotalsLeaves, GroupKeys;
    NoTextsAt(SubtotalsLeaves([root] + [TaxTotal] + [TaxSubtotal], lines, GroupKeys(lines)), path);
  }

  lemma TotalTexts(root: Elem, net: int, vat: int, path: Path)
    ensures
      var n, g := TwoDecimals(net), TwoDecimals(net + vat);
      TextsAt(TotalsLeaves([root], net, vat), path)
      == if path == [root, LegalMonetaryTotal, LineExtensionAmount]
        || path == [root, LegalMonetaryTotal, TaxExclusiveAmount] then [n]
         else if path == [root, LegalMonetaryTotal, TaxInclusiveAmount]
           || path == [root, LegalMonetaryTotal, PayableAmount] then [g]
         else []
  {
    hide TwoDecimals;
    var p, n, g := [root], TwoDecimals(net), TwoDecimals(net + vat);
    var a, b := [root, LegalMonetaryTotal, LineExtensionAmount], [root, LegalMonetaryTotal, TaxExclusiveAmount];
    var c, d := [root, LegalMonetaryTotal, TaxInclusiveAmount], [root, LegalMonetaryTotal, PayableAmount];
    assert a[2] == LineExtensionAmount && b[2] == TaxExclusiveAmount && c[2] == TaxInclusiveAmount
      && d[2] == PayableAmount;
    assert p + [LegalMonetaryTotal] + [LineExtensionAmount] == a
      && p + [LegalMonetaryTotal] + [TaxExclusiveAmount] == b;
    assert p + [LegalMonetaryTotal] + [TaxInclusiveAmount] == c && p + [LegalMonetaryTotal] + [PayableAmount] == d;
    assert TotalsLeaves(p, net, vat) == [(a, n), (b, n), (c, g), (d, g)];
    hide TotalsLeaves;
    FourTexts((a, n), (b, n), (c, g), (d, g), path);
  }

  lemma TotalIsFound(doc: Document, wrapper: Elem, tag: Elem)
    requires wrapper in {TaxTotal, LegalMonetaryTotal}
    ensures
      var net, vat := SumBy((l: Line) => l.netOre, doc.lines), SumBy((l: Line) => l.vatOre, doc.lines);
      var path := [RootOf(doc), wrapper, tag];
      Says(doc, [wrapper, tag])
      == (if path == [RootOf(doc), TaxTotal, TaxAmount] then [TwoDecimals(vat)] else [])
        + TextsAt(TotalsLeaves([RootOf(doc)], net, vat), path)
  {
    hide TwoDecimals, TotalsLeaves, AmountLeaves, Leaves, DocumentStream, SumBy, SubtotalsLeaves, GroupKeys;
    var net, vat := SumBy((l: Line) => l.netOre, doc.lines), SumBy((l: Line) => l.vatOre, doc.lines);
    var path := [RootOf(doc), wrapper, tag];
    assert [RootOf(doc)] + [wrapper, tag] == path;
    AmountsAreFound(doc, path);
    AmountsFallApart(RootOf(doc), doc.lines, path);
    NoSubtotalIsShallow(RootOf(doc), doc.lines, path);
    assert [RootOf(doc)] + [TaxTotal] + [TaxAmount] == [RootOf(doc), TaxTotal, TaxAmount];
    OneText([RootOf(doc), TaxTotal, TaxAmount], TwoDecimals(vat), path);
    hide TextsAt;
    var first := if path == [RootOf(doc), TaxTotal, TaxAmount] then [TwoDecimals(vat)] else [];
    assert first + [] == first;
  }

  lemma OneText(at: Path, text: string, path: Path)
    ensures TextsAt([(at, text)], path) == if at == path then [text] else []
  {
  }

  /** The totals of every document: its VAT, its net twice, and its gross twice, each once
      and to the øre. */
  lemma TotalsSayTheSums(doc: Document)
    ensures
      var net, vat := SumBy((l: Line) => l.netOre, doc.lines), SumBy((l: Line) => l.vatOre, doc.lines);
      && Says(doc, [TaxTotal, TaxAmount]) == [TwoDecimals(vat)]
      && Says(doc, [LegalMonetaryTotal, LineExtensionAmount]) == [TwoDecimals(net)]
      && Says(doc, [LegalMonetaryTotal, TaxExclusiveAmount]) == [TwoDecimals(net)]
      && Says(doc, [LegalMonetaryTotal, TaxInclusiveAmount]) == [TwoDecimals(net + vat)]
      && Says(doc, [LegalMonetaryTotal, PayableAmount]) == [TwoDecimals(net + vat)]
  {
    hide TwoDecimals, SumBy, Says, TotalsLeaves, TextsAt;
    TotalSays(doc, TaxTotal, TaxAmount);
    TotalSays(doc, LegalMonetaryTotal, LineExtensionAmount);
    TotalSays(doc, LegalMonetaryTotal, TaxExclusiveAmount);
    TotalSays(doc, LegalMonetaryTotal, TaxInclusiveAmount);
    TotalSays(doc, LegalMonetaryTotal, PayableAmount);
  }

  lemma TotalSays(doc: Document, wrapper: Elem, tag: Elem)
    requires (wrapper == TaxTotal && tag == TaxAmount)
          || (wrapper == LegalMonetaryTotal && tag in {LineExtensionAmount, TaxExclusiveAmount, TaxInclusiveAmount,
                                                       PayableAmount})
    ensures
      var net, vat := SumBy((l: Line) => l.netOre, doc.lines), SumBy((l: Line) => l.vatOre, doc.lines);
      Says(doc, [wrapper, tag])
      == [TwoDecimals(if tag == TaxAmount then vat else if tag in {TaxInclusiveAmount, PayableAmount} then net + vat
                      else net)]
  {
    hide TwoDecimals, SumBy, Says, TotalsLeaves, TextsAt;
    var net, vat := SumBy((l: Line) => l.netOre, doc.lines), SumBy((l: Line) => l.vatOre, doc.lines);
    var path := [RootOf(doc), wrapper, tag];
    assert path[1] == wrapper && path[2] == tag;
    assert [RootOf(doc), TaxTotal, TaxAmount][1] == TaxTotal;
    TotalIsFound(doc, wrapper, tag);
    TotalTexts(RootOf(doc), net, vat, path);
    OnePath(RootOf(doc), tag);
  }

  lemma OnePath(root: Elem, tag: Elem)
    ensures forall x: Elem, y: Elem :: [root, x, tag] == [root, y, TaxAmount] ==> tag == TaxAmount && x == y
    ensures forall y: Elem, z: Elem ::
      [root, LegalMonetaryTotal, tag] == [root, y, z] ==> tag == z && y == LegalMonetaryTotal
  {
    forall x: Elem, y: Elem | [root, x, tag] == [root, y, TaxAmount] ensures tag == TaxAmount && x == y {
      assert [root, x, tag][2] == [root, y, TaxAmount][2] && [root, x, tag][1] == [root, y, TaxAmount][1];
    }
    forall y: Elem, z: Elem | [root, LegalMonetaryTotal, tag] == [root, y, z]
      ensures tag == z && y == LegalMonetaryTotal
    {
      assert [root, LegalMonetaryTotal, tag][2] == [root, y, z][2]
        && [root, LegalMonetaryTotal, tag][1] == [root, y, z][1];
    }
  }

  // ---------- Reconciliation ----------

  /** An amount as the recipient reads it. */
  function Read(text: string): int {
    match EhfImport.Amount(text) case Some(ore) => ore case None => 0
  }

  lemma {:induction false} GroupsAreRead(lines: seq<Line>, keys: seq<Key>)
    ensures SumBy(Read, Nets(lines, keys)) == SumOfGroups((l: Line) => l.netOre, keys, lines)
    ensures SumBy(Read, Vats(lines, keys)) == SumOfGroups((l: Line) => l.vatOre, keys, lines)
  {
    hide TwoDecimals, EhfImport.Amount;
    if keys != [] {
      var front, key := keys[..|keys| - 1], keys[|keys| - 1];
      GroupsAreRead(lines, front);
      OneMoreKey(lines, keys);
      EhfRoundTrip.AmountRoundTrip(NetOfGroup(lines, key));
      EhfRoundTrip.AmountRoundTrip(VatOfGroup(lines, key));
      SumByOne(Read, Nets(lines, front), TwoDecimals(NetOfGroup(lines, key)));
      SumByOne(Read, Vats(lines, front), TwoDecimals(VatOfGroup(lines, key)));
    }
  }

  /** What a recipient who reconciles relies on: in every document the taxable amounts of the
      subtotals add up to the TaxExclusiveAmount, and their tax amounts to the TaxTotal's
      own, all as read. */
  lemma SubtotalsAddUpAsRead(doc: Document) returns (net: string, vat: string)
    ensures Says(doc, [LegalMonetaryTotal, TaxExclusiveAmount]) == [net] && Says(doc, [TaxTotal, TaxAmount]) == [vat]
    ensures EhfImport.Amount(net) == Some(SumBy(Read, Says(doc, [TaxTotal, TaxSubtotal] + [TaxableAmount])))
    ensures EhfImport.Amount(vat) == Some(SumBy(Read, Says(doc, [TaxTotal, TaxSubtotal] + [TaxAmount])))
  {
    net, vat := TwoDecimals(NetOf(doc.lines)), TwoDecimals(VatOf(doc.lines));
    hide Says, TwoDecimals, EhfImport.Amount, GroupKeys, Nets, Vats, Categories, Rates, SumBy, SumOfGroups;
    TotalsSayTheSums(doc);
    SubtotalsStand(doc);
    GroupsAreRead(doc.lines, GroupKeys(doc.lines));
    SubtotalsReconcile(doc.lines);
    EhfRoundTrip.AmountRoundTrip(NetOf(doc.lines));
    EhfRoundTrip.AmountRoundTrip(VatOf(doc.lines));
  }
}
