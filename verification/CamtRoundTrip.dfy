/** Statements written as ISO 20022 has them are read back: every transaction with its sign
    and date, every balance with its side. */
module CamtRoundTrip {
  import opened Wrappers
  import opened Decimal
  import opened Calendar
  import opened Text
  import opened Xml
  import opened Camt053
  import opened CamtEntries
  import opened CamtBalances

  // ---------- Writing ----------

  /** An entry to be written: its status, in `Sts` or in `Sts/Cd`, its booking date as a
      date or as a date and time, and its description in `RmtInf/Ustrd` or in
      `AddtlNtryInf`. */
  datatype WrittenEntry = WrittenEntry(
    transaction: Transaction,
    status: Option<string>,
    statusInCd: bool,
    time: Option<string>,
    additional: bool)

  datatype WrittenBalance = WrittenBalance(ore: int, date: Option<Date>)

  datatype WrittenStatement = WrittenStatement(
    id: string,
    iban: Option<string>,
    opening: Option<WrittenBalance>,
    closing: Option<WrittenBalance>,
    entries: seq<WrittenEntry>)

  function Leaf(name: Elem, text: string, next: Forest<Elem>): Forest<Elem> {
    Element(name, Forest.Text(Esc(text), Empty), next)
  }

  /** Amounts are written without a sign; `CdtDbtInd` says which side they are on. */
  function Side(ore: int): string {
    if ore < 0 then "DBIT" else "CRDT"
  }

  function DateForest(date: Date, time: Option<string>): Forest<Elem> {
    match time
    case Some(t) => Leaf(DtTm, IsoString(date) + "T" + t, Empty)
    case None => Leaf(Dt, IsoString(date), Empty)
  }

  function StatusForest(w: WrittenEntry, next: Forest<Elem>): Forest<Elem> {
    match w.status
    case Some(status) => if w.statusInCd then Element(Sts, Leaf(Cd, status, Empty), next) else Leaf(Sts, status, next)
    case None => next
  }

  function ReferenceForest(w: WrittenEntry, next: Forest<Elem>): Forest<Elem> {
    match w.transaction.reference
    case Some(reference) => Element(Refs, Leaf(EndToEndId, reference, Empty), next)
    case None => next
  }

  function DetailsForest(w: WrittenEntry): Forest<Elem> {
    if w.additional then ReferenceForest(w, Empty)
    else ReferenceForest(w, Element(RmtInf, Leaf(Ustrd, w.transaction.description, Empty), Empty))
  }

  function EntryForest(w: WrittenEntry): Forest<Elem> {
    Leaf(Amt, TwoDecimals(Abs(w.transaction.amountOre)),
      Leaf(CdtDbtInd, Side(w.transaction.amountOre),
        StatusForest(w,
          Element(BookgDt, DateForest(w.transaction.bookingDate, w.time),
            Element(Other("NtryDtls"), Element(Other("TxDtls"), DetailsForest(w), Empty),
              if w.additional then Leaf(AddtlNtryInf, w.transaction.description, Empty) else Empty)))))
  }

  function EntriesForest(entries: seq<WrittenEntry>): Forest<Elem> {
    if entries == [] then Empty else Element(Ntry, EntryForest(entries[0]), EntriesForest(entries[1..]))
  }

  function BalanceForest(code: string, b: WrittenBalance): Forest<Elem> {
    Element(Tp, Element(CdOrPrtry, Leaf(Cd, code, Empty), Empty),
      Leaf(Amt, TwoDecimals(Abs(b.ore)),
        Leaf(CdtDbtInd, Side(b.ore),
          match b.date case Some(date) => Element(Dt, Leaf(Dt, IsoString(date), Empty), Empty) case None => Empty)))
  }

  function OptBalance(code: string, b: Option<WrittenBalance>, next: Forest<Elem>): Forest<Elem> {
    match b
    case Some(balance) => Element(Bal, BalanceForest(code, balance), next)
    case None => next
  }

  function AccountForest(iban: Option<string>, next: Forest<Elem>): Forest<Elem> {
    match iban
    case Some(number) => Element(Acct, Element(Id, Leaf(IBAN, number, Empty), Empty), next)
    case None => next
  }

  function DocumentForest(w: WrittenStatement): Forest<Elem> {
    Element(Other("Document"),
      Element(Other("BkToCstmrStmt"),
        Element(Stmt,
          Leaf(Id, w.id,
            AccountForest(w.iban, OptBalance("OPBD", w.opening,
                                             OptBalance("CLBD", w.closing, EntriesForest(w.entries))))),
          Empty), Empty), Empty)
  }

  // ---------- What comes back ----------

  function Kept(text: Option<string>): Option<string> {
    if text.Some? && TrimXml(text.value) != "" then Some(TrimXml(text.value)) else None
  }

  /** Booked, or nothing said about it. */
  predicate IsBooked(w: WrittenEntry) {
    w.status.None? || TrimXml(w.status.value) in {"", "BOOK"}
  }

  /** The transaction as it was written, its texts trimmed; a reference that says that none
      was provided is none. */
  function Received(t: Transaction): Transaction {
    Transaction(t.bookingDate, t.amountOre, TrimXml(t.description),
                if Kept(t.reference) == Some("NOTPROVIDED") then None else Kept(t.reference))
  }

  function ReceivedAll(entries: seq<WrittenEntry>): seq<Transaction> {
    if entries == [] then []
    else (if IsBooked(entries[0]) then [Received(entries[0].transaction)] else []) + ReceivedAll(entries[1..])
  }

  // ---------- One tag at a time ----------

  lemma WrittenValue(text: string)
    ensures TextValue(Esc(text)) == Some(TrimXml(text))
  {
    TrimEsc(text);
    UnescapeEsc(TrimXml(text));
  }

  predicate IsQuiet(name: Elem) {
    name != Stmt && name != Bal && name != Ntry
  }

  /** The effect of a leaf: its trimmed text at its path, if there is any. */
  lemma LeafRuns(s: State, name: Elem, text: string, next: Forest<Elem>)
    requires IsQuiet(name)
    ensures
      var inside := s.(path := s.path + [name]);
      var read := if TrimXml(text) == "" then Ok(inside) else OnValue(inside, TrimXml(text));
      Run(Running(s), Flatten(Leaf(name, text, next)))
      == if read.Ok? then Run(Running(read.value.(path := s.path)), Flatten(next)) else Failed(read.error)
  {
    var raw, inside := Esc(text), s.(path := s.path + [name]);
    RunElement(Running(s), name, Forest.Text(raw, Empty), next);
    RunText(Running(inside), raw, Empty);
    WrittenValue(text);
    ValueKeepsPath(inside, TrimXml(text));
    var m := OnChars(inside, raw);
    hide TextValue, OnValue, TrimXml;
    if m.Failed? {
      RunHalted(m, Flatten(next));
    } else {
      assert (s.path + [name])[..|s.path|] == s.path;
    }
  }

  lemma ValueKeepsPath(s: State, value: string)
    ensures OnValue(s, value).Ok? ==> OnValue(s, value).value.path == s.path
  {
    hide FieldAt, SetBalanceField, SetEntryField;
  }

  /** An element around what was read inside it. */
  lemma ElementRuns(s: State, name: Elem, children: Forest<Elem>, next: Forest<Elem>, t: State)
    requires IsQuiet(name) && t.path == s.path + [name]
    requires Run(Running(s.(path := s.path + [name])), Flatten(children)) == Running(t)
    ensures Run(Running(s), Flatten(Element(name, children, next))) == Run(Running(t.(path := s.path)), Flatten(next))
  {
    RunElement(Running(s), name, children, next);
    hide Run, Flatten;
    assert (s.path + [name])[..|s.path|] == s.path;
  }

  /** An element that opens and closes something. */
  lemma BlockRuns(s: State, name: Elem, children: Forest<Elem>, next: Forest<Elem>, inside: State, last: State,
                  t: State)
    requires OnStart(s, name) == Running(inside)
    requires Run(Running(inside), Flatten(children)) == Running(last) && OnEnd(last, name) == Running(t)
    ensures Run(Running(s), Flatten(Element(name, children, next))) == Run(Running(t), Flatten(next))
  {
    RunElement(Running(s), name, children, next);
    hide Run, Flatten, OnStart, OnEnd;
  }

  // ---------- An entry ----------

  /** A leaf of an entry sets its field. */
  lemma EntryLeafRuns(s: State, pre: seq<Elem>, rel: seq<Elem>, name: Elem, text: string, next: Forest<Elem>,
                      entry: Entry)
    requires s.path == pre + [Ntry] + rel && Ntry !in rel && IsQuiet(name) && EntryFieldAt(rel + [name]) != Ignored
    requires if TrimXml(text) == "" then entry == s.ntry
             else SetEntryField(s.ntry, EntryFieldAt(rel + [name]), TrimXml(text)) == Ok(entry)
    ensures Run(Running(s), Flatten(Leaf(name, text, next))) == Run(Running(s.(ntry := entry)), Flatten(next))
  {
    LeafRuns(s, name, text, next);
    var inside := s.(path := s.path + [name]);
    assert inside.path == pre + [Ntry] + (rel + [name]);
    FieldInsideEntry(pre, rel + [name]);
    RelativeFieldIsEntryField(rel + [name]);
    hide FieldAt, EntryFieldAt, Run, Flatten, Leaf, TrimXml, ParseAmount, Camt053.ParseDate;
    if TrimXml(text) != "" {
      assert OnValue(inside, TrimXml(text)) == Ok(inside.(ntry := entry));
    }
  }

  lemma EntryFields()
    ensures EntryFieldAt([Amt]) == EntryAmount && EntryFieldAt([CdtDbtInd]) == EntryCredit
    ensures EntryFieldAt([Sts]) == EntryStatus && EntryFieldAt([Sts, Cd]) == EntryStatus
    ensures EntryFieldAt([BookgDt, Dt]) == EntryDate && EntryFieldAt([BookgDt, DtTm]) == EntryDate
    ensures EntryFieldAt([AddtlNtryInf]) == EntryDescription
    ensures EntryFieldAt([Other("NtryDtls"), Other("TxDtls"), Refs, EndToEndId]) == EntryReference
    ensures EntryFieldAt([Other("NtryDtls"), Other("TxDtls"), RmtInf, Ustrd]) == EntryDescription
  {
    var r, d := [Other("NtryDtls"), Other("TxDtls"), Refs, EndToEndId],
      [Other("NtryDtls"), Other("TxDtls"), RmtInf, Ustrd];
    assert r[2..] == [Refs, EndToEndId] && d[2..] == [RmtInf, Ustrd];
    assert [Amt] != [Sts] && |[Amt]| == 1;
    LastIsNot([Amt]);
    LastIsNot(d);
    LastIsNot([AddtlNtryInf]);
  }

  lemma LastIsNot(rel: seq<Elem>)
    requires rel != [] && rel[|rel| - 1] != EndToEndId
    ensures !EndsWith(rel, [Refs, EndToEndId])
  {
    if EndsWith(rel, [Refs, EndToEndId]) {
      LastTwo(rel, [Refs, EndToEndId]);
    }
  }

  lemma TrimOfInk(text: string)
    requires text != "" && !IsXmlSpace(text[0]) && !IsXmlSpace(text[|text| - 1])
    ensures TrimXml(text) == text
  {
  }

  lemma AmountText(ore: nat)
    ensures TrimXml(TwoDecimals(ore)) == TwoDecimals(ore) != "" && ParseAmount(TwoDecimals(ore)) == Ok(ore)
  {
    var s := TwoDecimals(ore);
    assert IsDigit(s[0]) && IsDigit(s[|s| - 1]);
    TrimOfInk(s);
    ParseAmountRoundTrip(ore);
  }

  lemma SideText(ore: int)
    ensures TrimXml(Side(ore)) == Side(ore) != "" && (Side(ore) == "CRDT" <==> ore >= 0)
  {
    TrimOfInk("CRDT");
    TrimOfInk("DBIT");
  }

  lemma DateText(d: Date)
    ensures TrimXml(IsoString(d)) == IsoString(d) != "" && Camt053.ParseDate(IsoString(d)) == Ok(d)
  {
    var s := IsoString(d);
    assert IsDigit(s[0]) && IsDigit(s[9]);
    TrimOfInk(s);
    NoTime(d);
    SplitOnceCuts(s, 'T');
    IsoRoundTrip(d);
  }

  lemma NoTime(d: Date)
    ensures 'T' !in IsoString(d)
  {
    assert forall c | IsDigit(c) :: c != 'T';
  }

  lemma {:induction false} TrimEndKeeps(s: string, i: nat)
    requires i < |s| && !IsXmlSpace(s[i])
    ensures TrimEnd(s, IsXmlSpace) <= s && |TrimEnd(s, IsXmlSpace)| > i
  {
    if IsXmlSpace(s[|s| - 1]) {
      TrimEndKeeps(s[..|s| - 1], i);
    }
  }

  /** A date and time, whatever the time says. */
  lemma DateTimeText(d: Date, time: string)
    ensures var text := TrimXml(IsoString(d) + "T" + time); text != "" && Camt053.ParseDate(text) == Ok(d)
  {
    var s := IsoString(d) + "T" + time;
    assert IsDigit(s[0]) && s[10] == 'T';
    TrimEndKeeps(s, 10);
    var text := TrimXml(s);
    assert text == TrimEnd(s, IsXmlSpace);
    assert text[..11] == s[..11] == IsoString(d) + ['T'];
    assert text == IsoString(d) + ['T'] + text[11..];
    NoTime(d);
    SplitOnceFinds(IsoString(d), 'T', text[11..]);
    IsoRoundTrip(d);
  }

  predicate InEntry(s: State, pre: seq<Elem>) {
    s.path == pre + [Ntry]
  }

  lemma AmountRuns(s: State, pre: seq<Elem>, ore: int, next: Forest<Elem>)
    requires InEntry(s, pre)
    ensures Run(Running(s), Flatten(Leaf(Amt, TwoDecimals(Abs(ore)), next)))
         == Run(Running(s.(ntry := s.ntry.(amount := Abs(ore)))), Flatten(next))
  {
    hide Leaf, Run, Flatten, EntryFieldAt, ParseAmount, TwoDecimals, TrimXml;
    AmountText(Abs(ore));
    EntryFields();
    assert pre + [Ntry] + [] == pre + [Ntry] && [] + [Amt] == [Amt];
    EntryLeafRuns(s, pre, [], Amt, TwoDecimals(Abs(ore)), next, s.ntry.(amount := Abs(ore)));
  }

  lemma SideRuns(s: State, pre: seq<Elem>, ore: int, next: Forest<Elem>)
    requires InEntry(s, pre)
    ensures Run(Running(s), Flatten(Leaf(CdtDbtInd, Side(ore), next)))
         == Run(Running(s.(ntry := s.ntry.(credit := ore >= 0))), Flatten(next))
  {
    hide Leaf, Run, Flatten, EntryFieldAt, Side, TrimXml;
    SideText(ore);
    EntryFields();
    assert pre + [Ntry] + [] == pre + [Ntry] && [] + [CdtDbtInd] == [CdtDbtInd];
    EntryLeafRuns(s, pre, [], CdtDbtInd, Side(ore), next, s.ntry.(credit := ore >= 0));
  }

  /** The status that counts. */
  function StatusAfter(before: string, status: Option<string>): string {
    if status.Some? && TrimXml(status.value) != "" then TrimXml(status.value) else before
  }

  lemma StatusRuns(s: State, pre: seq<Elem>, w: WrittenEntry, next: Forest<Elem>)
    requires InEntry(s, pre)
    ensures Run(Running(s), Flatten(StatusForest(w, next)))
         == Run(Running(s.(ntry := s.ntry.(status := StatusAfter(s.ntry.status, w.status)))), Flatten(next))
  {
    hide Leaf, Run, Flatten, EntryFieldAt, TrimXml;
    EntryFields();
    assert pre + [Ntry] + [] == pre + [Ntry] && [] + [Sts] == [Sts] && [Sts] + [Cd] == [Sts, Cd];
    if w.status.Some? {
      var entry := s.ntry.(status := StatusAfter(s.ntry.status, w.status));
      if w.statusInCd {
        var s1 := s.(path := s.path + [Sts]);
        EntryLeafRuns(s1, pre, [Sts], Cd, w.status.value, Empty, entry);
        NothingRuns(s1.(ntry := entry));
        ElementRuns(s, Sts, Leaf(Cd, w.status.value, Empty), next, s1.(ntry := entry));
      } else {
        EntryLeafRuns(s, pre, [], Sts, w.status.value, next, entry);
      }
    }
  }

  lemma NothingRuns(s: State)
    ensures Run(Running(s), Flatten(Empty)) == Running(s)
  {
  }

  lemma DateRuns(s: State, pre: seq<Elem>, date: Date, time: Option<string>, next: Forest<Elem>)
    requires InEntry(s, pre)
    ensures Run(Running(s), Flatten(Element(BookgDt, DateForest(date, time), next)))
         == Run(Running(s.(ntry := s.ntry.(date := Some(date)))), Flatten(next))
  {
    hide Leaf, Run, Flatten, EntryFieldAt, TrimXml, Camt053.ParseDate, IsoString;
    EntryFields();
    var s1, entry := s.(path := s.path + [BookgDt]), s.ntry.(date := Some(date));
    assert [BookgDt] + [Dt] == [BookgDt, Dt] && [BookgDt] + [DtTm] == [BookgDt, DtTm];
    if time.Some? {
      DateTimeText(date, time.value);
      EntryLeafRuns(s1, pre, [BookgDt], DtTm, IsoString(date) + "T" + time.value, Empty, entry);
    } else {
      DateText(date);
      EntryLeafRuns(s1, pre, [BookgDt], Dt, IsoString(date), Empty, entry);
    }
    NothingRuns(s1.(ntry := entry));
    ElementRuns(s, BookgDt, DateForest(date, time), next, s1.(ntry := entry));
  }

  function ReferenceAfter(before: Option<string>, reference: Option<string>): Option<string> {
    if reference.Some? && TrimXml(reference.value) != "" && TrimXml(reference.value) != "NOTPROVIDED"
    then Some(TrimXml(reference.value)) else before
  }

  predicate InDetails(s: State, pre: seq<Elem>) {
    s.path == pre + [Ntry] + [Other("NtryDtls"), Other("TxDtls")]
  }

  lemma ReferenceRuns(s: State, pre: seq<Elem>, w: WrittenEntry, next: Forest<Elem>)
    requires InDetails(s, pre)
    ensures Run(Running(s), Flatten(ReferenceForest(w, next)))
         == Run(Running(s.(ntry := s.ntry.(reference := ReferenceAfter(s.ntry.reference, w.transaction.reference)))),
                Flatten(next))
  {
    hide Leaf, Run, Flatten, EntryFieldAt, TrimXml;
    EntryFields();
    var rel := [Other("NtryDtls"), Other("TxDtls")];
    if w.transaction.reference.Some? {
      var s1 := s.(path := s.path + [Refs]);
      var entry := s.ntry.(reference := ReferenceAfter(s.ntry.reference, w.transaction.reference));
      assert s1.path == pre + [Ntry] + (rel + [Refs]);
      assert rel + [Refs] + [EndToEndId] == [Other("NtryDtls"), Other("TxDtls"), Refs, EndToEndId];
      EntryLeafRuns(s1, pre, rel + [Refs], EndToEndId, w.transaction.reference.value, Empty, entry);
      NothingRuns(s1.(ntry := entry));
      ElementRuns(s, Refs, Leaf(EndToEndId, w.transaction.reference.value, Empty), next, s1.(ntry := entry));
    }
  }

  lemma DescriptionRuns(s: State, pre: seq<Elem>, text: string)
    requires InDetails(s, pre) && s.ntry.description == ""
    ensures Run(Running(s), Flatten(Element(RmtInf, Leaf(Ustrd, text, Empty), Empty)))
         == Running(s.(ntry := s.ntry.(description := TrimXml(text))))
  {
    hide Leaf, Run, Flatten, EntryFieldAt, TrimXml;
    EntryFields();
    var rel := [Other("NtryDtls"), Other("TxDtls")];
    var s1, entry := s.(path := s.path + [RmtInf]), s.ntry.(description := TrimXml(text));
    assert s1.path == pre + [Ntry] + (rel + [RmtInf]);
    assert rel + [RmtInf] + [Ustrd] == [Other("NtryDtls"), Other("TxDtls"), RmtInf, Ustrd];
    EntryLeafRuns(s1, pre, rel + [RmtInf], Ustrd, text, Empty, entry);
    NothingRuns(s1.(ntry := entry));
    ElementRuns(s, RmtInf, Leaf(Ustrd, text, Empty), Empty, s1.(ntry := entry));
    NothingRuns(s.(ntry := entry));
  }

  lemma DetailsRun(s: State, pre: seq<Elem>, w: WrittenEntry)
    requires InDetails(s, pre) && s.ntry.description == "" && s.ntry.reference == None
    ensures Run(Running(s), Flatten(DetailsForest(w)))
         == Running(s.(ntry := s.ntry.(reference := Received(w.transaction).reference,
                                       description := if w.additional then "" else TrimXml(w.transaction.description))))
  {
    hide Leaf, Run, Flatten, TrimXml, ReferenceForest;
    var s1 := s.(ntry := s.ntry.(reference := ReferenceAfter(None, w.transaction.reference)));
    if w.additional {
      ReferenceRuns(s, pre, w, Empty);
      NothingRuns(s1);
    } else {
      ReferenceRuns(s, pre, w, Element(RmtInf, Leaf(Ustrd, w.transaction.description, Empty), Empty));
      DescriptionRuns(s1, pre, w.transaction.description);
    }
  }

  lemma AdditionalRuns(s: State, pre: seq<Elem>, w: WrittenEntry)
    requires InEntry(s, pre) && (w.additional ==> s.ntry.description == "")
    ensures Run(Running(s), Flatten(if w.additional then Leaf(AddtlNtryInf, w.transaction.description, Empty)
                                    else Empty))
         == Running(if w.additional then s.(ntry := s.ntry.(description := TrimXml(w.transaction.description))) else s)
  {
    hide Leaf, Run, Flatten, EntryFieldAt, TrimXml;
    EntryFields();
    assert pre + [Ntry] + [] == pre + [Ntry] && [] + [AddtlNtryInf] == [AddtlNtryInf];
    if w.additional {
      var entry := s.ntry.(description := TrimXml(w.transaction.description));
      EntryLeafRuns(s, pre, [], AddtlNtryInf, w.transaction.description, Empty, entry);
      NothingRuns(s.(ntry := entry));
    } else {
      NothingRuns(s);
    }
  }

  /** The entry as it stands after all that was written of it. */
  function EntryRead(w: WrittenEntry): Entry {
    Entry(Abs(w.transaction.amountOre), w.transaction.amountOre >= 0, Some(w.transaction.bookingDate),
          StatusAfter("BOOK", w.status), TrimXml(w.transaction.description), Received(w.transaction).reference)
  }

  lemma EntryRuns(s: State, pre: seq<Elem>, w: WrittenEntry)
    requires InEntry(s, pre) && s.ntry == FRESH_ENTRY
    ensures Run(Running(s), Flatten(EntryForest(w))) == Running(s.(ntry := EntryRead(w)))
  {
    var t := w.transaction;
    var last := if w.additional then Leaf(AddtlNtryInf, t.description, Empty) else Empty;
    var details := Element(Other("NtryDtls"), Element(Other("TxDtls"), DetailsForest(w), Empty), last);
    var dated := Element(BookgDt, DateForest(t.bookingDate, w.time), details);
    hide Leaf, Run, Flatten, TrimXml, DetailsForest, DateForest, StatusForest, Side, TwoDecimals, Received, Kept;
    AmountRuns(s, pre, t.amountOre, Leaf(CdtDbtInd, Side(t.amountOre), StatusForest(w, dated)));
    var s1 := s.(ntry := s.ntry.(amount := Abs(t.amountOre)));
    SideRuns(s1, pre, t.amountOre, StatusForest(w, dated));
    var s2 := s1.(ntry := s1.ntry.(credit := t.amountOre >= 0));
    StatusRuns(s2, pre, w, dated);
    var s3 := s2.(ntry := s2.ntry.(status := StatusAfter("BOOK", w.status)));
    DateRuns(s3, pre, t.bookingDate, w.time, details);
    var s4 := s3.(ntry := s3.ntry.(date := Some(t.bookingDate)));
    var in1, in2 := s4.(path := s4.path + [Other("NtryDtls")]),
      s4.(path := s4.path + [Other("NtryDtls")] + [Other("TxDtls")]);
    assert in2.path == pre + [Ntry] + [Other("NtryDtls"), Other("TxDtls")];
    DetailsRun(in2, pre, w);
    var entry := s4.ntry.(reference := Received(t).reference,
                          description := if w.additional then "" else TrimXml(t.description));
    ElementRuns(in1, Other("TxDtls"), DetailsForest(w), Empty, in2.(ntry := entry));
    NothingRuns(in1.(ntry := entry));
    ElementRuns(s4, Other("NtryDtls"), Element(Other("TxDtls"), DetailsForest(w), Empty), last, in1.(ntry := entry));
    AdditionalRuns(s4.(ntry := entry), pre, w);
  }

  // ---------- A list of entries ----------

  function Booked(w: WrittenEntry): seq<Transaction> {
    if IsBooked(w) then [Received(w.transaction)] else []
  }

  /** One written entry, from its start to its end: booked, it adds the transaction that was
      written, with its own sign; otherwise nothing. */
  lemma EntryIsReadBack(s: State, w: WrittenEntry, next: Forest<Elem>) returns (t: State)
    requires Stmt in s.path
    ensures t.path == s.path && t.seenStatement == s.seenStatement
    ensures t.statement == s.statement.(transactions := s.statement.transactions + Booked(w))
    ensures Run(Running(s), Flatten(Element(Ntry, EntryForest(w), next))) == Run(Running(t), Flatten(next))
  {
    var s1 := OnStart(s, Ntry).state;
    assert OnStart(s, Ntry) == Running(s1);
    hide Run, Flatten, EntryForest, Booked;
    EntryRuns(s1, s.path, w);
    var s2 := s1.(ntry := EntryRead(w));
    hide EntryRead;
    t := EntryCloses(s, s2, w);
    hide OnStart, OnEnd;
    BlockRuns(s, Ntry, EntryForest(w), next, s1, s2, t);
  }

  lemma EntryCloses(s: State, s2: State, w: WrittenEntry) returns (t: State)
    requires Stmt in s.path && s2 == s.(path := s.path + [Ntry], ntry := EntryRead(w))
    ensures OnEnd(s2, Ntry) == Running(t)
    ensures t.path == s.path && t.seenStatement == s.seenStatement
    ensures t.statement == s.statement.(transactions := s.statement.transactions + Booked(w))
  {
    EntryBecomes(w);
    hide EntryRead, BookedTransaction, Booked;
    assert s.statement.transactions + [] == s.statement.transactions;
    assert s2.path[..|s2.path| - 1] == s.path && Stmt in s2.path;
    t := OnEnd(s2, Ntry).state;
  }

  lemma EntryBecomes(w: WrittenEntry)
    ensures Booked(w) == match BookedTransaction(EntryRead(w)) case Some(t) => [t] case None => []
  {
    hide TrimXml;
  }

  lemma {:induction false} EntriesRun(s: State, entries: seq<WrittenEntry>) returns (t: State)
    requires Stmt in s.path
    ensures t.path == s.path && t.seenStatement == s.seenStatement
    ensures t.statement == s.statement.(transactions := s.statement.transactions + ReceivedAll(entries))
    ensures Run(Running(s), Flatten(EntriesForest(entries))) == Running(t)
    decreases |entries|
  {
    hide Run, Flatten, EntryForest, IsBooked, Received;
    if entries == [] {
      NothingRuns(s);
      t := s;
      assert s.statement.transactions + [] == s.statement.transactions;
    } else {
      var s1 := EntryIsReadBack(s, entries[0], EntriesForest(entries[1..]));
      t := EntriesRun(s1, entries[1..]);
      Regroup(s.statement.transactions, Booked(entries[0]), ReceivedAll(entries[1..]));
    }
  }

  // ---------- A balance ----------

  /** A leaf of a balance sets its field. */
  lemma BalanceLeafRuns(s: State, pre: seq<Elem>, rel: seq<Elem>, name: Elem, text: string, next: Forest<Elem>,
                        bal: Balance)
    requires s.path == pre + [Bal] + rel && Bal !in rel && IsQuiet(name) && BalanceFieldAt(rel + [name]) != Ignored
    requires TrimXml(text) != "" && SetBalanceField(s.bal, BalanceFieldAt(rel + [name]), TrimXml(text)) == Ok(bal)
    ensures Run(Running(s), Flatten(Leaf(name, text, next))) == Run(Running(s.(bal := bal)), Flatten(next))
  {
    LeafRuns(s, name, text, next);
    var inside := s.(path := s.path + [name]);
    assert inside.path == pre + [Bal] + (rel + [name]);
    FieldInsideBalance(pre, rel + [name]);
    hide FieldAt, Run, Flatten, Leaf, TrimXml, ParseAmount, Camt053.ParseDate;
    assert OnValue(inside, TrimXml(text)) == Ok(inside.(bal := bal));
  }

  function BalanceRead(code: string, b: WrittenBalance): Balance {
    Balance(code, Abs(b.ore), b.ore >= 0, b.date)
  }

  lemma CodeRuns(s: State, pre: seq<Elem>, code: string, next: Forest<Elem>)
    requires s.path == pre + [Bal] && code in {"OPBD", "CLBD"}
    ensures Run(Running(s), Flatten(Element(Tp, Element(CdOrPrtry, Leaf(Cd, code, Empty), Empty), next)))
         == Run(Running(s.(bal := s.bal.(code := code))), Flatten(next))
  {
    hide Leaf, Run, Flatten;
    var s1, bal := s.(path := s.path + [Tp]), s.bal.(code := code);
    ProprietaryRuns(s1, pre, code);
    ElementRuns(s, Tp, Element(CdOrPrtry, Leaf(Cd, code, Empty), Empty), next, s1.(bal := bal));
  }

  lemma ProprietaryRuns(s: State, pre: seq<Elem>, code: string)
    requires s.path == pre + [Bal] + [Tp] && code in {"OPBD", "CLBD"}
    ensures Run(Running(s), Flatten(Element(CdOrPrtry, Leaf(Cd, code, Empty), Empty)))
         == Running(s.(bal := s.bal.(code := code)))
  {
    CodeField(s.bal, code);
    hide Leaf, Run, Flatten, TrimXml, BalanceFieldAt, SetBalanceField;
    var s1, bal := s.(path := s.path + [CdOrPrtry]), s.bal.(code := code);
    assert s1.path == pre + [Bal] + [Tp, CdOrPrtry] && [Tp, CdOrPrtry] + [Cd] == [Tp, CdOrPrtry, Cd];
    BalanceLeafRuns(s1, pre, [Tp, CdOrPrtry], Cd, code, Empty, bal);
    NothingRuns(s1.(bal := bal));
    ElementRuns(s, CdOrPrtry, Leaf(Cd, code, Empty), Empty, s1.(bal := bal));
    NothingRuns(s.(bal := bal));
  }

  lemma CodeField(bal: Balance, code: string)
    requires code in {"OPBD", "CLBD"}
    ensures BalanceFieldAt([Tp, CdOrPrtry, Cd]) == BalanceCode
    ensures TrimXml(code) == code && SetBalanceField(bal, BalanceCode, code) == Ok(bal.(code := code))
  {
    TrimOfInk(code);
  }

  lemma BalanceAmountRuns(s: State, pre: seq<Elem>, ore: int, next: Forest<Elem>)
    requires s.path == pre + [Bal]
    ensures Run(Running(s), Flatten(Leaf(Amt, TwoDecimals(Abs(ore)), Leaf(CdtDbtInd, Side(ore), next))))
         == Run(Running(s.(bal := s.bal.(amount := Abs(ore), credit := ore >= 0))), Flatten(next))
  {
    hide Leaf, Run, Flatten, TrimXml, TwoDecimals, ParseAmount, Side;
    AmountText(Abs(ore));
    SideText(ore);
    assert pre + [Bal] + [] == pre + [Bal] && [] + [Amt] == [Amt] && [] + [CdtDbtInd] == [CdtDbtInd];
    var bal := s.bal.(amount := Abs(ore));
    BalanceLeafRuns(s, pre, [], Amt, TwoDecimals(Abs(ore)), Leaf(CdtDbtInd, Side(ore), next), bal);
    BalanceLeafRuns(s.(bal := bal), pre, [], CdtDbtInd, Side(ore), next, bal.(credit := ore >= 0));
  }

  lemma BalanceDateRuns(s: State, pre: seq<Elem>, date: Date)
    requires s.path == pre + [Bal]
    ensures Run(Running(s), Flatten(Element(Dt, Leaf(Dt, IsoString(date), Empty), Empty)))
         == Running(s.(bal := s.bal.(date := Some(date))))
  {
    hide Leaf, Run, Flatten, TrimXml, IsoString, Camt053.ParseDate;
    DateText(date);
    var s1, bal := s.(path := s.path + [Dt]), s.bal.(date := Some(date));
    assert [Dt] + [Dt] == [Dt, Dt];
    BalanceLeafRuns(s1, pre, [Dt], Dt, IsoString(date), Empty, bal);
    NothingRuns(s1.(bal := bal));
    ElementRuns(s, Dt, Leaf(Dt, IsoString(date), Empty), Empty, s1.(bal := bal));
    NothingRuns(s.(bal := bal));
  }

  lemma BalanceRuns(s: State, pre: seq<Elem>, code: string, b: WrittenBalance)
    requires s.path == pre + [Bal] && s.bal == FRESH_BALANCE && code in {"OPBD", "CLBD"}
    ensures Run(Running(s), Flatten(BalanceForest(code, b))) == Running(s.(bal := BalanceRead(code, b)))
  {
    var last: Forest<Elem> := match b.date case Some(date) => Element(Dt, Leaf(Dt, IsoString(date), Empty),
                                                                      Empty) case None => Empty;
    hide Leaf, Run, Flatten, IsoString, TwoDecimals, Side;
    CodeRuns(s, pre, code, Leaf(Amt, TwoDecimals(Abs(b.ore)), Leaf(CdtDbtInd, Side(b.ore), last)));
    var s1 := s.(bal := s.bal.(code := code));
    BalanceAmountRuns(s1, pre, b.ore, last);
    var s2 := s1.(bal := s1.bal.(amount := Abs(b.ore), credit := b.ore >= 0));
    if b.date.Some? {
      BalanceDateRuns(s2, pre, b.date.value);
    } else {
      NothingRuns(s2);
    }
  }

  /** What a balance does for the statement. */
  function WithBalance(statement: Statement, code: string, b: Option<WrittenBalance>): Statement {
    if b.None? then statement
    else if code == "OPBD" then
      statement.(openingOre := Some(b.value.ore),
                 fromDate := if statement.fromDate.Some? then statement.fromDate else b.value.date)
    else
      statement.(closingOre := Some(b.value.ore),
                 toDate := if statement.toDate.Some? then statement.toDate else b.value.date)
  }

  lemma BalanceIsReadBack(s: State, code: string, b: Option<WrittenBalance>, next: Forest<Elem>) returns (t: State)
    requires Stmt in s.path && code in {"OPBD", "CLBD"}
    ensures t.path == s.path && t.seenStatement == s.seenStatement && t.statement == WithBalance(s.statement, code, b)
    ensures Run(Running(s), Flatten(OptBalance(code, b, next))) == Run(Running(t), Flatten(next))
  {
    if b.Some? {
      var s1 := OnStart(s, Bal).state;
      assert OnStart(s, Bal) == Running(s1);
      hide Run, Flatten, BalanceForest;
      BalanceRuns(s1, s.path, code, b.value);
      t := BalanceCloses(s, s1.(bal := BalanceRead(code, b.value)), code, b.value);
      hide OnStart, OnEnd;
      BlockRuns(s, Bal, BalanceForest(code, b.value), next, s1, s1.(bal := BalanceRead(code, b.value)), t);
    } else {
      t := s;
    }
  }

  lemma BalanceCloses(s: State, s2: State, code: string, b: WrittenBalance) returns (t: State)
    requires Stmt in s.path && code in {"OPBD", "CLBD"}
    requires s2.path == s.path + [Bal] && s2.statement == s.statement && s2.seenStatement == s.seenStatement
    requires s2.bal == BalanceRead(code, b)
    ensures OnEnd(s2, Bal) == Running(t)
    ensures t.path == s.path && t.seenStatement == s.seenStatement
      && t.statement == WithBalance(s.statement, code, Some(b))
  {
    BalanceCounts(s.statement, code, b);
    hide CloseBalance, WithBalance, BalanceRead;
    assert s2.path[..|s2.path| - 1] == s.path && Stmt in s2.path;
    t := OnEnd(s2, Bal).state;
  }

  lemma BalanceCounts(statement: Statement, code: string, b: WrittenBalance)
    requires code in {"OPBD", "CLBD"}
    ensures CloseBalance(statement, BalanceRead(code, b)) == WithBalance(statement, code, Some(b))
  {
  }

  // ---------- Whole documents ----------

  lemma IdRuns(s: State, pre: seq<Elem>, text: string, next: Forest<Elem>)
    requires s.path == pre + [Stmt] && s.statement.statementRef == ""
    ensures Run(Running(s), Flatten(Leaf(Id, text, next)))
         == Run(Running(s.(statement := s.statement.(statementRef := TrimXml(text)))), Flatten(next))
  {
    LeafRuns(s, Id, text, next);
    var p := s.path + [Id];
    assert p[|p| - 2..] == [Stmt, Id];
    hide Run, Flatten, Leaf, TrimXml;
  }

  lemma AccountRuns(s: State, pre: seq<Elem>, iban: Option<string>, next: Forest<Elem>)
    requires s.path == pre + [Stmt] && s.statement.iban == None
    ensures Run(Running(s), Flatten(AccountForest(iban, next)))
         == Run(Running(s.(statement := s.statement.(iban := Kept(iban)))), Flatten(next))
  {
    if iban.Some? {
      var s1, s2 := s.(path := s.path + [Acct]), s.(path := s.path + [Acct] + [Id]);
      LeafRuns(s2, IBAN, iban.value, Empty);
      var p := s2.path + [IBAN];
      IbanField(pre);
      assert p == pre + [Stmt, Acct, Id, IBAN];
      hide FieldAt, Run, Flatten, Leaf, TrimXml, EndsWith;
      var read := s.statement.(iban := Kept(iban));
      NothingRuns(s2.(statement := read));
      ElementRuns(s1, Id, Leaf(IBAN, iban.value, Empty), Empty, s2.(statement := read));
      NothingRuns(s1.(statement := read));
      ElementRuns(s, Acct, Element(Id, Leaf(IBAN, iban.value, Empty), Empty), next, s1.(statement := read));
    }
  }

  lemma IbanField(pre: seq<Elem>)
    ensures FieldAt(pre + [Stmt, Acct, Id, IBAN]) == StatementIban
  {
    var p := pre + [Stmt, Acct, Id, IBAN];
    assert p[|p| - 4..] == [Stmt, Acct, Id, IBAN];
    assert p[|p| - 1] == IBAN;
    if EndsWith(p, [Stmt, Id]) {
      LastTwo(p, [Stmt, Id]);
    }
    hide EndsWith;
  }

  /** What a written statement is read as. */
  function StatementRead(w: WrittenStatement): Statement {
    Statement(
      statementRef := TrimXml(w.id),
      iban := Kept(w.iban),
      fromDate := if w.opening.Some? then w.opening.value.date else None,
      toDate := if w.closing.Some? then w.closing.value.date else None,
      openingOre := if w.opening.Some? then Some(w.opening.value.ore) else None,
      closingOre := if w.closing.Some? then Some(w.closing.value.ore) else None,
      transactions := ReceivedAll(w.entries))
  }

  lemma StatementRuns(s: State, pre: seq<Elem>, w: WrittenStatement) returns (t: State)
    requires s.path == pre + [Stmt] && s.statement == EMPTY_STATEMENT
    ensures t.path == s.path && t.statement == StatementRead(w)
    ensures
      Run(Running(s), Flatten(Leaf(Id, w.id, AccountForest(w.iban,
          OptBalance("OPBD", w.opening, OptBalance("CLBD", w.closing, EntriesForest(w.entries)))))))
      == Running(t)
  {
    hide Run, Flatten, Leaf, AccountForest, OptBalance, EntriesForest, TrimXml, ReceivedAll;
    var entries := EntriesForest(w.entries);
    var closing := OptBalance("CLBD", w.closing, entries);
    var opening := OptBalance("OPBD", w.opening, closing);
    IdRuns(s, pre, w.id, AccountForest(w.iban, opening));
    var s1 := s.(statement := s.statement.(statementRef := TrimXml(w.id)));
    AccountRuns(s1, pre, w.iban, opening);
    var s2 := s1.(statement := s1.statement.(iban := Kept(w.iban)));
    var s3 := BalanceIsReadBack(s2, "OPBD", w.opening, closing);
    var s4 := BalanceIsReadBack(s3, "CLBD", w.closing, entries);
    t := EntriesRun(s4, w.entries);
    assert [] + ReceivedAll(w.entries) == ReceivedAll(w.entries);
  }

  /** For every statement: the document written of it is read, and gives its identification,
      account, balances of either sign, and every booked transaction, in order, with the
      sign it was written with; entries that are not booked give none. */
  lemma WrittenStatementIsReadBack(w: WrittenStatement)
    ensures Camt053.ParseResult(DocumentForest(w)) == Ok(StatementRead(w))
  {
    var inStmt := Leaf(Id, w.id, AccountForest(w.iban,
        OptBalance("OPBD", w.opening, OptBalance("CLBD", w.closing, EntriesForest(w.entries)))));
    var s2 := INITIAL.(path := [Other("Document")] + [Other("BkToCstmrStmt")]);
    var s3 := s2.(path := s2.path + [Stmt]);
    var t := StatementRuns(s3, s2.path, w);
    hide Leaf, AccountForest, OptBalance, EntriesForest, TrimXml, ReceivedAll, StatementRead, Run, Flatten;
    var u := StatementCloses(s2, t);
    assert OnStart(s2, Stmt) == Running(s3);
    BlockRuns(s2, Stmt, inStmt, Empty, s3, t, u);
    NothingRuns(u);
    DocumentRuns(Element(Stmt, inStmt, Empty), u);
  }

  /** The two elements around a statement add nothing. */
  lemma DocumentRuns(stmt: Forest<Elem>, u: State)
    requires u.path == [Other("Document")] + [Other("BkToCstmrStmt")] && u.seenStatement
    requires Run(Running(INITIAL.(path := u.path)), Flatten(stmt)) == Running(u)
    ensures Camt053.ParseResult(Element(Other("Document"), Element(Other("BkToCstmrStmt"), stmt, Empty), Empty))
      == Ok(u.statement)
  {
    hide OnStart, OnEnd, Run, Flatten;
    var s1 := INITIAL.(path := [Other("Document")]);
    ElementRuns(s1, Other("BkToCstmrStmt"), stmt, Empty, u);
    NothingRuns(u.(path := s1.path));
    assert INITIAL.path + [Other("Document")] == s1.path;
    ElementRuns(INITIAL, Other("Document"), Element(Other("BkToCstmrStmt"), stmt, Empty), Empty, u.(path := s1.path));
    NothingRuns(u.(path := []));
  }

  lemma StatementCloses(s: State, t: State) returns (u: State)
    requires t.path == s.path + [Stmt]
    ensures OnEnd(t, Stmt) == Running(u) && u.path == s.path && u.seenStatement && u.statement == t.statement
  {
    u := OnEnd(t, Stmt).state;
  }

  /** Among them: one booked transaction of any amount comes back with its own sign, and the
      same entry with any other status does not come back at all. */
  lemma SignAndStatus(t: Transaction, status: string)
    requires t.description == "" && t.reference == None && TrimXml(status) == status != ""
    ensures
      var entry := WrittenEntry(t, Some(status), false, None, false);
      var result := Camt053.ParseResult(DocumentForest(WrittenStatement("1", None, None, None, [entry])));
      result.Ok? && result.value.transactions == if status == "BOOK" then [t] else []
  {
    var entry := WrittenEntry(t, Some(status), false, None, false);
    WrittenStatementIsReadBack(WrittenStatement("1", None, None, None, [entry]));
    assert TrimXml("") == "";
    hide Camt053.ParseResult, DocumentForest, TrimXml;
    assert Received(t) == t;
    OneEntry(entry);
  }

  lemma OneEntry(w: WrittenEntry)
    ensures ReceivedAll([w]) == if IsBooked(w) then [Received(w.transaction)] else []
  {
    assert [w][1..] == [] && [Received(w.transaction)] + [] == [Received(w.transaction)];
  }
}
