/** The entries of a camt.053 statement: each is read from its own contents, and an
    entry inside an entry wipes what the outer one had read. */
module CamtEntries {
  import opened Wrappers
  import opened Xml
  import opened Camt053
  import opened CamtStatement

  // ---------- What an entry means ----------

  /** What a text inside an entry is, by its path from the entry down. */
  function EntryFieldAt(rel: seq<Elem>): Field {
    if rel == [Amt] then EntryAmount
    else if rel == [CdtDbtInd] then EntryCredit
    else if rel == [Sts] || rel == [Sts, Cd] then EntryStatus
    else if rel == [BookgDt, Dt] || rel == [BookgDt, DtTm] then EntryDate
    else if EndsWith(rel, [Refs, EndToEndId]) then EntryReference
    else if EndsWith(rel, [RmtInf, Ustrd]) || rel == [AddtlNtryInf] then EntryDescription
    else Ignored
  }

  /** The entry as it stands, and the transactions that entries inside it have become. */
  datatype Reading = Reading(entry: Entry, found: seq<Transaction>)

  function Prepend(found: seq<Transaction>, r: Result<Reading, CamtError>): Result<Reading, CamtError> {
    match r
    case Ok(reading) => Ok(Reading(reading.entry, found + reading.found))
    case Err(e) => Err(e)
  }

  function AsList<T>(option: Option<T>): seq<T> {
    match option
    case Some(value) => [value]
    case None => []
  }

  /** What a closed entry has become. */
  function Finished(reading: Reading): seq<Transaction> {
    reading.found + AsList(BookedTransaction(reading.entry))
  }

  /** What is left of it in the variables: its texts are taken, the rest stays. */
  function Leftover(entry: Entry): Entry {
    if BookedTransaction(entry).Some? then entry.(description := "", reference := None) else entry
  }

  /** An entry read from its own contents and nothing else. */
  function ReadEntry(entry: Entry, rel: seq<Elem>, f: Forest<Elem>): Result<Reading, CamtError>
    decreases f, 0
  {
    match f
    case Empty => Ok(Reading(entry, []))
    case SelfClosed(_, next) => ReadEntry(entry, rel, next)
    case Text(raw, next) =>
      (match TextValue(raw)
       case None => Err(BadXml)
       case Some(value) =>
         if value == "" then ReadEntry(entry, rel, next)
         else match SetEntryField(entry, EntryFieldAt(rel), value)
           case Ok(entry') => ReadEntry(entry', rel, next)
           case Err(e) => Err(e))
    case Element(name, children, next) =>
      (match ReadElement(entry, rel, name, children)
       case Ok(reading) => Prepend(reading.found, ReadEntry(reading.entry, rel, next))
       case Err(e) => Err(e))
  }

  /** An element inside an entry; another entry starts afresh and leaves its leftovers. */
  function ReadElement(entry: Entry, rel: seq<Elem>, name: Elem, children: Forest<Elem>): Result<Reading, CamtError>
    decreases children, 1
  {
    if name == Ntry then
      match ReadEntry(FRESH_ENTRY, [], children)
      case Ok(inner) => Ok(Reading(Leftover(inner.entry), Finished(inner)))
      case Err(e) => Err(e)
    else ReadEntry(entry, rel + [name], children)
  }

  /** The transactions one entry of a statement becomes. */
  function TransactionsOf(block: Forest<Elem>): seq<Transaction> {
    match ReadEntry(FRESH_ENTRY, [], block)
    case Ok(reading) => Finished(reading)
    case Err(_) => []
  }

  function AllTransactions(blocks: seq<Forest<Elem>>): seq<Transaction> {
    if blocks == [] then [] else TransactionsOf(blocks[0]) + AllTransactions(blocks[1..])
  }

  lemma {:induction false} AllTransactionsAppend(a: seq<Forest<Elem>>, b: seq<Forest<Elem>>)
    ensures AllTransactions(a + b) == AllTransactions(a) + AllTransactions(b)
  {
    hide TransactionsOf;
    if a == [] {
      assert a + b == b;
    } else {
      assert (a + b)[1..] == a[1..] + b;
      AllTransactionsAppend(a[1..], b);
    }
  }

  // ---------- Fields inside an entry ----------

  predicate IsEntryField(field: Field) {
    field in {EntryAmount, EntryCredit, EntryStatus, EntryDate, EntryReference, EntryDescription}
  }

  /** The last two names of the statement's and the balances' patterns. */
  predicate EndsOtherwise(a: Elem, b: Elem) {
    b == Id || b == IBAN || a == Bal || (a == CdOrPrtry && b == Cd) || a == Dt
  }

  /** The statement's and the balances' patterns never address an entry. */
  lemma OtherFieldsAreNotEntryFields(rel: seq<Elem>, tail: seq<Elem>)
    requires |tail| >= 2 && EndsWith(rel, tail) && EndsOtherwise(tail[|tail| - 2], tail[|tail| - 1])
    ensures EntryFieldAt(rel) == Ignored
  {
    hide EndsWith;
    LastTwo(rel, tail);
    if EndsWith(rel, [Refs, EndToEndId]) {
      LastTwo(rel, [Refs, EndToEndId]);
    }
    if EndsWith(rel, [RmtInf, Ustrd]) {
      LastTwo(rel, [RmtInf, Ustrd]);
    }
  }

  /** Without one of the other patterns only the entry's own are left. */
  lemma OnlyEntryFieldsAreLeft(p: seq<Elem>, rel: seq<Elem>)
    requires Ntry in p
    requires
      && !EndsWith(p, [Stmt, Id]) && !EndsWith(p, [Stmt, Acct, Id, IBAN]) && !EndsWith(p, [Bal, Tp, CdOrPrtry, Cd])
      && !EndsWith(p, [Bal, Amt]) && !EndsWith(p, [Bal, CdtDbtInd])
      && !EndsWith(p, [Bal, Dt, Dt]) && !EndsWith(p, [Bal, Dt, DtTm])
    requires EntryPatternsAgree(p, rel)
    ensures FieldAt(p) == EntryFieldAt(rel)
  {
  }

  predicate EntryPatternsAgree(p: seq<Elem>, rel: seq<Elem>) {
    && (EndsWith(p, [Ntry, Amt]) <==> rel == [Amt])
    && (EndsWith(p, [Ntry, CdtDbtInd]) <==> rel == [CdtDbtInd])
    && (EndsWith(p, [Ntry, Sts]) <==> rel == [Sts])
    && (EndsWith(p, [Ntry, Sts, Cd]) <==> rel == [Sts, Cd])
    && (EndsWith(p, [Ntry, BookgDt, Dt]) <==> rel == [BookgDt, Dt])
    && (EndsWith(p, [Ntry, BookgDt, DtTm]) <==> rel == [BookgDt, DtTm])
    && (EndsWith(p, [Ntry, AddtlNtryInf]) <==> rel == [AddtlNtryInf])
    && (EndsWith(p, [Refs, EndToEndId]) <==> EndsWith(rel, [Refs, EndToEndId]))
    && (EndsWith(p, [RmtInf, Ustrd]) <==> EndsWith(rel, [RmtInf, Ustrd]))
  }

  /** Below an entry the entry's fields depend on the path from the entry only. */
  lemma FieldInsideEntry(pre: seq<Elem>, rel: seq<Elem>)
    requires Ntry !in rel
    ensures
      var field := FieldAt(pre + [Ntry] + rel);
      if IsEntryField(field) then field == EntryFieldAt(rel) else EntryFieldAt(rel) == Ignored
  {
    hide EndsWith, EntryFieldAt, EntryPatternsAgree;
    var p := pre + [Ntry] + rel;
    DeepTail(pre, Ntry, rel, [Stmt, Id]);
    DeepTail(pre, Ntry, rel, [Stmt, Acct, Id, IBAN]);
    DeepTail(pre, Ntry, rel, [Bal, Tp, CdOrPrtry, Cd]);
    DeepTail(pre, Ntry, rel, [Bal, Amt]);
    DeepTail(pre, Ntry, rel, [Bal, CdtDbtInd]);
    DeepTail(pre, Ntry, rel, [Bal, Dt, Dt]);
    DeepTail(pre, Ntry, rel, [Bal, Dt, DtTm]);
    if EndsWith(p, [Stmt, Id]) {
      OtherFieldsAreNotEntryFields(rel, [Stmt, Id]);
    } else if EndsWith(p, [Stmt, Acct, Id, IBAN]) {
      OtherFieldsAreNotEntryFields(rel, [Stmt, Acct, Id, IBAN]);
    } else if EndsWith(p, [Bal, Tp, CdOrPrtry, Cd]) {
      OtherFieldsAreNotEntryFields(rel, [Bal, Tp, CdOrPrtry, Cd]);
    } else if EndsWith(p, [Bal, Amt]) {
      OtherFieldsAreNotEntryFields(rel, [Bal, Amt]);
    } else if EndsWith(p, [Bal, CdtDbtInd]) {
      OtherFieldsAreNotEntryFields(rel, [Bal, CdtDbtInd]);
    } else if EndsWith(p, [Bal, Dt, Dt]) {
      OtherFieldsAreNotEntryFields(rel, [Bal, Dt, Dt]);
    } else if EndsWith(p, [Bal, Dt, DtTm]) {
      OtherFieldsAreNotEntryFields(rel, [Bal, Dt, DtTm]);
    } else {
      assert Ntry in p;
      EntryTails(pre, rel);
      OnlyEntryFieldsAreLeft(p, rel);
      RelativeFieldIsEntryField(rel);
    }
  }

  lemma RelativeFieldIsEntryField(rel: seq<Elem>)
    ensures IsEntryField(EntryFieldAt(rel)) || EntryFieldAt(rel) == Ignored
  {
  }

  lemma EntryTails(pre: seq<Elem>, rel: seq<Elem>)
    requires Ntry !in rel
    ensures EntryPatternsAgree(pre + [Ntry] + rel, rel)
  {
    DeepTail(pre, Ntry, rel, [Refs, EndToEndId]);
    DeepTail(pre, Ntry, rel, [RmtInf, Ustrd]);
    TailBelow(pre, Ntry, rel, [Amt]);
    TailBelow(pre, Ntry, rel, [CdtDbtInd]);
    TailBelow(pre, Ntry, rel, [Sts]);
    TailBelow(pre, Ntry, rel, [Sts, Cd]);
    TailBelow(pre, Ntry, rel, [BookgDt, Dt]);
    TailBelow(pre, Ntry, rel, [BookgDt, DtTm]);
    TailBelow(pre, Ntry, rel, [AddtlNtryInf]);
    assert [Ntry] + [Amt] == [Ntry, Amt] && [Ntry] + [CdtDbtInd] == [Ntry, CdtDbtInd];
    assert [Ntry] + [Sts] == [Ntry, Sts] && [Ntry] + [Sts, Cd] == [Ntry, Sts, Cd];
    assert [Ntry] + [BookgDt, Dt] == [Ntry, BookgDt, Dt] && [Ntry] + [BookgDt, DtTm] == [Ntry, BookgDt, DtTm];
    assert [Ntry] + [AddtlNtryInf] == [Ntry, AddtlNtryInf];
  }

  // ---------- The machine reads entries ----------

  /** The machine has come as far as `s`, with some transactions more. */
  predicate FoundMore(s: State, m: Machine, added: seq<Transaction>) {
    || m.Failed?
    || (m.Running? && m.state.path == s.path
        && m.state.statement.transactions == s.statement.transactions + added)
  }

  lemma FoundMoreTwice(s: State, m: Machine, added: seq<Transaction>, m': Machine, added': seq<Transaction>)
    requires FoundMore(s, m, added) && m.Running? && FoundMore(m.state, m', added')
    ensures FoundMore(s, m', added + added')
  {
  }

  /** A text adds no transaction. */
  lemma CharsAddNothing(s: State, raw: string)
    ensures FoundMore(s, OnChars(s, raw), []) && !OnChars(s, raw).Stopped?
  {
    hide FieldAt, ParseAmount, ParseDate, TextValue;
  }

  /** A text inside an entry sets the entry's field or none of them. */
  lemma CharsInsideEntry(s: State, pre: seq<Elem>, rel: seq<Elem>, raw: string)
    requires s.path == pre + [Ntry] + rel && Ntry !in rel
    ensures
      var m := OnChars(s, raw);
      m.Running? ==>
        && TextValue(raw).Some?
        && Ok(m.state.ntry) == if TextValue(raw).value == "" then Ok(s.ntry)
                               else SetEntryField(s.ntry, EntryFieldAt(rel), TextValue(raw).value)
  {
    hide FieldAt, EntryFieldAt, ParseAmount, ParseDate, TextValue;
    FieldInsideEntry(pre, rel);
  }

  /** The machine has assembled what `reading` says. */
  predicate IsRead(s: State, m: Machine, reading: Result<Reading, CamtError>) {
    m.Failed? || (reading.Ok? && FoundMore(s, m, reading.value.found) && m.state.ntry == reading.value.entry)
  }

  /** Inside an entry the machine assembles exactly what `ReadEntry` reads, entries in
      entries included. */
  lemma {:induction false} InsideEntry(s: State, pre: seq<Elem>, rel: seq<Elem>, f: Forest<Elem>)
    requires s.path == pre + [Ntry] + rel && Ntry !in rel && Stmt in pre && RunsOn(s.seenStatement, f)
    ensures IsRead(s, Run(Running(s), Flatten(f)), ReadEntry(s.ntry, rel, f))
    decreases f, 0
  {
    hide OnChars, OnStart, OnEnd, SetEntryField, EntryFieldAt, TextValue, ReadElement;
    match f
    case Empty =>
    case SelfClosed(name, next) =>
      RunSelfClosed(Running(s), name, next);
      InsideEntry(s, pre, rel, next);
    case Text(raw, next) =>
      RunText(Running(s), raw, next);
      CharsAddNothing(s, raw);
      CharsStayPut(s, raw);
      CharsInsideEntry(s, pre, rel, raw);
      var m := OnChars(s, raw);
      if m.Failed? {
        RunHalted(m, Flatten(next));
      } else {
        InsideEntry(m.state, pre, rel, next);
      }
    case Element(name, children, next) =>
      RunElement(Running(s), name, children, next);
      ElementRunsIff(s, name, children);
      ElementInsideEntry(s, pre, rel, name, children);
      var m := Step(Run(OnStart(s, name), Flatten(children)), End(name));
      if m.Failed? {
        RunHalted(m, Flatten(next));
      } else {
        InsideEntry(m.state, pre, rel, next);
        ReadTwice(s, m, ReadElement(s.ntry, rel, name, children).value, Run(m, Flatten(next)),
                  ReadEntry(m.state.ntry, rel, next));
      }
  }

  lemma ReadTwice(s: State, m: Machine, first: Reading, m': Machine, second: Result<Reading, CamtError>)
    requires m.Running? && IsRead(s, m, Ok(first)) && IsRead(m.state, m', second)
    ensures IsRead(s, m', Prepend(first.found, second))
  {
  }

  lemma OneBlock(block: Forest<Elem>)
    ensures AllTransactions([block]) == TransactionsOf(block)
  {
    assert [block][1..] == [] && TransactionsOf(block) + [] == TransactionsOf(block);
  }

  /** The end of an entry: it becomes a transaction or not, and leaves its leftovers. */
  lemma EntryEnds(s: State, u: State, reading: Reading)
    requires Stmt in s.path && u.path == s.path + [Ntry] && FoundMore(s.(path := u.path), Running(u), reading.found)
    requires u.ntry == reading.entry
    ensures
      var m := OnEnd(u, Ntry);
      && m.Running? && FoundMore(s, m, Finished(reading)) && m.state.ntry == Leftover(reading.entry)
  {
    hide BookedTransaction;
    Regroup(s.statement.transactions, reading.found, AsList(BookedTransaction(reading.entry)));
  }

  lemma OtherEnds(s: State, u: State, name: Elem, found: seq<Transaction>)
    requires name != Ntry && u.path == s.path + [name]
    requires FoundMore(s.(path := u.path), Running(u), found)
    ensures
      var m := OnEnd(u, name);
      m.Running? && FoundMore(s, m, found) && m.state.ntry == u.ntry
  {
  }

  lemma {:induction false} ElementInsideEntry(s: State, pre: seq<Elem>, rel: seq<Elem>, name: Elem,
                                              children: Forest<Elem>)
    requires s.path == pre + [Ntry] + rel && Ntry !in rel && Stmt in pre
    requires !(name == Stmt && s.seenStatement) && RunsOn(s.seenStatement, children)
    ensures
      var m := Step(Run(OnStart(s, name), Flatten(children)), End(name));
      IsRead(s, m, ReadElement(s.ntry, rel, name, children)) && !m.Stopped?
    decreases children, 1
  {
    hide Flatten, Run, ReadEntry, OnEnd;
    var s1 := OnStart(s, name).state;
    var m := Run(Running(s1), Flatten(children));
    if name == Ntry {
      assert s1.path == s.path + [Ntry] + [];
      InsideEntry(s1, s.path, [], children);
      if m.Running? {
        EntryEnds(s, m.state, ReadEntry(FRESH_ENTRY, [], children).value);
      }
    } else {
      assert s1.path == pre + [Ntry] + (rel + [name]);
      InsideEntry(s1, pre, rel + [name], children);
      if m.Running? {
        OtherEnds(s, m.state, name, ReadEntry(s.ntry, rel + [name], children).value.found);
      }
    }
  }

  /** One element of a statement, from its start to its end. */
  lemma {:induction false} ElementInStatement(s: State, name: Elem, children: Forest<Elem>)
    requires Stmt in s.path && !(name == Stmt && s.seenStatement) && RunsOn(s.seenStatement, children)
    ensures
      var m := Step(Run(OnStart(s, name), Flatten(children)), End(name));
      FoundMore(s, m, AllTransactions(if name == Ntry then [children] else Blocks(children, Ntry))) && !m.Stopped?
    decreases children, 1
  {
    hide Flatten, Run, ReadEntry, OnEnd;
    var s1 := OnStart(s, name).state;
    var m := Run(Running(s1), Flatten(children));
    if name == Ntry {
      assert s1.path == s.path + [Ntry] + [];
      InsideEntry(s1, s.path, [], children);
      OneBlock(children);
      if m.Running? {
        EntryEnds(s, m.state, ReadEntry(FRESH_ENTRY, [], children).value);
      }
    } else {
      InsideStatement(s1, children);
      if m.Running? {
        OtherEnds(s, m.state, name, AllTransactions(Blocks(children, Ntry)));
      }
    }
  }

  /** Inside a statement every entry is read on its own, in order. */
  lemma {:induction false} InsideStatement(s: State, f: Forest<Elem>)
    requires Stmt in s.path && RunsOn(s.seenStatement, f)
    ensures
      var m := Run(Running(s), Flatten(f));
      FoundMore(s, m, AllTransactions(Blocks(f, Ntry))) && !m.Stopped?
    decreases f, 0
  {
    hide OnChars, OnStart, OnEnd, TransactionsOf;
    match f
    case Empty =>
    case SelfClosed(name, next) =>
      RunSelfClosed(Running(s), name, next);
      InsideStatement(s, next);
    case Text(raw, next) =>
      RunText(Running(s), raw, next);
      CharsAddNothing(s, raw);
      CharsStayPut(s, raw);
      var m := OnChars(s, raw);
      if m.Failed? {
        RunHalted(m, Flatten(next));
      } else {
        InsideStatement(m.state, next);
      }
    case Element(name, children, next) =>
      RunElement(Running(s), name, children, next);
      ElementRunsIff(s, name, children);
      ElementInStatement(s, name, children);
      var m := Step(Run(OnStart(s, name), Flatten(children)), End(name));
      var blocks := if name == Ntry then [children] else Blocks(children, Ntry);
      AllTransactionsAppend(blocks, Blocks(next, Ntry));
      if m.Failed? {
        RunHalted(m, Flatten(next));
      } else {
        InsideStatement(m.state, next);
        FoundMoreTwice(s, m, AllTransactions(blocks), Run(m, Flatten(next)), AllTransactions(Blocks(next, Ntry)));
      }
  }

  // ---------- Documents ----------

  lemma ReadOfStatement(base: Statement, contents: Forest<Elem>, result: Statement)
    requires IsReadOf(base, contents, result) && RunsOn(false, contents)
    ensures result.transactions == base.transactions + AllTransactions(Blocks(contents, Ntry))
  {
    hide Run, Flatten, AllTransactions;
    var s: State :|
      && Stmt in s.path && !s.seenStatement && s.statement == base
      && Run(Running(s), Flatten(contents)).Running?
      && Run(Running(s), Flatten(contents)).state.statement == result;
    InsideStatement(s, contents);
  }

  /** The transactions of a parsed document are what the entries of its first statement
      become, in order, each read from its own contents, entries in entries included -
      for every document whose first statement is read to its end. A readable document
      with a statement is always parsed; one without is refused. */
  lemma TransactionsAreTheFirstStatementsEntries(doc: Forest<Elem>)
    requires FirstIsWhole(doc)
    ensures ParseResult(doc).Ok? ==>
      && Blocks(doc, Stmt) != []
      && ParseResult(doc).value.transactions == AllTransactions(Blocks(Blocks(doc, Stmt)[0], Ntry))
    ensures IsReadable([], doc) && Blocks(doc, Stmt) != [] ==> ParseResult(doc).Ok?
    ensures IsReadable([], doc) && Blocks(doc, Stmt) == [] ==> ParseResult(doc) == Err(NoStatement)
  {
    hide AllTransactions, ParseResult, IsReadable, IsReadOf, RunsOn, Blocks;
    DocumentIsItsFirstStatement(doc);
    if ParseResult(doc).Ok? {
      ReadOfStatement(EMPTY_STATEMENT, Blocks(doc, Stmt)[0], ParseResult(doc).value);
      assert [] + AllTransactions(Blocks(Blocks(doc, Stmt)[0], Ntry))
        == AllTransactions(Blocks(Blocks(doc, Stmt)[0], Ntry));
    }
  }

  /** Nothing outside the entries of the first statement matters: documents that agree
      on those agree on the transactions, whatever else either of them holds. */
  lemma NothingElseLeaks(a: Forest<Elem>, b: Forest<Elem>)
    requires FirstIsWhole(a) && FirstIsWhole(b) && ParseResult(a).Ok? && ParseResult(b).Ok?
    requires Blocks(a, Stmt) != [] && Blocks(b, Stmt) != []
    requires Blocks(Blocks(a, Stmt)[0], Ntry) == Blocks(Blocks(b, Stmt)[0], Ntry)
    ensures ParseResult(a).value.transactions == ParseResult(b).value.transactions
  {
    hide ParseResult, FirstIsWhole, AllTransactions, Blocks;
    TransactionsAreTheFirstStatementsEntries(a);
    TransactionsAreTheFirstStatementsEntries(b);
  }

  // ---------- Entries that hold no entry ----------

  /** An entry without another one inside becomes one transaction if it is booked and
      dated, signed by its own CdtDbtInd, and nothing otherwise. */
  lemma {:induction false} PlainEntryFindsNothing(entry: Entry, rel: seq<Elem>, f: Forest<Elem>)
    requires Lacks(f, Ntry) && ReadEntry(entry, rel, f).Ok?
    ensures ReadEntry(entry, rel, f).value.found == []
    decreases f
  {
    hide SetEntryField, EntryFieldAt, TextValue;
    match f
    case Empty =>
    case SelfClosed(_, next) => PlainEntryFindsNothing(entry, rel, next);
    case Text(raw, next) =>
      if TextValue(raw) == Some("") {
        PlainEntryFindsNothing(entry, rel, next);
      } else {
        PlainEntryFindsNothing(SetEntryField(entry, EntryFieldAt(rel), TextValue(raw).value).value, rel, next);
      }
    case Element(name, children, next) =>
      PlainEntryFindsNothing(entry, rel + [name], children);
      PlainEntryFindsNothing(ReadEntry(entry, rel + [name], children).value.entry, rel, next);
  }

  lemma PlainEntryIsOneTransaction(block: Forest<Elem>)
    requires Lacks(block, Ntry) && ReadEntry(FRESH_ENTRY, [], block).Ok?
    ensures TransactionsOf(block) == AsList(BookedTransaction(ReadEntry(FRESH_ENTRY, [], block).value.entry))
  {
    hide ReadEntry, BookedTransaction;
    PlainEntryFindsNothing(FRESH_ENTRY, [], block);
  }

  // ---------- Entries that do ----------

  /** For the machine, in every state: an entry that opens inside another wipes whatever
      the outer one had read; from there on the run does not depend on it. */
  lemma NestedEntryWipes(s: State, entry: Entry, inner: Forest<Elem>, post: Forest<Elem>)
    ensures Run(Running(s.(ntry := entry)), Flatten(Element(Ntry, inner, post)))
         == Run(Running(s), Flatten(Element(Ntry, inner, post)))
  {
    hide Run, Flatten;
    RunElement(Running(s.(ntry := entry)), Ntry, inner, post);
    RunElement(Running(s), Ntry, inner, post);
  }

  /** Reading `pre` and then `post` is reading them joined. */
  lemma {:induction false} ReadJoined(entry: Entry, rel: seq<Elem>, pre: Forest<Elem>, post: Forest<Elem>)
    ensures ReadEntry(entry, rel, Join(pre, post))
         == match ReadEntry(entry, rel, pre)
            case Ok(reading) => Prepend(reading.found, ReadEntry(reading.entry, rel, post))
            case Err(e) => Err(e)
    decreases pre
  {
    hide SetEntryField, EntryFieldAt, TextValue, ReadElement;
    match pre
    case Empty => NothingPrepended(ReadEntry(entry, rel, post));
    case SelfClosed(_, next) => ReadJoined(entry, rel, next, post);
    case Text(raw, next) =>
      if TextValue(raw) == Some("") {
        ReadJoined(entry, rel, next, post);
      } else if TextValue(raw).Some? && SetEntryField(entry, EntryFieldAt(rel), TextValue(raw).value).Ok? {
        ReadJoined(SetEntryField(entry, EntryFieldAt(rel), TextValue(raw).value).value, rel, next, post);
      }
    case Element(name, children, next) =>
      var first := ReadElement(entry, rel, name, children);
      if first.Ok? {
        ReadJoined(first.value.entry, rel, next, post);
        var rest := ReadEntry(first.value.entry, rel, next);
        if rest.Ok? {
          PrependedTwice(first.value.found, rest.value.found, ReadEntry(rest.value.entry, rel, post));
        }
      }
  }

  lemma NothingPrepended(r: Result<Reading, CamtError>)
    ensures Prepend([], r) == r
  {
    if r.Ok? {
      assert [] + r.value.found == r.value.found;
    }
  }

  lemma PrependedTwice(a: seq<Transaction>, b: seq<Transaction>, r: Result<Reading, CamtError>)
    ensures Prepend(a, Prepend(b, r)) == Prepend(a + b, r)
  {
    if r.Ok? {
      Regroup(a, b, r.value.found);
    }
  }

  /** An entry `pre`, entry `inner`, `post`, exactly, whatever these hold: what `pre` said
      of the outer entry is lost, the inner one becomes what it becomes on its own, and
      the outer one is read from the inner one's leftovers and `post`. */
  lemma NestedEntryIsReadSo(pre: Forest<Elem>, inner: Forest<Elem>, post: Forest<Elem>)
    requires ReadEntry(FRESH_ENTRY, [], pre).Ok? && ReadEntry(FRESH_ENTRY, [], inner).Ok?
    requires ReadEntry(LeftoverOf(inner), [], post).Ok?
    ensures TransactionsOf(Join(pre, Element(Ntry, inner, post)))
         == ReadEntry(FRESH_ENTRY, [], pre).value.found
          + (TransactionsOf(inner) + Finished(ReadEntry(LeftoverOf(inner), [], post).value))
  {
    hide BookedTransaction;
    var nested := Element(Ntry, inner, post);
    ReadJoined(FRESH_ENTRY, [], pre, nested);
    var first, outer := ReadEntry(FRESH_ENTRY, [], pre).value, ReadEntry(LeftoverOf(inner), [], post).value;
    var inside := TransactionsOf(inner);
    assert ReadElement(first.entry, [], Ntry, inner) == Ok(Reading(LeftoverOf(inner), inside));
    assert ReadEntry(first.entry, [], nested) == Ok(Reading(outer.entry, inside + outer.found));
    var last := AsList(BookedTransaction(outer.entry));
    Regroup(first.found, inside + outer.found, last);
    Regroup(inside, outer.found, last);
  }

  /** What an entry leaves in the variables once it has ended. */
  function LeftoverOf(block: Forest<Elem>): Entry
    requires ReadEntry(FRESH_ENTRY, [], block).Ok?
  {
    Leftover(ReadEntry(FRESH_ENTRY, [], block).value.entry)
  }

  /** Of two entries, one in the other, both are booked if and only if the inner one is
      booked and dated and the outer one still is, read from what the inner one left
      and from what follows it. */
  lemma NestedEntryIsBookedTwiceIff(pre: Forest<Elem>, inner: Forest<Elem>, post: Forest<Elem>)
    requires Lacks(pre, Ntry) && Lacks(inner, Ntry) && Lacks(post, Ntry)
    requires ReadEntry(FRESH_ENTRY, [], pre).Ok? && ReadEntry(FRESH_ENTRY, [], inner).Ok?
    requires ReadEntry(LeftoverOf(inner), [], post).Ok?
    ensures
      var transactions := TransactionsOf(Join(pre, Element(Ntry, inner, post)));
      var first := BookedTransaction(ReadEntry(FRESH_ENTRY, [], inner).value.entry);
      var second := BookedTransaction(ReadEntry(LeftoverOf(inner), [], post).value.entry);
      && transactions == AsList(first) + AsList(second)
      && (|transactions| == 2 <==> first.Some? && second.Some?)
  {
    hide ReadEntry, BookedTransaction, Leftover;
    NestedEntryIsReadSo(pre, inner, post);
    PlainEntryFindsNothing(FRESH_ENTRY, [], pre);
    PlainEntryFindsNothing(LeftoverOf(inner), [], post);
    PlainEntryIsOneTransaction(inner);
  }

  /** The status comes from `Sts` alone, and a date is never unset. */
  lemma {:induction false} StatusComesFromSts(entry: Entry, rel: seq<Elem>, f: Forest<Elem>)
    requires Lacks(f, Ntry) && Lacks(f, Sts) && Sts !in rel && ReadEntry(entry, rel, f).Ok?
    ensures
      var read := ReadEntry(entry, rel, f).value.entry;
      read.status == entry.status && (entry.date.Some? ==> read.date.Some?)
    decreases f
  {
    hide TextValue, ParseAmount, ParseDate;
    match f
    case Empty =>
    case SelfClosed(_, next) => StatusComesFromSts(entry, rel, next);
    case Text(raw, next) =>
      if TextValue(raw) == Some("") {
        StatusComesFromSts(entry, rel, next);
      } else {
        assert EntryFieldAt(rel) != EntryStatus;
        var entry' := SetEntryField(entry, EntryFieldAt(rel), TextValue(raw).value).value;
        hide SetEntryField, EntryFieldAt;
        StatusComesFromSts(entry', rel, next);
      }
    case Element(name, children, next) =>
      hide SetEntryField, EntryFieldAt;
      StatusComesFromSts(entry, rel + [name], children);
      StatusComesFromSts(ReadEntry(entry, rel + [name], children).value.entry, rel, next);
  }

  /** In particular a booked and dated entry is booked twice, whatever the outer one said
      before it and as long as the outer one's status does not come after it. */
  lemma NestedEntryIsBookedTwice(pre: Forest<Elem>, inner: Forest<Elem>, post: Forest<Elem>)
    requires Lacks(pre, Ntry) && Lacks(inner, Ntry) && Lacks(post, Ntry) && Lacks(post, Sts)
    requires ReadEntry(FRESH_ENTRY, [], pre).Ok? && ReadEntry(FRESH_ENTRY, [], inner).Ok?
    requires ReadEntry(LeftoverOf(inner), [], post).Ok? && TransactionsOf(inner) != []
    ensures
      var transactions := TransactionsOf(Join(pre, Element(Ntry, inner, post)));
      && |transactions| == 2 && TransactionsOf(inner) == [transactions[0]]
      && (post == Empty ==> transactions[1] == transactions[0].(description := "", reference := None))
  {
    hide ReadEntry, TransactionsOf;
    NestedEntryIsBookedTwiceIff(pre, inner, post);
    PlainEntryIsOneTransaction(inner);
    StatusComesFromSts(LeftoverOf(inner), [], post);
    EmptyIsRead(LeftoverOf(inner));
  }

  lemma EmptyIsRead(entry: Entry)
    ensures ReadEntry(entry, [], Empty) == Ok(Reading(entry, []))
  {
  }
}
