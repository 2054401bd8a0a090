/** camt.053 bank statements (ISO 20022): an event machine that keeps the path of
    open elements and assembles one balance and one entry at a time. */
module Camt053 {
  import opened Wrappers
  import opened Decimal
  import opened Calendar
  import opened Text
  import opened Xml

  /** Local element names; the machine gives no meaning to any other. */
  datatype Elem =
    | Stmt | Id | Acct | IBAN
    | Bal | Tp | CdOrPrtry | Cd | Amt | CdtDbtInd | Dt | DtTm
    | Ntry | Sts | BookgDt | Refs | EndToEndId | RmtInf | Ustrd | AddtlNtryInf
    | Other(name: string)

  datatype CamtError = BadXml | NoStatement | BadAmount(text: string) | BadDate(text: string)

  datatype Transaction = Transaction(
    bookingDate: Date,
    amountOre: int,
    description: string,
    reference: Option<string>)

  datatype Statement = Statement(
    statementRef: string,
    iban: Option<string>,
    fromDate: Option<Date>,
    toDate: Option<Date>,
    openingOre: Option<int>,
    closingOre: Option<int>,
    transactions: seq<Transaction>)

  /** The balance being assembled. */
  datatype Balance = Balance(code: string, amount: int, credit: bool, date: Option<Date>)

  /** The entry being assembled. */
  datatype Entry = Entry(
    amount: int,
    credit: bool,
    date: Option<Date>,
    status: string,
    description: string,
    reference: Option<string>)

  const FRESH_BALANCE := Balance("", 0, true, None)
  const FRESH_ENTRY := Entry(0, true, None, "BOOK", "", None)
  const EMPTY_STATEMENT := Statement("", None, None, None, None, None, [])

  // ---------- Amounts and dates ----------

  /** "12500.00" in øre. The sign, if there is one, stays with the whole part. */
  function ParseAmount(text: string): Result<int, CamtError> {
    var (whole, frac) := WholeAndFraction(text, '.');
    if |frac| > 2 then Err(BadAmount(text))
    else match (ParseInt(whole), if frac == "" then Some(0) else ParseInt(frac))
      case (Some(w), Some(f)) => Ok(w * 100 + (if |frac| == 1 then f * 10 else f))
      case _ => Err(BadAmount(text))
  }

  /** The date part of an ISO date or datetime. */
  function ParseDate(text: string): Result<Date, CamtError> {
    var datePart := match SplitOnce(text, 'T') case Some(parts) => parts.0 case None => text;
    match ParseIso(datePart)
    case Some(date) => Ok(date)
    case None => Err(BadDate(text))
  }

  /** Amounts written with two decimals are read back exactly, except that a
      negative amount with øre is not: its øre are added instead of subtracted. */
  lemma ParseAmountRoundTrip(ore: int)
    ensures ParseAmount(TwoDecimals(ore)) == Ok(if ore < 0 then ore + 2 * (Abs(ore) % 100) else ore)
    ensures ParseAmount(TwoDecimals(ore)) == Ok(ore) <==> ore >= 0 || ore % 100 == 0
  {
    hide ToString, Padded, ParseInt, SplitOnce;
    var n := Abs(ore);
    var whole, frac := (if ore < 0 then "-" else "") + ToString(n / 100), Padded(n % 100, 2);
    assert TwoDecimals(ore) == whole + ['.'] + frac;
    NoPoint(ore < 0, n / 100);
    SplitOnceFinds(whole, '.', frac);
    ParseIntOfSigned(ore < 0, n / 100);
    ParseIntOfTwoDigits(n % 100);
  }

  lemma NoPoint(negative: bool, whole: nat)
    ensures '.' !in (if negative then "-" else "") + ToString(whole)
  {
    assert forall c | IsDigit(c) :: c != '.';
  }

  /** Minus one and a half is read as minus a half. */
  lemma NegativeAmountLosesItsOre()
    ensures TwoDecimals(-150) == "-1.50" && ParseAmount("-1.50") == Ok(-50)
  {
    assert ToString(1) == "1" && Padded(50, 2) == "50";
    ParseAmountRoundTrip(-150);
  }

  /** Fewer decimals: none are no øre, one is tens of them. */
  lemma ShortAmountsAreRead(negative: bool, whole: nat, tenths: nat)
    requires tenths < 10
    ensures
      var kroner := (if negative then "-" else "") + ToString(whole);
      && ParseAmount(kroner) == Ok(if negative then -100 * whole else 100 * whole)
      && ParseAmount(kroner + "." + [DigitChar(tenths)])
         == Ok((if negative then -100 * whole else 100 * whole) + 10 * tenths)
  {
    hide ToString, SplitOnce;
    var kroner := (if negative then "-" else "") + ToString(whole);
    NoPoint(negative, whole);
    SplitOnceCuts(kroner, '.');
    assert kroner + "." + [DigitChar(tenths)] == kroner + ['.'] + [DigitChar(tenths)];
    SplitOnceFinds(kroner, '.', [DigitChar(tenths)]);
    ParseIntOfSigned(negative, whole);
    assert Value([DigitChar(tenths)]) == tenths;
    hide Value;
  }

  /** More than two decimals are refused, and the error shows the text. */
  lemma LongFractionsAreRefused(whole: string, frac: string)
    requires '.' !in whole && |frac| > 2
    ensures ParseAmount(whole + "." + frac) == Err(BadAmount(whole + "." + frac))
  {
    assert whole + "." + frac == whole + ['.'] + frac;
    SplitOnceFinds(whole, '.', frac);
  }

  /** A point in time counts for its date. */
  lemma DateTimeIsRead(date: Date, time: string)
    ensures ParseDate(IsoString(date)) == ParseDate(IsoString(date) + "T" + time) == Ok(date)
  {
    assert 'T' !in IsoString(date) by { IsoHasNoLetter(date); }
    IsoRoundTrip(date);
    hide IsoString, ParseIso;
    SplitOnceCuts(IsoString(date), 'T');
    assert IsoString(date) + "T" + time == IsoString(date) + ['T'] + time;
    SplitOnceFinds(IsoString(date), 'T', time);
  }

  lemma IsoHasNoLetter(date: Date)
    ensures 'T' !in IsoString(date)
  {
    assert !IsDigit('T');
  }

  // ---------- The machine ----------

  datatype State = State(path: seq<Elem>, seenStatement: bool, statement: Statement, bal: Balance, ntry: Entry)

  datatype Machine = Running(state: State) | Stopped(statement: Statement) | Failed(error: CamtError)

  const INITIAL := State([], false, EMPTY_STATEMENT, FRESH_BALANCE, FRESH_ENTRY)

  predicate EndsWith(path: seq<Elem>, tail: seq<Elem>) {
    |tail| <= |path| && path[|path| - |tail|..] == tail
  }

  function OnStart(s: State, name: Elem): Machine {
    if name == Stmt && s.seenStatement then Stopped(s.statement)
    else
      Running(s.(path := s.path + [name],
                 bal := if name == Bal then FRESH_BALANCE else s.bal,
                 ntry := if name == Ntry then FRESH_ENTRY else s.ntry))
  }

  /** An entry or a balance starts with nothing: no amount, no date, no texts. Until it says
      otherwise it is a credit, and an entry is booked. */
  lemma EachStartsAfresh(s: State)
    ensures OnStart(s, Ntry).Running? && OnStart(s, Bal).Running?
    ensures
      var ntry, bal := OnStart(s, Ntry).state.ntry, OnStart(s, Bal).state.bal;
      && ntry.amount == 0 && ntry.credit && ntry.date == None && ntry.status == "BOOK"
      && ntry.description == "" && ntry.reference == None
      && bal.code == "" && bal.amount == 0 && bal.credit && bal.date == None
  {
  }

  function CloseBalance(statement: Statement, bal: Balance): Statement {
    var signed := if bal.credit then bal.amount else -bal.amount;
    if bal.code == "OPBD" then
      statement.(openingOre := Some(signed),
                 fromDate := if statement.fromDate.Some? then statement.fromDate else bal.date)
    else if bal.code == "CLBD" then
      statement.(closingOre := Some(signed),
                 toDate := if statement.toDate.Some? then statement.toDate else bal.date)
    else statement
  }

  /** What a finished entry becomes: nothing unless it is booked and dated. */
  function BookedTransaction(ntry: Entry): Option<Transaction> {
    if ntry.status == "BOOK" && ntry.date.Some? then
      Some(Transaction(ntry.date.value, if ntry.credit then ntry.amount else -ntry.amount,
                       ntry.description, ntry.reference))
    else None
  }

  function OnEnd(s: State, name: Elem): Machine {
    if s.path == [] || s.path[|s.path| - 1] != name then Failed(BadXml)
    else
      var statement := if name == Bal && Stmt in s.path then CloseBalance(s.statement, s.bal) else s.statement;
      var tx := if name == Ntry && Stmt in s.path then BookedTransaction(s.ntry) else None;
      Running(s.(path := s.path[..|s.path| - 1],
                 seenStatement := s.seenStatement || name == Stmt,
                 statement := if tx.Some? then statement.(transactions := statement.transactions + [tx.value])
                              else statement,
                 ntry := if tx.Some? then s.ntry.(description := "", reference := None) else s.ntry))
  }

  /** The fields a text can belong to. */
  datatype Field =
    | StatementRef | StatementIban
    | BalanceCode | BalanceAmount | BalanceCredit | BalanceDate
    | EntryAmount | EntryCredit | EntryStatus | EntryDate | EntryReference | EntryDescription
    | Ignored

  /** The path patterns, in the order they are tried. */
  function FieldAt(p: seq<Elem>): Field {
    if EndsWith(p, [Stmt, Id]) then StatementRef
    else if EndsWith(p, [Stmt, Acct, Id, IBAN]) then StatementIban
    else if EndsWith(p, [Bal, Tp, CdOrPrtry, Cd]) then BalanceCode
    else if EndsWith(p, [Bal, Amt]) then BalanceAmount
    else if EndsWith(p, [Bal, CdtDbtInd]) then BalanceCredit
    else if EndsWith(p, [Bal, Dt, Dt]) || EndsWith(p, [Bal, Dt, DtTm]) then BalanceDate
    else if EndsWith(p, [Ntry, Amt]) then EntryAmount
    else if EndsWith(p, [Ntry, CdtDbtInd]) then EntryCredit
    else if EndsWith(p, [Ntry, Sts]) || EndsWith(p, [Ntry, Sts, Cd]) then EntryStatus
    else if EndsWith(p, [Ntry, BookgDt, Dt]) || EndsWith(p, [Ntry, BookgDt, DtTm]) then EntryDate
    else if EndsWith(p, [Refs, EndToEndId]) && Ntry in p then EntryReference
    else if EndsWith(p, [RmtInf, Ustrd]) && Ntry in p then EntryDescription
    else if EndsWith(p, [Ntry, AddtlNtryInf]) then EntryDescription
    else Ignored
  }

  /** A text addressed to the entry being assembled; any other leaves it alone. */
  function SetEntryField(ntry: Entry, field: Field, value: string): Result<Entry, CamtError> {
    match field
    case EntryAmount =>
      (match ParseAmount(value)
       case Ok(amount) => Ok(ntry.(amount := amount))
       case Err(e) => Err(e))
    case EntryDate =>
      (match ParseDate(value)
       case Ok(date) => Ok(ntry.(date := Some(date)))
       case Err(e) => Err(e))
    case EntryCredit => Ok(ntry.(credit := value == "CRDT"))
    case EntryStatus => Ok(ntry.(status := value))
    case EntryReference => Ok(if value != "NOTPROVIDED" then ntry.(reference := Some(value)) else ntry)
    case EntryDescription => Ok(if ntry.description == "" then ntry.(description := value) else ntry)
    case _ => Ok(ntry)
  }

  function SetBalanceField(bal: Balance, field: Field, value: string): Result<Balance, CamtError> {
    match field
    case BalanceAmount =>
      (match ParseAmount(value)
       case Ok(amount) => Ok(bal.(amount := amount))
       case Err(e) => Err(e))
    case BalanceDate =>
      (match ParseDate(value)
       case Ok(date) => Ok(bal.(date := Some(date)))
       case Err(e) => Err(e))
    case BalanceCode => Ok(bal.(code := value))
    case BalanceCredit => Ok(bal.(credit := value == "CRDT"))
    case _ => Ok(bal)
  }

  function OnValue(s: State, value: string): Result<State, CamtError> {
    var field := FieldAt(s.path);
    var statement := match field
      case StatementRef => s.statement.(statementRef := value)
      case StatementIban => s.statement.(iban := Some(value))
      case _ => s.statement;
    match (SetBalanceField(s.bal, field, value), SetEntryField(s.ntry, field, value))
    case (Ok(bal), Ok(ntry)) => Ok(s.(statement := statement, bal := bal, ntry := ntry))
    case (Err(e), _) => Err(e)
    case (_, Err(e)) => Err(e)
  }

  function OnChars(s: State, raw: string): Machine {
    match TextValue(raw)
    case None => Failed(BadXml)
    case Some(value) =>
      if value == "" then Running(s)
      else match OnValue(s, value)
        case Ok(next) => Running(next)
        case Err(e) => Failed(e)
  }

  function Step(m: Machine, event: Event<Elem>): Machine {
    if !m.Running? then m
    else match event
      case Start(name) => OnStart(m.state, name)
      case End(name) => OnEnd(m.state, name)
      case Chars(raw) => OnChars(m.state, raw)
      case Blank(_) => m
  }

  function Run(m: Machine, events: seq<Event<Elem>>): Machine
    decreases |events|
  {
    if events == [] then m else Run(Step(m, events[0]), events[1..])
  }

  function Finish(m: Machine): Result<Statement, CamtError> {
    match m
    case Failed(e) => Err(e)
    case Stopped(statement) => Ok(statement)
    case Running(s) => if s.seenStatement then Ok(s.statement) else Err(NoStatement)
  }

  lemma {:induction false} RunAppend(m: Machine, a: seq<Event<Elem>>, b: seq<Event<Elem>>)
    ensures Run(m, a + b) == Run(Run(m, a), b)
    decreases |a|
  {
    if a == [] {
      assert a + b == b;
    } else {
      RunAppend(Step(m, a[0]), a[1..], b);
      assert (a + b)[1..] == a[1..] + b;
    }
  }

  lemma {:induction false} RunHalted(m: Machine, events: seq<Event<Elem>>)
    requires !m.Running?
    ensures Run(m, events) == m
    decreases |events|
  {
    if events != [] {
      RunHalted(m, events[1..]);
    }
  }

  method Parse(events: seq<Event<Elem>>) returns (result: Result<Statement, CamtError>)
    ensures result == Finish(Run(Running(INITIAL), events))
  {
    var path: seq<Elem> := [];
    var seenStatement := false;
    var statement := EMPTY_STATEMENT;
    var bal, ntry := FRESH_BALANCE, FRESH_ENTRY;
    for i := 0 to |events|
      invariant Run(Running(INITIAL), events)
             == Run(Running(State(path, seenStatement, statement, bal, ntry)), events[i..])
    {
      assert events[i..][0] == events[i] && events[i..][1..] == events[i + 1..];
      match events[i] {
        case Start(name) =>
          if name == Stmt && seenStatement {
            RunHalted(Stopped(statement), events[i + 1..]);
            return Ok(statement);
          }
          if name == Bal {
            bal := FRESH_BALANCE;
          }
          if name == Ntry {
            ntry := FRESH_ENTRY;
          }
          path := path + [name];
        case End(name) =>
          if path == [] || path[|path| - 1] != name {
            RunHalted(Failed(BadXml), events[i + 1..]);
            return Err(BadXml);
          }
          if name == Bal && Stmt in path {
            statement := CloseBalance(statement, bal);
          }
          if name == Ntry && Stmt in path && ntry.status == "BOOK" && ntry.date.Some? {
            statement := statement.(transactions := statement.transactions + [
              Transaction(ntry.date.value, if ntry.credit then ntry.amount else -ntry.amount,
                          ntry.description, ntry.reference)]);
            ntry := ntry.(description := "", reference := None);
          }
          if name == Stmt {
            seenStatement := true;
          }
          path := path[..|path| - 1];
        case Chars(raw) =>
          var value := TextValue(raw);
          if value == None {
            RunHalted(Failed(BadXml), events[i + 1..]);
            return Err(BadXml);
          }
          if value.value != "" {
            match OnValue(State(path, seenStatement, statement, bal, ntry), value.value) {
              case Err(e) =>
                RunHalted(Failed(e), events[i + 1..]);
                return Err(e);
              case Ok(next) =>
                path, seenStatement, statement, bal, ntry :=
                  next.path, next.seenStatement, next.statement, next.bal, next.ntry;
            }
          }
        case Blank(_) =>
      }
    }
    if !seenStatement {
      return Err(NoStatement);
    }
    result := Ok(statement);
  }

  // ---------- Paths ----------

  /** Below an element `x` that is not opened again, a pattern that starts at `x`
      matches exactly when it is the whole relative path. */
  lemma TailBelow(pre: seq<Elem>, x: Elem, rel: seq<Elem>, tail: seq<Elem>)
    requires x !in rel && x !in tail
    ensures EndsWith(pre + [x] + rel, [x] + tail) <==> rel == tail
  {
    var p, t := pre + [x] + rel, [x] + tail;
    if |tail| < |rel| {
      assert p[|p| - |t|..][0] == rel[|rel| - |tail| - 1];
    } else if |rel| < |tail| < |p| {
      assert p[|p| - |t|..][|tail| - |rel|] == x;
      assert t[|tail| - |rel|] == tail[|tail| - |rel| - 1];
    } else if |tail| == |rel| {
      assert p[|pre|..] == [x] + rel;
      assert ([x] + rel)[1..] == rel && t[1..] == tail;
    }
  }

  /** A pattern of other elements matches below `x` or not at all. */
  lemma DeepTail(pre: seq<Elem>, x: Elem, rel: seq<Elem>, tail: seq<Elem>)
    requires x !in tail
    ensures EndsWith(pre + [x] + rel, tail) <==> EndsWith(rel, tail)
  {
    var p := pre + [x] + rel;
    if |tail| <= |rel| {
      assert p[|p| - |tail|..] == rel[|rel| - |tail|..];
    } else if |tail| <= |p| {
      assert p[|p| - |tail|..][|tail| - |rel| - 1] == x;
    }
  }

  lemma LastTwo(rel: seq<Elem>, tail: seq<Elem>)
    requires |tail| >= 2 && EndsWith(rel, tail)
    ensures |rel| >= 2 && rel[|rel| - 1] == tail[|tail| - 1] && rel[|rel| - 2] == tail[|tail| - 2]
  {
    var t := rel[|rel| - |tail|..];
    assert t[|tail| - 1] == rel[|rel| - 1] && t[|tail| - 2] == rel[|rel| - 2];
  }

  // ---------- Documents ----------

  predicate Lacks(f: Forest<Elem>, name: Elem) {
    match f
    case Empty => true
    case Text(_, next) => Lacks(next, name)
    case SelfClosed(_, next) => Lacks(next, name)
    case Element(n, children, next) => n != name && Lacks(children, name) && Lacks(next, name)
  }

  /** The contents of the elements called `name`, in document order; an element inside
      another of that name belongs to the outer one. */
  function Blocks(f: Forest<Elem>, name: Elem): seq<Forest<Elem>> {
    match f
    case Empty => []
    case Text(_, next) => Blocks(next, name)
    case SelfClosed(_, next) => Blocks(next, name)
    case Element(n, children, next) =>
      (if n == name then [children] else Blocks(children, name)) + Blocks(next, name)
  }

  lemma RunElement(m: Machine, name: Elem, children: Forest<Elem>, next: Forest<Elem>)
    ensures Run(m, Flatten(Element(name, children, next)))
         == Run(Step(Run(Step(m, Start(name)), Flatten(children)), End(name)), Flatten(next))
  {
    var a, b := Flatten(children), Flatten(next);
    RunAppend(m, [Start(name)] + a + [End(name)], b);
    RunAppend(m, [Start(name)] + a, [End(name)]);
    RunAppend(m, [Start(name)], a);
    RunOne(m, Start(name));
    RunOne(Run(Step(m, Start(name)), a), End(name));
  }

  lemma RunOne(m: Machine, event: Event<Elem>)
    ensures Run(m, [event]) == Step(m, event)
  {
    assert [event][1..] == [];
  }

  lemma RunText(m: Machine, raw: string, next: Forest<Elem>)
    ensures Run(m, Flatten(Forest.Text(raw, next))) == Run(Step(m, Chars(raw)), Flatten(next))
  {
    assert Flatten(Forest.Text(raw, next))[1..] == Flatten(next);
  }

  lemma RunSelfClosed(m: Machine, name: Elem, next: Forest<Elem>)
    ensures Run(m, Flatten(SelfClosed(name, next))) == Run(m, Flatten(next))
  {
    assert Flatten(SelfClosed(name, next))[1..] == Flatten(next);
  }

  /** Every text the machine would interpret can be interpreted. */
  predicate IsReadable(path: seq<Elem>, f: Forest<Elem>)
    decreases f
  {
    match f
    case Empty => true
    case Text(raw, next) =>
      && TextValue(raw).Some?
      && (var value := TextValue(raw).value;
          && (FieldAt(path) in {BalanceAmount, EntryAmount} ==> value == "" || ParseAmount(value).Ok?)
          && (FieldAt(path) in {BalanceDate, EntryDate} ==> value == "" || ParseDate(value).Ok?))
      && IsReadable(path, next)
    case SelfClosed(_, next) => IsReadable(path, next)
    case Element(name, children, next) => IsReadable(path + [name], children) && IsReadable(path, next)
  }

  lemma {:induction false} ReadableNeverFails(s: State, f: Forest<Elem>)
    requires IsReadable(s.path, f)
    ensures
      var m := Run(Running(s), Flatten(f));
      !m.Failed? && (m.Running? ==> m.state.path == s.path)
    decreases f
  {
    hide FieldAt, CloseBalance, BookedTransaction, ParseAmount, ParseDate, TextValue;
    match f
    case Empty =>
    case Text(raw, next) =>
      RunText(Running(s), raw, next);
      ReadableNeverFails(OnChars(s, raw).state, next);
    case SelfClosed(name, next) =>
      RunSelfClosed(Running(s), name, next);
      ReadableNeverFails(s, next);
    case Element(name, children, next) =>
      RunElement(Running(s), name, children, next);
      var m1 := OnStart(s, name);
      if m1.Stopped? {
        RunHalted(m1, Flatten(children));
        RunHalted(m1, Flatten(next));
      } else {
        ReadableNeverFails(m1.state, children);
        var m := Run(m1, Flatten(children));
        if m.Stopped? {
          RunHalted(m, Flatten(next));
        } else {
          ReadableNeverFails(OnEnd(m.state, name).state, next);
        }
      }
  }

  function ParseResult(doc: Forest<Elem>): Result<Statement, CamtError> {
    Finish(Run(Running(INITIAL), Flatten(doc)))
  }
}
