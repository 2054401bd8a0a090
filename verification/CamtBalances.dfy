/** The balances of a camt.053 statement: opening and closing come from the OPBD and
    CLBD blocks of the first statement, each read from its own contents, balances in
    balances included. */
module CamtBalances {
  import opened Wrappers
  import opened Calendar
  import opened Xml
  import opened Camt053
  import opened CamtStatement

  // ---------- What a balance means ----------

  /** What a text inside a balance is, by its path from the balance down. */
  function BalanceFieldAt(rel: seq<Elem>): Field {
    if rel == [Tp, CdOrPrtry, Cd] then BalanceCode
    else if rel == [Amt] then BalanceAmount
    else if rel == [CdtDbtInd] then BalanceCredit
    else if rel == [Dt, Dt] || rel == [Dt, DtTm] then BalanceDate
    else Ignored
  }

  /** The balance as it stands, and the balances that have been closed inside it. */
  datatype Reading = Reading(bal: Balance, closed: seq<Balance>)

  function Prepend(closed: seq<Balance>, r: Result<Reading, CamtError>): Result<Reading, CamtError> {
    match r
    case Ok(reading) => Ok(Reading(reading.bal, closed + reading.closed))
    case Err(e) => Err(e)
  }

  /** A balance read from its own contents and nothing else. */
  function ReadBalance(bal: Balance, rel: seq<Elem>, f: Forest<Elem>): Result<Reading, CamtError>
    decreases f, 0
  {
    match f
    case Empty => Ok(Reading(bal, []))
    case SelfClosed(_, next) => ReadBalance(bal, rel, next)
    case Text(raw, next) =>
      (match TextValue(raw)
       case None => Err(BadXml)
       case Some(value) =>
         if value == "" then ReadBalance(bal, rel, next)
         else match SetBalanceField(bal, BalanceFieldAt(rel), value)
           case Ok(bal') => ReadBalance(bal', rel, next)
           case Err(e) => Err(e))
    case Element(name, children, next) =>
      (match ReadElement(bal, rel, name, children)
       case Ok(reading) => Prepend(reading.closed, ReadBalance(reading.bal, rel, next))
       case Err(e) => Err(e))
  }

  /** An element inside a balance; another balance starts afresh, is closed, and stays in
      the variables. */
  function ReadElement(bal: Balance, rel: seq<Elem>, name: Elem, children: Forest<Elem>): Result<Reading, CamtError>
    decreases children, 1
  {
    if name == Bal then
      match ReadBalance(FRESH_BALANCE, [], children)
      case Ok(inner) => Ok(Reading(inner.bal, Closed(inner)))
      case Err(e) => Err(e)
    else ReadBalance(bal, rel + [name], children)
  }

  /** The balances one block closes: those inside it, then its own. */
  function Closed(reading: Reading): seq<Balance> {
    reading.closed + [reading.bal]
  }

  function ClosedBy(block: Forest<Elem>): seq<Balance> {
    match ReadBalance(FRESH_BALANCE, [], block)
    case Ok(reading) => Closed(reading)
    case Err(_) => []
  }

  function BalancesOf(blocks: seq<Forest<Elem>>): seq<Balance> {
    if blocks == [] then [] else ClosedBy(blocks[0]) + BalancesOf(blocks[1..])
  }

  lemma {:induction false} BalancesOfAppend(a: seq<Forest<Elem>>, b: seq<Forest<Elem>>)
    ensures BalancesOf(a + b) == BalancesOf(a) + BalancesOf(b)
  {
    hide ClosedBy;
    if a == [] {
      assert a + b == b;
    } else {
      assert (a + b)[1..] == a[1..] + b;
      BalancesOfAppend(a[1..], b);
      Regroup(ClosedBy(a[0]), BalancesOf(a[1..]), BalancesOf(b));
    }
  }

  function Signed(bal: Balance): int {
    if bal.credit then bal.amount else -bal.amount
  }

  /** The amount of the last balance with a code. */
  function LastAmount(code: string, bals: seq<Balance>): Option<int> {
    if bals == [] then None
    else if bals[|bals| - 1].code == code then Some(Signed(bals[|bals| - 1]))
    else LastAmount(code, bals[..|bals| - 1])
  }

  /** The date of the first dated balance with a code. */
  function FirstDate(code: string, bals: seq<Balance>): Option<Date> {
    if bals == [] then None
    else
      var front, last := FirstDate(code, bals[..|bals| - 1]), bals[|bals| - 1];
      if front.Some? || last.code != code then front else last.date
  }

  /** What a statement says about its balances, given the balances it has closed. */
  predicate Shows(statement: Statement, bals: seq<Balance>) {
    && statement.openingOre == LastAmount("OPBD", bals) && statement.fromDate == FirstDate("OPBD", bals)
    && statement.closingOre == LastAmount("CLBD", bals) && statement.toDate == FirstDate("CLBD", bals)
  }

  lemma ClosedBalanceShows(statement: Statement, bals: seq<Balance>, bal: Balance)
    requires Shows(statement, bals)
    ensures Shows(CloseBalance(statement, bal), bals + [bal])
  {
    var all := bals + [bal];
    assert all[..|bals|] == bals;
    LastOfMore("OPBD", bals, bal);
    LastOfMore("CLBD", bals, bal);
    hide LastAmount, FirstDate;
  }

  lemma LastOfMore(code: string, bals: seq<Balance>, bal: Balance)
    ensures LastAmount(code, bals + [bal]) == if bal.code == code then Some(Signed(bal)) else LastAmount(code, bals)
    ensures FirstDate(code, bals + [bal])
         == if FirstDate(code, bals).Some? || bal.code != code then FirstDate(code, bals) else bal.date
  {
    assert (bals + [bal])[..|bals|] == bals;
  }

  // ---------- Fields inside a balance ----------

  predicate IsBalanceField(field: Field) {
    field in {BalanceCode, BalanceAmount, BalanceCredit, BalanceDate}
  }

  predicate BalancePatternsAgree(p: seq<Elem>, rel: seq<Elem>) {
    && (EndsWith(p, [Bal, Tp, CdOrPrtry, Cd]) <==> rel == [Tp, CdOrPrtry, Cd])
    && (EndsWith(p, [Bal, Amt]) <==> rel == [Amt])
    && (EndsWith(p, [Bal, CdtDbtInd]) <==> rel == [CdtDbtInd])
    && (EndsWith(p, [Bal, Dt, Dt]) <==> rel == [Dt, Dt])
    && (EndsWith(p, [Bal, Dt, DtTm]) <==> rel == [Dt, DtTm])
  }

  lemma BalanceTails(pre: seq<Elem>, rel: seq<Elem>)
    requires Bal !in rel
    ensures BalancePatternsAgree(pre + [Bal] + rel, rel)
  {
    TailBelow(pre, Bal, rel, [Tp, CdOrPrtry, Cd]);
    TailBelow(pre, Bal, rel, [Amt]);
    TailBelow(pre, Bal, rel, [CdtDbtInd]);
    TailBelow(pre, Bal, rel, [Dt, Dt]);
    TailBelow(pre, Bal, rel, [Dt, DtTm]);
    assert [Bal] + [Tp, CdOrPrtry, Cd] == [Bal, Tp, CdOrPrtry, Cd] && [Bal] + [Amt] == [Bal, Amt];
    assert [Bal] + [CdtDbtInd] == [Bal, CdtDbtInd];
    assert [Bal] + [Dt, Dt] == [Bal, Dt, Dt] && [Bal] + [Dt, DtTm] == [Bal, Dt, DtTm];
    hide EndsWith;
  }

  /** The statement's own patterns end otherwise than the balance's. */
  lemma StatementPatternsAreNotBalances(pre: seq<Elem>, rel: seq<Elem>)
    requires EndsWith(pre + [Bal] + rel, [Stmt, Id]) || EndsWith(pre + [Bal] + rel, [Stmt, Acct, Id, IBAN])
    ensures BalanceFieldAt(rel) == Ignored
  {
    var p := pre + [Bal] + rel;
    if EndsWith(p, [Stmt, Id]) {
      LastTwo(p, [Stmt, Id]);
    } else {
      LastTwo(p, [Stmt, Acct, Id, IBAN]);
    }
    if rel != [] {
      assert p[|p| - 1] == rel[|rel| - 1];
    }
    hide EndsWith;
  }

  /** Below a balance the balance's fields depend on the path from the balance only. */
  lemma FieldInsideBalance(pre: seq<Elem>, rel: seq<Elem>)
    requires Bal !in rel
    ensures
      var field := FieldAt(pre + [Bal] + rel);
      if IsBalanceField(field) then field == BalanceFieldAt(rel) else BalanceFieldAt(rel) == Ignored
  {
    hide EndsWith;
    var p := pre + [Bal] + rel;
    BalanceTails(pre, rel);
    if EndsWith(p, [Stmt, Id]) || EndsWith(p, [Stmt, Acct, Id, IBAN]) {
      StatementPatternsAreNotBalances(pre, rel);
    }
  }

  // ---------- The machine reads balances ----------

  lemma CharsKeepBalances(s: State, raw: string, bals: seq<Balance>)
    requires Shows(s.statement, bals)
    ensures OnChars(s, raw).Running? ==> Shows(OnChars(s, raw).state.statement, bals)
  {
    hide FieldAt, TextValue, ParseAmount, ParseDate, LastAmount, FirstDate;
  }

  /** A text inside a balance sets the balance's field or none of them. */
  lemma CharsInsideBalance(s: State, pre: seq<Elem>, rel: seq<Elem>, raw: string)
    requires s.path == pre + [Bal] + rel && Bal !in rel
    ensures
      var m := OnChars(s, raw);
      m.Running? ==>
        && TextValue(raw).Some?
        && Ok(m.state.bal) == if TextValue(raw).value == "" then Ok(s.bal)
                              else SetBalanceField(s.bal, BalanceFieldAt(rel), TextValue(raw).value)
  {
    hide FieldAt, BalanceFieldAt, ParseAmount, ParseDate, TextValue;
    FieldInsideBalance(pre, rel);
  }

  /** Where the machine stands after a piece of a statement, and what it shows. */
  predicate StandsAt(m: Machine, path: seq<Elem>, bals: seq<Balance>) {
    m.Failed? || (m.Running? && m.state.path == path && Shows(m.state.statement, bals))
  }

  /** The machine stands after a piece of a balance that reads as `reading` says. */
  predicate HasRead(m: Machine, path: seq<Elem>, bals: seq<Balance>, reading: Result<Reading, CamtError>) {
    m.Failed? || (reading.Ok? && StandsAt(m, path, bals + reading.value.closed) && m.state.bal == reading.value.bal)
  }

  /** Inside a balance the machine assembles exactly what `ReadBalance` reads, balances in
      balances included. */
  lemma {:induction false} InsideBalance(s: State, pre: seq<Elem>, rel: seq<Elem>, f: Forest<Elem>, bals: seq<Balance>)
    requires s.path == pre + [Bal] + rel && Bal !in rel && Stmt in pre && RunsOn(s.seenStatement, f)
    requires Shows(s.statement, bals)
    ensures HasRead(Run(Running(s), Flatten(f)), s.path, bals, ReadBalance(s.bal, rel, f))
    decreases f, 0
  {
    hide OnChars, OnStart, OnEnd, SetBalanceField, BalanceFieldAt, TextValue, Shows, ReadElement;
    match f
    case Empty =>
      assert bals + [] == bals;
    case SelfClosed(name, next) =>
      RunSelfClosed(Running(s), name, next);
      InsideBalance(s, pre, rel, next, bals);
    case Text(raw, next) =>
      RunText(Running(s), raw, next);
      CharsStayPut(s, raw);
      CharsKeepBalances(s, raw, bals);
      CharsInsideBalance(s, pre, rel, raw);
      var m := OnChars(s, raw);
      if m.Failed? {
        RunHalted(m, Flatten(next));
      } else {
        InsideBalance(m.state, pre, rel, next, bals);
      }
    case Element(name, children, next) =>
      RunElement(Running(s), name, children, next);
      ElementRunsIff(s, name, children);
      ElementInsideBalance(s, pre, rel, name, children, bals);
      var m := Step(Run(OnStart(s, name), Flatten(children)), End(name));
      if m.Failed? {
        RunHalted(m, Flatten(next));
      } else {
        var first := ReadElement(s.bal, rel, name, children).value;
        InsideBalance(m.state, pre, rel, next, bals + first.closed);
        ReadTwice(s.path, bals, first, Run(m, Flatten(next)), ReadBalance(first.bal, rel, next));
      }
  }

  lemma ReadTwice(path: seq<Elem>, bals: seq<Balance>, first: Reading, m: Machine, second: Result<Reading, CamtError>)
    requires HasRead(m, path, bals + first.closed, second)
    ensures HasRead(m, path, bals, Prepend(first.closed, second))
  {
    hide Shows;
    if second.Ok? {
      Regroup(bals, first.closed, second.value.closed);
    }
  }

  lemma {:induction false} ElementInsideBalance(s: State, pre: seq<Elem>, rel: seq<Elem>, name: Elem,
                                                children: Forest<Elem>, bals: seq<Balance>)
    requires s.path == pre + [Bal] + rel && Bal !in rel && Stmt in pre && Shows(s.statement, bals)
    requires !(name == Stmt && s.seenStatement) && RunsOn(s.seenStatement, children)
    ensures HasRead(Step(Run(OnStart(s, name), Flatten(children)), End(name)), s.path, bals,
                    ReadElement(s.bal, rel, name, children))
    decreases children, 1
  {
    hide Flatten, Run, ReadBalance, OnEnd, Shows;
    var s1 := OnStart(s, name).state;
    var m := Run(Running(s1), Flatten(children));
    if name == Bal {
      assert s1.path == s.path + [Bal] + [];
      InsideBalance(s1, s.path, [], children, bals);
      if m.Running? {
        var inner := ReadBalance(FRESH_BALANCE, [], children).value;
        BalanceEnds(s, m.state, bals + inner.closed);
        Regroup(bals, inner.closed, [inner.bal]);
      }
    } else {
      assert s1.path == pre + [Bal] + (rel + [name]);
      InsideBalance(s1, pre, rel + [name], children, bals);
      if m.Running? {
        OtherEnds(s, m.state, name, bals + ReadBalance(s.bal, rel + [name], children).value.closed);
      }
    }
  }

  /** The end of anything but a balance leaves the balances alone. */
  lemma OtherEnds(s: State, u: State, name: Elem, bals: seq<Balance>)
    requires name != Bal && u.path == s.path + [name] && Shows(u.statement, bals)
    ensures StandsAt(OnEnd(u, name), s.path, bals) && OnEnd(u, name).Running? && OnEnd(u, name).state.bal == u.bal
  {
    hide LastAmount, FirstDate;
  }

  /** The end of a balance takes it up, and leaves it in the variables. */
  lemma BalanceEnds(s: State, u: State, bals: seq<Balance>)
    requires Stmt in s.path && u.path == s.path + [Bal] && Shows(u.statement, bals)
    ensures StandsAt(OnEnd(u, Bal), s.path, bals + [u.bal])
    ensures OnEnd(u, Bal).Running? && OnEnd(u, Bal).state.bal == u.bal
  {
    hide CloseBalance;
    ClosedBalanceShows(u.statement, bals, u.bal);
  }

  lemma {:induction false} ElementInStatement(s: State, name: Elem, children: Forest<Elem>, bals: seq<Balance>)
    requires Stmt in s.path && !(name == Stmt && s.seenStatement) && RunsOn(s.seenStatement, children)
    requires Shows(s.statement, bals)
    ensures StandsAt(Step(Run(OnStart(s, name), Flatten(children)), End(name)), s.path,
                     bals + BalancesOf(if name == Bal then [children] else Blocks(children, Bal)))
    decreases children, 1
  {
    hide Flatten, Run, ReadBalance, OnEnd, Shows;
    var s1 := OnStart(s, name).state;
    var m := Run(Running(s1), Flatten(children));
    if name == Bal {
      assert s1.path == s.path + [Bal] + [];
      InsideBalance(s1, s.path, [], children, bals);
      OneBlock(children);
      if m.Running? {
        var inner := ReadBalance(FRESH_BALANCE, [], children).value;
        BalanceEnds(s, m.state, bals + inner.closed);
        Regroup(bals, inner.closed, [inner.bal]);
      }
    } else {
      InsideStatement(s1, children, bals);
      if m.Running? {
        OtherEnds(s, m.state, name, bals + BalancesOf(Blocks(children, Bal)));
      }
    }
  }

  lemma OneBlock(block: Forest<Elem>)
    ensures BalancesOf([block]) == ClosedBy(block)
  {
    assert [block][1..] == [] && ClosedBy(block) + [] == ClosedBy(block);
  }

  /** Inside a statement every balance is read on its own, in order. */
  lemma {:induction false} InsideStatement(s: State, f: Forest<Elem>, bals: seq<Balance>)
    requires Stmt in s.path && RunsOn(s.seenStatement, f)
    requires Shows(s.statement, bals)
    ensures StandsAt(Run(Running(s), Flatten(f)), s.path, bals + BalancesOf(Blocks(f, Bal)))
    decreases f, 0
  {
    hide OnChars, OnStart, OnEnd, ClosedBy, Shows;
    match f
    case Empty =>
      assert bals + [] == bals;
    case SelfClosed(name, next) =>
      RunSelfClosed(Running(s), name, next);
      InsideStatement(s, next, bals);
    case Text(raw, next) =>
      RunText(Running(s), raw, next);
      CharsStayPut(s, raw);
      CharsKeepBalances(s, raw, bals);
      var m := OnChars(s, raw);
      if m.Failed? {
        RunHalted(m, Flatten(next));
      } else {
        InsideStatement(m.state, next, bals);
      }
    case Element(name, children, next) =>
      RunElement(Running(s), name, children, next);
      ElementRunsIff(s, name, children);
      ElementInStatement(s, name, children, bals);
      var m := Step(Run(OnStart(s, name), Flatten(children)), End(name));
      var blocks := if name == Bal then [children] else Blocks(children, Bal);
      BalancesOfAppend(blocks, Blocks(next, Bal));
      Regroup(bals, BalancesOf(blocks), BalancesOf(Blocks(next, Bal)));
      if m.Failed? {
        RunHalted(m, Flatten(next));
      } else {
        InsideStatement(m.state, next, bals + BalancesOf(blocks));
      }
  }

  /** A balance inside a balance wipes what the outer one had read, in every state. */
  lemma NestedBalanceWipes(s: State, bal: Balance, inner: Forest<Elem>, post: Forest<Elem>)
    ensures Run(Running(s.(bal := bal)), Flatten(Element(Bal, inner, post)))
         == Run(Running(s), Flatten(Element(Bal, inner, post)))
  {
    hide Run, Flatten;
    RunElement(Running(s.(bal := bal)), Bal, inner, post);
    RunElement(Running(s), Bal, inner, post);
  }

  /** A balance without another one inside closes itself and nothing else. */
  lemma {:induction false} PlainBalanceClosesNothing(bal: Balance, rel: seq<Elem>, f: Forest<Elem>)
    requires Lacks(f, Bal) && ReadBalance(bal, rel, f).Ok?
    ensures ReadBalance(bal, rel, f).value.closed == []
    decreases f
  {
    hide SetBalanceField, BalanceFieldAt, TextValue;
    match f
    case Empty =>
    case SelfClosed(_, next) => PlainBalanceClosesNothing(bal, rel, next);
    case Text(raw, next) =>
      if TextValue(raw) == Some("") {
        PlainBalanceClosesNothing(bal, rel, next);
      } else {
        PlainBalanceClosesNothing(SetBalanceField(bal, BalanceFieldAt(rel), TextValue(raw).value).value, rel, next);
      }
    case Element(name, children, next) =>
      PlainBalanceClosesNothing(bal, rel + [name], children);
      PlainBalanceClosesNothing(ReadBalance(bal, rel + [name], children).value.bal, rel, next);
  }

  /** An outer balance with nothing after the inner one counts the inner one twice. */
  lemma NestedBalanceIsClosedTwice(inner: Forest<Elem>)
    requires Lacks(inner, Bal) && ReadBalance(FRESH_BALANCE, [], inner).Ok?
    ensures var bal := ReadBalance(FRESH_BALANCE, [], inner).value.bal;
      ClosedBy(inner) == [bal] && ClosedBy(Element(Bal, inner, Empty)) == [bal, bal]
  {
    PlainBalanceClosesNothing(FRESH_BALANCE, [], inner);
    var read := ReadBalance(FRESH_BALANCE, [], inner).value;
    assert Closed(read) == [read.bal] && [read.bal] + [] == [read.bal];
    assert ReadElement(FRESH_BALANCE, [], Bal, inner) == Ok(Reading(read.bal, [read.bal]));
    assert ReadBalance(read.bal, [], Empty) == Ok(Reading(read.bal, []));
  }

  // ---------- Documents ----------

  lemma ReadOfStatement(base: Statement, contents: Forest<Elem>, result: Statement)
    requires IsReadOf(base, contents, result) && RunsOn(false, contents)
    requires Shows(base, [])
    ensures Shows(result, BalancesOf(Blocks(contents, Bal)))
  {
    hide Run, Flatten, BalancesOf, Shows;
    var s: State :|
      && Stmt in s.path && !s.seenStatement && s.statement == base
      && Run(Running(s), Flatten(contents)).Running?
      && Run(Running(s), Flatten(contents)).state.statement == result;
    InsideStatement(s, contents, []);
    assert [] + BalancesOf(Blocks(contents, Bal)) == BalancesOf(Blocks(contents, Bal));
  }

  /** Opening and closing amounts are those of the last OPBD and the last CLBD balance of
      the first statement, its dates those of the first dated ones; no balance outside
      it counts. */
  lemma BalancesAreTheFirstStatements(doc: Forest<Elem>)
    requires FirstIsWhole(doc) && ParseResult(doc).Ok?
    ensures Blocks(doc, Stmt) != [] && Shows(ParseResult(doc).value, BalancesOf(Blocks(Blocks(doc, Stmt)[0], Bal)))
  {
    hide ParseResult, IsReadable, IsReadOf, RunsOn, Blocks, BalancesOf;
    DocumentIsItsFirstStatement(doc);
    ReadOfStatement(EMPTY_STATEMENT, Blocks(doc, Stmt)[0], ParseResult(doc).value);
  }
}
