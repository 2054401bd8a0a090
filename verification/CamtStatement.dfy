/** What a camt.053 document means as a whole: outside any statement nothing is
    taken up, the first statement is read from its contents, and nothing after it
    matters. */
module CamtStatement {
  import opened Wrappers
  import opened Xml
  import opened Camt053

  // ---------- Outside a statement ----------

  /** Nothing has been taken up. */
  predicate NothingTaken(s: State, s': State) {
    s'.path == s.path && s'.seenStatement == s.seenStatement && s'.statement == s.statement
  }

  lemma NoStatementField(path: seq<Elem>)
    requires Stmt !in path
    ensures FieldAt(path) != StatementRef && FieldAt(path) != StatementIban
  {
    hide EndsWith;
    HeadIsInside(path, [Stmt, Id]);
    HeadIsInside(path, [Stmt, Acct, Id, IBAN]);
  }

  lemma HeadIsInside(path: seq<Elem>, tail: seq<Elem>)
    requires tail != []
    ensures EndsWith(path, tail) ==> tail[0] in path
  {
    if EndsWith(path, tail) {
      assert path[|path| - |tail|..][0] == path[|path| - |tail|];
    }
  }

  lemma CharsOutside(s: State, raw: string)
    requires Stmt !in s.path
    ensures var m := OnChars(s, raw); m.Failed? || (m.Running? && NothingTaken(s, m.state))
  {
    hide FieldAt, ParseAmount, ParseDate, TextValue;
    NoStatementField(s.path);
  }

  /** After the first statement nothing is taken up, and the next one stops the
      machine. */
  lemma {:induction false} AfterStatement(s: State, f: Forest<Elem>)
    requires Stmt !in s.path && s.seenStatement
    ensures
      var m := Run(Running(s), Flatten(f));
      || m.Failed?
      || (Blocks(f, Stmt) == [] && m.Running? && NothingTaken(s, m.state))
      || (Blocks(f, Stmt) != [] && m.Stopped? && m.statement == s.statement)
    decreases f
  {
    hide OnChars, TextValue, CloseBalance, BookedTransaction, FieldAt;
    match f
    case Empty =>
    case SelfClosed(name, next) =>
      RunSelfClosed(Running(s), name, next);
      AfterStatement(s, next);
    case Text(raw, next) =>
      RunText(Running(s), raw, next);
      CharsOutside(s, raw);
      var m := OnChars(s, raw);
      if m.Failed? {
        RunHalted(m, Flatten(next));
      } else {
        AfterStatement(m.state, next);
      }
    case Element(name, children, next) =>
      RunElement(Running(s), name, children, next);
      var m1 := OnStart(s, name);
      if name == Stmt {
        RunHalted(m1, Flatten(children));
        RunHalted(m1, Flatten(next));
      } else {
        AfterStatement(m1.state, children);
        var m := Run(m1, Flatten(children));
        if !m.Running? {
          RunHalted(m, Flatten(next));
        } else {
          var m' := OnEnd(m.state, name);
          assert m'.Running? && NothingTaken(s, m'.state);
          AfterStatement(m'.state, next);
        }
      }
  }

  // ---------- The first statement ----------

  function StatementSoFar(m: Machine): Statement
    requires !m.Failed?
  {
    match m
    case Running(s) => s.statement
    case Stopped(statement) => statement
  }

  /** `result` is what the machine makes of `base` by reading the contents of one
      statement, wherever that statement stands. */
  ghost predicate IsReadOf(base: Statement, contents: Forest<Elem>, result: Statement) {
    exists s: State ::
      && Stmt in s.path && !s.seenStatement && s.statement == base
      && Run(Running(s), Flatten(contents)).Running?
      && Run(Running(s), Flatten(contents)).state.statement == result
  }

  /** What the machine has found once it has met some statements. */
  ghost predicate FoundFirstOf(s: State, m: Machine, statements: seq<Forest<Elem>>) {
    || m.Failed?
    || (statements == [] && m.Running? && NothingTaken(s, m.state))
    || (statements != []
        && IsReadOf(s.statement, statements[0], StatementSoFar(m))
        && (m.Running? <==> |statements| == 1)
        && (m.Running? ==> m.state.path == s.path && m.state.seenStatement))
  }

  /** No statement opens in `f` once one has been closed, `seen` saying whether one has
      been closed before. */
  predicate RunsOn(seen: bool, f: Forest<Elem>)
    decreases f
  {
    match f
    case Empty => true
    case Text(_, next) => RunsOn(seen, next)
    case SelfClosed(_, next) => RunsOn(seen, next)
    case Element(name, children, next) =>
      && !(name == Stmt && seen) && RunsOn(seen, children)
      && RunsOn(seen || name == Stmt || !Lacks(children, Stmt), next)
  }

  lemma CharsStayPut(s: State, raw: string)
    ensures
      var m := OnChars(s, raw);
      m.Failed? || (m.Running? && m.state.path == s.path && m.state.seenStatement == s.seenStatement)
  {
    hide FieldAt, TextValue, ParseAmount, ParseDate;
  }

  /** The machine reads a piece of a document to its end if and only if no statement
      opens in it after one was closed; otherwise it stops there. */
  lemma {:induction false} RunsToTheEndIff(s: State, f: Forest<Elem>)
    ensures
      var m := Run(Running(s), Flatten(f));
      m.Failed? || if RunsOn(s.seenStatement, f)
                   then m.Running? && m.state.path == s.path
                        && m.state.seenStatement == (s.seenStatement || !Lacks(f, Stmt))
                   else m.Stopped?
    decreases f, 0
  {
    hide OnChars, OnStart, OnEnd;
    match f
    case Empty =>
    case SelfClosed(name, next) =>
      RunSelfClosed(Running(s), name, next);
      RunsToTheEndIff(s, next);
    case Text(raw, next) =>
      RunText(Running(s), raw, next);
      CharsStayPut(s, raw);
      var m := OnChars(s, raw);
      if m.Failed? {
        RunHalted(m, Flatten(next));
      } else {
        RunsToTheEndIff(m.state, next);
      }
    case Element(name, children, next) =>
      RunElement(Running(s), name, children, next);
      ElementRunsIff(s, name, children);
      var m := Step(Run(OnStart(s, name), Flatten(children)), End(name));
      if m.Running? {
        RunsToTheEndIff(m.state, next);
      } else {
        RunHalted(m, Flatten(next));
      }
  }

  lemma {:induction false} ElementRunsIff(s: State, name: Elem, children: Forest<Elem>)
    ensures
      var m := Step(Run(OnStart(s, name), Flatten(children)), End(name));
      m.Failed? || if !(name == Stmt && s.seenStatement) && RunsOn(s.seenStatement, children)
                   then m.Running? && m.state.path == s.path
                        && m.state.seenStatement == (s.seenStatement || name == Stmt || !Lacks(children, Stmt))
                   else m.Stopped?
    decreases children, 1
  {
    hide Flatten, Run, CloseBalance, BookedTransaction, RunsOn, Lacks;
    if name == Stmt && s.seenStatement {
      RunHalted(OnStart(s, name), Flatten(children));
    } else {
      RunsToTheEndIff(OnStart(s, name).state, children);
    }
  }

  /** A text in between changes nothing about what is found after it. */
  lemma TextThenRest(s: State, raw: string, next: Forest<Elem>)
    requires Stmt !in s.path
    requires OnChars(s, raw).Running? ==>
      FoundFirstOf(OnChars(s, raw).state, Run(OnChars(s, raw), Flatten(next)), Blocks(next, Stmt))
    ensures
      var f := Forest.Text(raw, next);
      FoundFirstOf(s, Run(Running(s), Flatten(f)), Blocks(f, Stmt))
  {
    hide OnChars, Flatten, Run, IsReadOf;
    RunText(Running(s), raw, next);
    CharsOutside(s, raw);
    if OnChars(s, raw).Failed? {
      RunHalted(OnChars(s, raw), Flatten(next));
    }
  }

  /** What follows is searched only while no statement has been found. */
  lemma RestFound(s: State, m: Machine, found: seq<Forest<Elem>>, next: Forest<Elem>)
    requires Stmt !in s.path && FoundFirstOf(s, m, found)
    requires m.Running? && found == [] ==> FoundFirstOf(m.state, Run(m, Flatten(next)), Blocks(next, Stmt))
    ensures FoundFirstOf(s, Run(m, Flatten(next)), found + Blocks(next, Stmt))
  {
    hide Flatten, Run, Blocks, IsReadOf;
    if !m.Running? {
      RunHalted(m, Flatten(next));
    } else if found != [] {
      AfterStatement(m.state, next);
    } else {
      assert found + Blocks(next, Stmt) == Blocks(next, Stmt);
    }
  }

  /** The first statement is read to its end. */
  predicate FirstIsWhole(f: Forest<Elem>) {
    Blocks(f, Stmt) == [] || RunsOn(false, Blocks(f, Stmt)[0])
  }

  /** One element outside any statement, from its start to its end. */
  lemma {:induction false} ElementBeforeStatement(s: State, name: Elem, children: Forest<Elem>)
    requires Stmt !in s.path && !s.seenStatement
    requires if name == Stmt then RunsOn(false, children) else FirstIsWhole(children)
    ensures FoundFirstOf(s, Step(Run(OnStart(s, name), Flatten(children)), End(name)),
                         if name == Stmt then [children] else Blocks(children, Stmt))
    decreases children, 1
  {
    hide Flatten, Run, CloseBalance, BookedTransaction, Blocks;
    var s1 := OnStart(s, name).state;
    if name == Stmt {
      RunsToTheEndIff(s1, children);
      assert Stmt in s1.path;
    } else {
      hide IsReadOf;
      BeforeStatement(s1, children);
    }
  }

  lemma {:induction false} BeforeStatement(s: State, f: Forest<Elem>)
    requires Stmt !in s.path && !s.seenStatement && FirstIsWhole(f)
    ensures FoundFirstOf(s, Run(Running(s), Flatten(f)), Blocks(f, Stmt))
    decreases f, 0
  {
    hide OnChars, OnStart, OnEnd, IsReadOf;
    match f
    case Empty =>
    case SelfClosed(name, next) =>
      RunSelfClosed(Running(s), name, next);
      BeforeStatement(s, next);
    case Text(raw, next) =>
      CharsOutside(s, raw);
      if OnChars(s, raw).Running? {
        BeforeStatement(OnChars(s, raw).state, next);
      }
      TextThenRest(s, raw, next);
    case Element(name, children, next) =>
      ElementBeforeStatement(s, name, children);
      RunElement(Running(s), name, children, next);
      var m := Step(Run(OnStart(s, name), Flatten(children)), End(name));
      var found := if name == Stmt then [children] else Blocks(children, Stmt);
      if m.Running? && found == [] {
        BeforeStatement(m.state, next);
      }
      RestFound(s, m, found, next);
  }

  // ---------- Documents ----------

  /** A parsed document is its first statement, read from that statement's contents;
      a readable one with a statement is always parsed, one without is refused.
      Whatever comes before and after may hold anything. */
  lemma DocumentIsItsFirstStatement(doc: Forest<Elem>)
    requires FirstIsWhole(doc)
    ensures ParseResult(doc).Ok? ==>
      Blocks(doc, Stmt) != [] && IsReadOf(EMPTY_STATEMENT, Blocks(doc, Stmt)[0], ParseResult(doc).value)
    ensures IsReadable([], doc) && Blocks(doc, Stmt) != [] ==> ParseResult(doc).Ok?
    ensures IsReadable([], doc) && Blocks(doc, Stmt) == [] ==> ParseResult(doc) == Err(NoStatement)
  {
    hide IsReadOf;
    BeforeStatement(INITIAL, doc);
    if IsReadable([], doc) {
      ReadableNeverFails(INITIAL, doc);
    }
  }
}
