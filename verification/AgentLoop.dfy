/** `run_loop`: the bounded conversation between the worker and the model, and the
    message log it leaves. The model and the tools are parameters: whatever they
    answer, the log keeps the shape providers check. */
module AgentLoop {
  import opened Wrappers
  import opened Text

  const MAX_TURNS: nat := 12
  const MAX_RESULT: nat := 8000
  const CONCURRENT_TOOLS: nat := 4

  datatype Role = System | User | Assistant

  datatype Call = Call(id: string, name: string, arguments: string)

  /** `raw` is the provider's own list of tool calls, echoed and never read. */
  datatype Reply = Reply(text: Option<string>, calls: seq<Call>, raw: Option<string>)

  datatype Message =
    | Plain(role: Role, text: string)
    | ToolCalls(raw: string)
    | ToolResult(id: string, text: string)

  datatype Outcome = Done(note: string) | Question(note: string) | Refused(note: string)

  datatype HistoryLine = HistoryLine(fromAgent: bool, text: string)

  datatype Problem = ModelFailed(why: string) | EmptyReply

  type Model = seq<Message> -> Result<Reply, string>

  /** What the tools answer: the turn, the place of the call in it, and the call. */
  type Tools = (nat, nat, Call) -> string

  const STOPPED := Question(
    "Jeg brukte 12 steg uten å bli ferdig, og stoppet framfor å fortsette. Si gjerne hva jeg skal prioritere.")

  function Truncated(s: string): (t: string)
    ensures |t| <= MAX_RESULT + 1
  {
    var s := Trim(s);
    if |s| <= MAX_RESULT then s else s[..MAX_RESULT] + ['…']
  }

  /** What the model is shown of a long answer: its first eight thousand characters and
      a mark that more followed. */
  predicate IsShortened(shown: string, answer: string) {
    var answer := Trim(answer);
    if |answer| > 8000 then |shown| == 8001 && shown[8000] == '…' && shown[..8000] <= answer
    else shown == answer
  }

  lemma TruncatedIsShortened(answer: string)
    ensures IsShortened(Truncated(answer), answer)
  {
    hide Trim;
    assert |Trim(answer)| > 8000 ==> (Trim(answer)[..8000] + ['…'])[..8000] == Trim(answer)[..8000];
  }

  /** The messages before the first turn: role, task, and the trail so far. */
  function Opening(system: string, task: string, history: seq<HistoryLine>): seq<Message> {
    [Plain(System, system), Plain(User, task)]
    + seq(|history|, i requires 0 <= i < |history| =>
        Plain(if history[i].fromAgent then Assistant else User, history[i].text))
  }

  /** What one turn that asks for tools adds: the request, then one result for each
      call, in the order they were asked for. */
  function TurnMessages(tools: Tools, turn: nat, reply: Reply): (added: seq<Message>)
    ensures |added| == 1 + |reply.calls|
  {
    [ToolCalls(if reply.raw.Some? then reply.raw.value else "[]")]
    + seq(|reply.calls|, i requires 0 <= i < |reply.calls| =>
        ToolResult(reply.calls[i].id, Truncated(tools(turn, i, reply.calls[i]))))
  }

  predicate AsksForTools(model: Model, log: seq<Message>) {
    model(log).Ok? && model(log).value.calls != []
  }

  /** The log is the opening and then whole turns: at every cut the model, shown what
      comes before, asked for exactly the tools whose results come next. */
  ghost predicate IsTranscript(model: Model, tools: Tools, opening: seq<Message>, cuts: seq<nat>, log: seq<Message>) {
    && |cuts| > 0 && cuts[0] == |opening| && cuts[|cuts| - 1] == |log|
    && (forall k | 0 <= k < |cuts| :: |opening| <= cuts[k] <= |log|)
    && log[..|opening|] == opening
    && (forall k | 0 <= k < |cuts| - 1 ::
          && AsksForTools(model, log[..cuts[k]])
          && log[..cuts[k + 1]] == log[..cuts[k]] + TurnMessages(tools, k, model(log[..cuts[k]]).value))
  }

  /** How the loop ends, given the log when it stops. */
  function Ending(model: Model, interpret: string -> Outcome, turns: nat, log: seq<Message>): Result<Outcome, Problem>
    requires turns < MAX_TURNS ==> !AsksForTools(model, log)
  {
    if turns >= MAX_TURNS then Ok(STOPPED)
    else match model(log)
      case Err(why) => Err(ModelFailed(why))
      case Ok(reply) =>
        var text := if reply.text.Some? then reply.text.value else "";
        if Trim(text) == "" then Err(EmptyReply) else Ok(interpret(text))
  }

  /** At most twelve turns; before the twelfth only a turn that asks for no tools ends
      the loop. */
  predicate EndsAfter(model: Model, interpret: string -> Outcome, turns: nat, log: seq<Message>,
                      outcome: Result<Outcome, Problem>)
  {
    && turns <= MAX_TURNS
    && (turns < MAX_TURNS ==> !AsksForTools(model, log))
    && outcome == Ending(model, interpret, turns, log)
  }

  method OpenLog(system: string, task: string, history: seq<HistoryLine>) returns (messages: seq<Message>)
    ensures messages == Opening(system, task, history)
    ensures messages[..2] == [Plain(System, system), Plain(User, task)] && |messages| == 2 + |history|
    ensures forall i | 0 <= i < |history| && history[i].fromAgent ::
      messages[2 + i] == Plain(Assistant, history[i].text)
    ensures forall i | 0 <= i < |history| && !history[i].fromAgent :: messages[2 + i] == Plain(User, history[i].text)
  {
    messages := [Plain(System, system), Plain(User, task)];
    for i := 0 to |history|
      invariant messages == Opening(system, task, history[..i])
    {
      messages := messages + [Plain(if history[i].fromAgent then Assistant else User, history[i].text)];
      assert history[..i + 1][..i] == history[..i];
      assert messages == Opening(system, task, history[..i + 1]);
    }
    assert history[..|history|] == history;
  }

  /** How many of the calls in the window are still running. */
  function Running(window: seq<Option<string>>): nat {
    if window == [] then 0 else (if window[0].None? then 1 else 0) + Running(window[1..])
  }

  lemma {:induction false} RunningAfterFinish(window: seq<Option<string>>, k: nat, text: string)
    requires k < |window| && window[k] == None
    ensures Running(window[k := Some(text)]) < Running(window)
  {
    if k > 0 {
      assert window[k := Some(text)][1..] == window[1..][k - 1 := Some(text)];
      RunningAfterFinish(window[1..], k - 1, text);
    } else {
      assert window[0 := Some(text)][1..] == window[1..];
    }
  }

  /** What the calls of the window have answered so far, the first of them being call
      `from` of the turn. */
  predicate Answers(tools: Tools, turn: nat, calls: seq<Call>, from: nat, window: seq<Option<string>>) {
    && from + |window| <= |calls|
    && forall k | 0 <= k < |window| :: window[k].Some? ==> window[k].value == tools(turn, from + k, calls[from + k])
  }

  predicate GivenOut(tools: Tools, turn: nat, calls: seq<Call>, results: seq<(string, string)>) {
    && |results| <= |calls|
    && forall i | 0 <= i < |results| :: results[i] == (calls[i].id, tools(turn, i, calls[i]))
  }

  /** `stream::iter(..).buffered(n)`: calls start in the order they were asked for, at
      most `CONCURRENT_TOOLS` are started and not yet given out, each finishes whenever
      it finishes, and a result is given out only when all before it have been. Any of
      the steps that are possible may come next. */
  method RunBuffered(tools: Tools, turn: nat, calls: seq<Call>) returns (results: seq<(string, string)>)
    ensures |results| == |calls| && GivenOut(tools, turn, calls, results)
  {
    results := [];
    var window: seq<Option<string>> := [];
    while |results| < |calls|
      invariant |window| <= 4
      invariant GivenOut(tools, turn, calls, results) && Answers(tools, turn, calls, |results|, window)
      decreases |calls| - |results|, |calls| - |results| - |window|, Running(window)
    {
      if
      case |results| + |window| < |calls| && |window| < CONCURRENT_TOOLS =>
        window := window + [None];
      case exists k :: 0 <= k < |window| && window[k] == None =>
        var k :| 0 <= k < |window| && window[k] == None;
        var text := tools(turn, |results| + k, calls[|results| + k]);
        RunningAfterFinish(window, k, text);
        window := window[k := Some(text)];
      case window != [] && window[0].Some? =>
        results := results + [(calls[|results|].id, window[0].value)];
        window := window[1..];
    }
  }

  method RunTools(tools: Tools, turn: nat, reply: Reply, before: seq<Message>) returns (messages: seq<Message>)
    ensures messages == before + TurnMessages(tools, turn, reply)
    ensures |messages| == |before| + 1 + |reply.calls|
    ensures messages[|before|] == ToolCalls(if reply.raw == None then "[]" else reply.raw.value)
    ensures forall i | 0 <= i < |reply.calls| ::
      var result := messages[|before| + 1 + i];
      result.ToolResult? && result.id == reply.calls[i].id && IsShortened(result.text, tools(turn, i, reply.calls[i]))
  {
    hide Truncated;
    messages := before + [ToolCalls(if reply.raw.Some? then reply.raw.value else "[]")];
    var results := RunBuffered(tools, turn, reply.calls);
    for i := 0 to |results|
      invariant messages == before + TurnMessages(tools, turn, reply)[..1 + i]
    {
      var (id, text) := results[i];
      messages := messages + [ToolResult(id, Truncated(text))];
    }
    forall i | 0 <= i < |reply.calls|
      ensures IsShortened(messages[|before| + 1 + i].text, tools(turn, i, reply.calls[i]))
    {
      TruncatedIsShortened(tools(turn, i, reply.calls[i]));
    }
  }

  /** At most twelve turns, each tool call answered once and in order, and the ending
      decided by the first turn that asks for none. */
  method RunLoop(model: Model, tools: Tools, interpret: string -> Outcome,
                 system: string, task: string, history: seq<HistoryLine>)
    returns (outcome: Result<Outcome, Problem>, messages: seq<Message>)
    ensures exists cuts ::
      && IsTranscript(model, tools, Opening(system, task, history), cuts, messages)
      && EndsAfter(model, interpret, |cuts| - 1, messages, outcome)
  {
    hide IsTranscript, TurnMessages, Opening;
    ghost var opening := Opening(system, task, history);
    messages := OpenLog(system, task, history);
    ghost var cuts: seq<nat> := [|messages|];
    TranscriptStarts(model, tools, opening);
    for turn := 0 to MAX_TURNS
      invariant |cuts| == turn + 1
      invariant IsTranscript(model, tools, opening, cuts, messages)
    {
      match model(messages) {
        case Err(why) =>
          outcome := Err(ModelFailed(why));
          assert EndsAfter(model, interpret, |cuts| - 1, messages, outcome);
          return;
        case Ok(reply) =>
          if reply.calls == [] {
            var text := if reply.text.Some? then reply.text.value else "";
            outcome := if Trim(text) == "" then Err(EmptyReply) else Ok(interpret(text));
            assert EndsAfter(model, interpret, |cuts| - 1, messages, outcome);
            return;
          }
          ghost var before := messages;
          messages := RunTools(tools, turn, reply, messages);
          TranscriptGrows(model, tools, opening, cuts, before, messages);
          cuts := cuts + [|messages|];
      }
    }
    outcome := Ok(STOPPED);
    assert EndsAfter(model, interpret, |cuts| - 1, messages, outcome);
  }

  /** The ending in its cases: out of turns after twelve, else what the model's last
      answer says. */
  lemma EndingInItsCases(model: Model, interpret: string -> Outcome, turns: nat, log: seq<Message>,
                         outcome: Result<Outcome, Problem>)
    requires EndsAfter(model, interpret, turns, log, outcome)
    ensures turns == 12 ==> outcome == Ok(Question(
      "Jeg brukte 12 steg uten å bli ferdig, og stoppet framfor å fortsette. Si gjerne hva jeg skal prioritere."))
    ensures turns < 12 ==>
      match model(log)
      case Err(why) => outcome == Err(ModelFailed(why))
      case Ok(reply) =>
        && reply.calls == []
        && outcome == if reply.text == None || (forall c | c in reply.text.value :: IsSpace(c)) then Err(EmptyReply)
                      else Ok(interpret(reply.text.value))
    ensures turns <= 12
  {
    var text := if model(log).Ok? && model(log).value.text.Some? then model(log).value.text.value else "";
    BlankIffAllSpace(text);
    hide Trim;
  }

  lemma TranscriptStarts(model: Model, tools: Tools, opening: seq<Message>)
    ensures IsTranscript(model, tools, opening, [|opening|], opening)
  {
  }

  lemma TranscriptGrows(model: Model, tools: Tools, opening: seq<Message>, cuts: seq<nat>,
                        before: seq<Message>, log: seq<Message>)
    requires IsTranscript(model, tools, opening, cuts, before) && AsksForTools(model, before)
    requires log == before + TurnMessages(tools, |cuts| - 1, model(before).value)
    ensures IsTranscript(model, tools, opening, cuts + [|log|], log)
  {
    hide TurnMessages;
    var longer := cuts + [|log|];
    assert log[..|before|] == before && log[..|log|] == log;
    forall k | 0 <= k < |longer| - 1
      ensures AsksForTools(model, log[..longer[k]])
      ensures log[..longer[k + 1]] == log[..longer[k]] + TurnMessages(tools, k, model(log[..longer[k]]).value)
    {
      assert log[..cuts[k]] == before[..cuts[k]];
      if k < |cuts| - 1 {
        assert log[..cuts[k + 1]] == before[..cuts[k + 1]];
      }
    }
  }

  /** The log alone tells where the turns are: two transcripts of equal length over
      one opening are the same log with the same cuts. */
  lemma {:induction false} TranscriptIsUnique(model: Model, tools: Tools, opening: seq<Message>,
                                              cuts: seq<nat>, log: seq<Message>, cuts': seq<nat>, log': seq<Message>,
                                                k: nat)
    requires IsTranscript(model, tools, opening, cuts, log) && IsTranscript(model, tools, opening, cuts', log')
    requires k < |cuts| && k < |cuts'|
    ensures cuts[k] == cuts'[k] && log[..cuts[k]] == log'[..cuts[k]]
  {
    if k > 0 {
      TranscriptIsUnique(model, tools, opening, cuts, log, cuts', log', k - 1);
      assert |log[..cuts[k]]| == cuts[k] && |log'[..cuts'[k]]| == cuts'[k];
    }
  }

  /** What providers check: past the opening, a tool result is always an answer to
      the nearest request before it, at that call's own place and with its id. */
  lemma EveryResultAnswersItsCall(model: Model, tools: Tools, opening: seq<Message>, cuts: seq<nat>, log: seq<Message>,
                                  k: nat, i: nat)
    requires IsTranscript(model, tools, opening, cuts, log)
    requires k < |cuts| - 1 && cuts[k] <= i < cuts[k + 1]
    ensures
      var calls := model(log[..cuts[k]]).value.calls;
      && cuts[k + 1] == cuts[k] + 1 + |calls|
      && (i == cuts[k] <==> log[i].ToolCalls?)
      && (i > cuts[k] ==>
            var j := i - cuts[k] - 1;
            log[i] == ToolResult(calls[j].id, Truncated(tools(k, j, calls[j]))))
  {
    var added := TurnMessages(tools, k, model(log[..cuts[k]]).value);
    assert |log[..cuts[k + 1]]| == cuts[k] + |added|;
    assert log[i] == log[..cuts[k + 1]][i];
  }

  /** Each turn shows the model everything said before it. */
  lemma {:induction false} OpeningIsNeverLost(model: Model, tools: Tools, opening: seq<Message>, cuts: seq<nat>,
                                              log: seq<Message>, k: nat)
    requires IsTranscript(model, tools, opening, cuts, log) && k < |cuts|
    ensures opening <= log[..cuts[k]] && cuts[k] >= |opening| + 2 * k
  {
    if k > 0 {
      OpeningIsNeverLost(model, tools, opening, cuts, log, k - 1);
      assert |log[..cuts[k]]| == cuts[k];
    }
  }
}
