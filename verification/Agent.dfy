/** The bounded loop of the shopping agent and the logs it writes side by side. */
module Agent {
  import opened Prelude

  const MAX_ITERATIONS := 5

  datatype ToolCall = ToolCall(id: nat, tool: nat, arguments: nat)
  datatype ToolResult = ToolResult(success: bool, data: nat)

  datatype Message =
    | Prior(content: nat)
    | User(content: nat)
    | Assistant(content: nat, calls: seq<ToolCall>)
    | ToolReply(callId: nat, tool: nat, result: ToolResult)

  /** A model either fails or says something, with or without tool calls. */
  datatype ModelReply = ModelError | ModelSays(content: nat, calls: seq<ToolCall>)

  /** The model and the tools may do anything; what they do may depend on all that has
      been said. No two calls of a run find the same conversation. */
  type Model = seq<Message> -> ModelReply
  type Tools = (seq<Message>, ToolCall) -> ToolResult

  datatype Outcome = Succeeded | OutOfIterations | Errored

  datatype Event =
    | RequestReceived
    | ToolCalled(tool: nat, iteration: nat)
    | ToolCompleted(tool: nat, success: bool)
    | FinalResponse(iteration: nat)
    | LlmError
    | MaxIterationsReached
    | RecommendationGenerated(toolsUsed: seq<nat>, toolCallCount: nat, outcome: Outcome)

  datatype AgentToolCall = AgentToolCall(tool: nat, arguments: nat, result: ToolResult)
  datatype MessageRow = UserRow(content: nat) | ToolRow(callId: nat, tool: nat, result: ToolResult) | AssistantRow

  datatype AgentResult = AgentResult(
    toolsUsed: seq<nat>, trace: seq<Event>, iterationCount: nat, toolCallCount: nat, outcome: Outcome)

  // ----- what happens, without the logs -----

  datatype Exec = Exec(call: ToolCall, result: ToolResult)
  datatype Round = Round(content: nat, execs: seq<Exec>)
  datatype Ending = Answered(content: nat) | ModelFailed | Exhausted

  function CallsOf(execs: seq<Exec>): seq<ToolCall> {
    seq(|execs|, i requires 0 <= i < |execs| => execs[i].call)
  }

  function RepliesOf(execs: seq<Exec>): seq<Message> {
    seq(|execs|, i requires 0 <= i < |execs| => ToolReply(execs[i].call.id, execs[i].call.tool, execs[i].result))
  }

  /** Each call is executed knowing the results of the ones before it. */
  function Execute(tools: Tools, said: seq<Message>, calls: seq<ToolCall>): (execs: seq<Exec>)
    ensures |execs| == |calls|
  {
    if calls == [] then []
    else
      var n := |calls| - 1;
      var front := Execute(tools, said, calls[..n]);
      front + [Exec(calls[n], tools(said + RepliesOf(front), calls[n]))]
  }

  function RoundSaid(round: Round): seq<Message> {
    [Assistant(round.content, CallsOf(round.execs))] + RepliesOf(round.execs)
  }

  /** The rounds of tool calls and how they end, when the model may be asked `fuel` times. */
  function Play(model: Model, tools: Tools, said: seq<Message>, fuel: nat): (seq<Round>, Ending)
    decreases fuel
  {
    if fuel == 0 then ([], Exhausted)
    else
      match model(said)
      case ModelError => ([], ModelFailed)
      case ModelSays(content, calls) =>
        if calls == [] then ([], Answered(content))
        else
          var round := Round(content, Execute(tools, said + [Assistant(content, calls)], calls));
          var (rest, ending) := Play(model, tools, said + RoundSaid(round), fuel - 1);
          ([round] + rest, ending)
  }

  // ----- what each log should hold -----

  function Said(rounds: seq<Round>): seq<Message> {
    if rounds == [] then [] else Said(rounds[..|rounds| - 1]) + RoundSaid(rounds[|rounds| - 1])
  }

  function Executed(rounds: seq<Round>): seq<Exec> {
    if rounds == [] then [] else Executed(rounds[..|rounds| - 1]) + rounds[|rounds| - 1].execs
  }

  function ExecEvents(execs: seq<Exec>, iteration: nat): seq<Event> {
    if execs == [] then []
    else
      var e := execs[|execs| - 1];
      ExecEvents(execs[..|execs| - 1], iteration)
      + [ToolCalled(e.call.tool, iteration), ToolCompleted(e.call.tool, e.result.success)]
  }

  function RoundEvents(rounds: seq<Round>): seq<Event> {
    if rounds == [] then []
    else RoundEvents(rounds[..|rounds| - 1]) + ExecEvents(rounds[|rounds| - 1].execs, |rounds| - 1)
  }

  function EndEvent(ending: Ending, iteration: nat): Event {
    match ending
    case Answered(_) => FinalResponse(iteration)
    case ModelFailed => LlmError
    case Exhausted => MaxIterationsReached
  }

  function OutcomeOf(ending: Ending): Outcome {
    match ending
    case Answered(_) => Succeeded
    case ModelFailed => Errored
    case Exhausted => OutOfIterations
  }

  function RowsOf(execs: seq<Exec>): seq<AgentToolCall> {
    seq(|execs|, i requires 0 <= i < |execs| => AgentToolCall(execs[i].call.tool, execs[i].call.arguments, execs[i].result))
  }

  function MessageRowsOf(execs: seq<Exec>): seq<MessageRow> {
    seq(|execs|, i requires 0 <= i < |execs| => ToolRow(execs[i].call.id, execs[i].call.tool, execs[i].result))
  }

  /** Tools that succeeded, each once, in the order of their first success. */
  function FirstSuccesses(execs: seq<Exec>): seq<nat> {
    if execs == [] then []
    else
      var front := FirstSuccesses(execs[..|execs| - 1]);
      var e := execs[|execs| - 1];
      if e.result.success && e.call.tool !in front then front + [e.call.tool] else front
  }

  function FullTrace(rounds: seq<Round>, ending: Ending): seq<Event> {
    [RequestReceived] + RoundEvents(rounds)
    + [EndEvent(ending, |rounds|),
       RecommendationGenerated(FirstSuccesses(Executed(rounds)), |Executed(rounds)|, OutcomeOf(ending))]
  }

  // ----- the loop -----

  class Orchestrator {
    var messages: seq<Message>
    var trace: seq<Event>
    var toolsUsed: seq<nat>
    var toolCallCount: nat
    var toolCallRows: seq<AgentToolCall>
    var messageRows: seq<MessageRow>
    var modelCalls: nat

    /** The logs hold what happened in these executions since the given beginnings. */
    ghost predicate LogsHold(said: seq<Message>, events: seq<Event>, execs: seq<Exec>, userMessage: nat)
      reads this
    {
      && messages == said && trace == events
      && toolsUsed == FirstSuccesses(execs) && toolCallCount == |execs|
      && toolCallRows == RowsOf(execs) && messageRows == [UserRow(userMessage)] + MessageRowsOf(execs)
    }

    method CallTool(tools: Tools, call: ToolCall, iteration: nat, ghost execs: seq<Exec>, userMessage: nat)
      returns (ghost exec: Exec)
      requires LogsHold(messages, trace, execs, userMessage)
      modifies this
      ensures exec == Exec(call, tools(old(messages), call)) && modelCalls == old(modelCalls)
      ensures LogsHold(old(messages) + RepliesOf([exec]), old(trace) + ExecEvents([exec], iteration), execs + [exec], userMessage)
    {
      toolCallCount := toolCallCount + 1;
      trace := trace + [ToolCalled(call.tool, iteration)];
      var result := tools(messages, call);
      if result.success && call.tool !in toolsUsed {
        toolsUsed := toolsUsed + [call.tool];
      }
      toolCallRows := toolCallRows + [AgentToolCall(call.tool, call.arguments, result)];
      trace := trace + [ToolCompleted(call.tool, result.success)];
      messages := messages + [ToolReply(call.id, call.tool, result)];
      messageRows := messageRows + [ToolRow(call.id, call.tool, result)];
      exec := Exec(call, result);
      assert (execs + [exec])[..|execs|] == execs;
      assert RowsOf(execs + [exec]) == RowsOf(execs) + RowsOf([exec]);
      assert MessageRowsOf(execs + [exec]) == MessageRowsOf(execs) + MessageRowsOf([exec]);
    }

    method ProcessCalls(tools: Tools, calls: seq<ToolCall>, iteration: nat, ghost before: seq<Exec>, userMessage: nat)
      returns (ghost execs: seq<Exec>)
      requires LogsHold(messages, trace, before, userMessage)
      modifies this
      ensures execs == Execute(tools, old(messages), calls) && modelCalls == old(modelCalls)
      ensures LogsHold(old(messages) + RepliesOf(execs), old(trace) + ExecEvents(execs, iteration), before + execs, userMessage)
    {
      hide FirstSuccesses, RowsOf, MessageRowsOf;
      execs := [];
      assert old(messages) + RepliesOf([]) == old(messages);
      assert old(trace) + ExecEvents([], iteration) == old(trace);
      assert before + [] == before;
      for k := 0 to |calls|
        invariant execs == Execute(tools, old(messages), calls[..k]) && modelCalls == old(modelCalls)
        invariant LogsHold(old(messages) + RepliesOf(execs), old(trace) + ExecEvents(execs, iteration), before + execs, userMessage)
      {
        ghost var exec := CallTool(tools, calls[k], iteration, before + execs, userMessage);
        assert calls[..k + 1][..k] == calls[..k];
        assert (execs + [exec])[..|execs|] == execs;
        assert ExecEvents([exec], iteration) == [ToolCalled(exec.call.tool, iteration), ToolCompleted(exec.call.tool, exec.result.success)];
        assert old(messages) + RepliesOf(execs) + RepliesOf([exec]) == old(messages) + RepliesOf(execs + [exec]);
        assert old(trace) + ExecEvents(execs, iteration) + ExecEvents([exec], iteration) == old(trace) + ExecEvents(execs + [exec], iteration);
        assert before + execs + [exec] == before + (execs + [exec]);
        execs := execs + [exec];
      }
      assert calls[..|calls|] == calls;
    }

    /** What the loop has left to do after these rounds. */
    ghost predicate Underway(model: Model, tools: Tools, start: seq<Message>, rounds: seq<Round>) {
      |rounds| <= MAX_ITERATIONS
      && var (rest, ending) := Play(model, tools, start + Said(rounds), MAX_ITERATIONS - |rounds|);
         Play(model, tools, start, MAX_ITERATIONS) == (rounds + rest, ending)
    }

    lemma OneRound(model: Model, tools: Tools, start: seq<Message>, rounds: seq<Round>, round: Round, calls: seq<ToolCall>)
      requires Underway(model, tools, start, rounds) && |rounds| < MAX_ITERATIONS && calls != []
      requires model(start + Said(rounds)) == ModelSays(round.content, calls)
      requires round.execs == Execute(tools, start + Said(rounds) + [Assistant(round.content, calls)], calls)
      ensures CallsOf(round.execs) == calls
      ensures Said(rounds + [round]) == Said(rounds) + [Assistant(round.content, calls)] + RepliesOf(round.execs)
      ensures RoundEvents(rounds + [round]) == RoundEvents(rounds) + ExecEvents(round.execs, |rounds|)
      ensures Executed(rounds + [round]) == Executed(rounds) + round.execs
      ensures Underway(model, tools, start, rounds + [round])
    {
      hide Play, Underway, Execute, ExecEvents, RepliesOf, CallsOf;
      ExecutesTheCalls(tools, start + Said(rounds) + [Assistant(round.content, calls)], calls);
      assert (rounds + [round])[..|rounds|] == rounds;
      assert RoundSaid(round) == [Assistant(round.content, calls)] + RepliesOf(round.execs);
      assert Said(rounds + [round]) == Said(rounds) + RoundSaid(round);
      hide Said, RoundEvents, Executed, RoundSaid;
      StillUnderway(model, tools, start, rounds, round, calls);
    }

    lemma StillUnderway(model: Model, tools: Tools, start: seq<Message>, rounds: seq<Round>, round: Round, calls: seq<ToolCall>)
      requires Underway(model, tools, start, rounds) && |rounds| < MAX_ITERATIONS && calls != []
      requires model(start + Said(rounds)) == ModelSays(round.content, calls)
      requires round.execs == Execute(tools, start + Said(rounds) + [Assistant(round.content, calls)], calls)
      requires Said(rounds + [round]) == Said(rounds) + RoundSaid(round)
      ensures Underway(model, tools, start, rounds + [round])
    {
      hide Said, Execute, RoundSaid;
      assert start + Said(rounds + [round]) == start + Said(rounds) + RoundSaid(round);
      var (rest, ending) := Play(model, tools, start + Said(rounds + [round]), MAX_ITERATIONS - |rounds| - 1);
      assert rounds + ([round] + rest) == rounds + [round] + rest;
    }

    /** The loop stands before its next model call. */
    ghost predicate AtRound(model: Model, tools: Tools, start: seq<Message>, rounds: seq<Round>, userMessage: nat)
      reads this
    {
      && Underway(model, tools, start, rounds)
      && LogsHold(start + Said(rounds), [RequestReceived] + RoundEvents(rounds), Executed(rounds), userMessage)
      && modelCalls == |rounds|
    }

    /** The loop is over, and its last trace event written. */
    ghost predicate AtEnd(model: Model, tools: Tools, start: seq<Message>, userMessage: nat, outcome: Outcome)
      reads this
    {
      var (rounds, ending) := Play(model, tools, start, MAX_ITERATIONS);
      && LogsHold(start + Said(rounds) + (if ending.Answered? then [Assistant(ending.content, [])] else []),
                  [RequestReceived] + RoundEvents(rounds) + [EndEvent(ending, |rounds|)], Executed(rounds), userMessage)
      && modelCalls == |rounds| + (if ending.Exhausted? then 0 else 1)
      && outcome == OutcomeOf(ending)
    }

    lemma EndsHere(model: Model, tools: Tools, start: seq<Message>, rounds: seq<Round>)
      requires Underway(model, tools, start, rounds)
      ensures |rounds| == MAX_ITERATIONS ==> Play(model, tools, start, MAX_ITERATIONS) == (rounds, Exhausted)
      ensures |rounds| < MAX_ITERATIONS && model(start + Said(rounds)).ModelError? ==>
                Play(model, tools, start, MAX_ITERATIONS) == (rounds, ModelFailed)
      ensures |rounds| < MAX_ITERATIONS && model(start + Said(rounds)).ModelSays? && model(start + Said(rounds)).calls == [] ==>
                Play(model, tools, start, MAX_ITERATIONS) == (rounds, Answered(model(start + Said(rounds)).content))
    {
      assert rounds + [] == rounds;
    }

    /** Writes the event that ends the loop, and the answer if there is one. */
    method WriteEnd(ending: Ending, iteration: nat, userMessage: nat,
                    ghost model: Model, ghost tools: Tools, ghost start: seq<Message>, ghost rounds: seq<Round>)
      requires LogsHold(start + Said(rounds), [RequestReceived] + RoundEvents(rounds), Executed(rounds), userMessage)
      requires Play(model, tools, start, MAX_ITERATIONS) == (rounds, ending) && iteration == |rounds|
      requires modelCalls == |rounds| + (if ending.Exhausted? then 0 else 1)
      modifies `messages, `trace
      ensures AtEnd(model, tools, start, userMessage, OutcomeOf(ending))
    {
      hide Play, Said, RoundEvents, Executed, FirstSuccesses, RowsOf, MessageRowsOf;
      assert messages + [] == messages;
      match ending {
        case Answered(content) =>
          trace := trace + [FinalResponse(iteration)];
          messages := messages + [Assistant(content, [])];
        case ModelFailed =>
          trace := trace + [LlmError];
        case Exhausted =>
          trace := trace + [MaxIterationsReached];
      }
    }

    /** A round of tool calls. */
    method PlayRound(tools: Tools, content: nat, calls: seq<ToolCall>, iteration: nat, userMessage: nat,
                     ghost model: Model, ghost start: seq<Message>, ghost rounds: seq<Round>)
      returns (ghost round: Round)
      requires LogsHold(start + Said(rounds), [RequestReceived] + RoundEvents(rounds), Executed(rounds), userMessage)
      requires Underway(model, tools, start, rounds) && iteration == |rounds| < MAX_ITERATIONS && calls != []
      requires modelCalls == |rounds| + 1 && model(start + Said(rounds)) == ModelSays(content, calls)
      modifies this
      ensures AtRound(model, tools, start, rounds + [round], userMessage)
    {
      hide Play, Underway, Said, RoundEvents, Executed, FirstSuccesses, RowsOf, MessageRowsOf, Execute;
      messages := messages + [Assistant(content, calls)];
      ghost var execs := ProcessCalls(tools, calls, iteration, Executed(rounds), userMessage);
      hide LogsHold;
      round := Round(content, execs);
      OneRound(model, tools, start, rounds, round, calls);
      assert start + Said(rounds) + [Assistant(content, calls)] + RepliesOf(execs) == start + Said(rounds + [round]);
      assert [RequestReceived] + RoundEvents(rounds) + ExecEvents(execs, iteration) == [RequestReceived] + RoundEvents(rounds + [round]);
    }

    /** One turn of the loop: a model call and, if it asks for any, its tool calls. */
    method Iterate(model: Model, tools: Tools, iteration: nat, userMessage: nat,
                   ghost start: seq<Message>, ghost rounds: seq<Round>)
      returns (ended: Option<Outcome>, ghost next: seq<Round>)
      requires AtRound(model, tools, start, rounds, userMessage) && iteration == |rounds| < MAX_ITERATIONS
      modifies this
      ensures ended.None? ==> |next| == |rounds| + 1 && AtRound(model, tools, start, next, userMessage)
      ensures ended.Some? ==> AtEnd(model, tools, start, userMessage, ended.value) && modelCalls == |rounds| + 1
                              && ended.value != OutOfIterations
    {
      EndsHere(model, tools, start, rounds);
      next := rounds;
      var reply := model(messages);
      modelCalls := modelCalls + 1;
      hide Play, Underway, Said, RoundEvents, Executed, FirstSuccesses, RowsOf, MessageRowsOf;
      if reply.ModelError? {
        WriteEnd(ModelFailed, iteration, userMessage, model, tools, start, rounds);
        return Some(Errored), next;
      }
      if reply.calls == [] {
        WriteEnd(Answered(reply.content), iteration, userMessage, model, tools, start, rounds);
        return Some(Succeeded), next;
      }
      ghost var round := PlayRound(tools, reply.content, reply.calls, iteration, userMessage, model, start, rounds);
      hide AtRound;
      return None, rounds + [round];
    }

    /** The first message of a run, and empty logs. */
    method Begin(history: seq<Message>, userMessage: nat, ghost model: Model, ghost tools: Tools)
      modifies this
      ensures AtRound(model, tools, history + [User(userMessage)], [], userMessage)
    {
      trace, toolsUsed, toolCallCount, toolCallRows, modelCalls := [RequestReceived], [], 0, [], 0;
      messages := history + [User(userMessage)];
      messageRows := [UserRow(userMessage)];
      assert messages + Said([]) == messages && [RequestReceived] + RoundEvents([]) == [RequestReceived];
      assert messageRows + MessageRowsOf([]) == messageRows;
      ghost var (rest, _) := Play(model, tools, messages, MAX_ITERATIONS);
      assert [] + rest == rest;
    }

    method Run(history: seq<Message>, userMessage: nat, model: Model, tools: Tools) returns (r: AgentResult)
      modifies this
      ensures var start := history + [User(userMessage)];
              var (rounds, ending) := Play(model, tools, start, MAX_ITERATIONS);
              && messages == start + Said(rounds) + (if ending.Answered? then [Assistant(ending.content, [])] else [])
              && r.trace == FullTrace(rounds, ending)
              && r.toolsUsed == FirstSuccesses(Executed(rounds))
              && r.toolCallCount == |Executed(rounds)|
              && toolCallRows == RowsOf(Executed(rounds))
              && messageRows == [UserRow(userMessage)] + MessageRowsOf(Executed(rounds)) + [AssistantRow]
              && r.outcome == OutcomeOf(ending)
              && r.iterationCount == modelCalls == |rounds| + (if ending.Exhausted? then 0 else 1)
      ensures modelCalls <= 5
    {
      Begin(history, userMessage, model, tools);
      ghost var start := history + [User(userMessage)];
      ghost var rounds: seq<Round> := [];
      var outcome := Succeeded;
      var iterationCount := 0;
      hide AtRound, AtEnd, Play, FullTrace;
      while true
        invariant iterationCount == |rounds| <= MAX_ITERATIONS
        invariant AtRound(model, tools, start, rounds, userMessage)
        decreases MAX_ITERATIONS - |rounds|
      {
        if iterationCount == MAX_ITERATIONS {
          GiveUp(userMessage, model, tools, start, rounds);
          outcome := OutOfIterations;
          break;
        }
        var ended: Option<Outcome>;
        ended, rounds := Iterate(model, tools, iterationCount, userMessage, start, rounds);
        iterationCount := iterationCount + 1;
        if ended.Some? {
          outcome := ended.value;
          break;
        }
      }
      r := Conclude(iterationCount, outcome, userMessage, model, tools, start);
    }

    /** The model has been asked as often as it may. */
    method GiveUp(userMessage: nat, ghost model: Model, ghost tools: Tools, ghost start: seq<Message>, ghost rounds: seq<Round>)
      requires AtRound(model, tools, start, rounds, userMessage) && |rounds| == MAX_ITERATIONS
      modifies `messages, `trace
      ensures AtEnd(model, tools, start, userMessage, OutOfIterations) && modelCalls == MAX_ITERATIONS
    {
      EndsHere(model, tools, start, rounds);
      WriteEnd(Exhausted, MAX_ITERATIONS, userMessage, model, tools, start, rounds);
    }

    /** The last rows and the last trace event. */
    method Conclude(iterationCount: nat, outcome: Outcome, userMessage: nat,
                    ghost model: Model, ghost tools: Tools, ghost start: seq<Message>)
      returns (r: AgentResult)
      requires AtEnd(model, tools, start, userMessage, outcome) && iterationCount == modelCalls
      modifies `messageRows, `trace
      ensures var (rounds, ending) := Play(model, tools, start, MAX_ITERATIONS);
              && messages == start + Said(rounds) + (if ending.Answered? then [Assistant(ending.content, [])] else [])
              && r.trace == FullTrace(rounds, ending)
              && r.toolsUsed == FirstSuccesses(Executed(rounds))
              && r.toolCallCount == |Executed(rounds)|
              && toolCallRows == RowsOf(Executed(rounds))
              && messageRows == [UserRow(userMessage)] + MessageRowsOf(Executed(rounds)) + [AssistantRow]
              && r.outcome == OutcomeOf(ending)
              && r.iterationCount == modelCalls == |rounds| + (if ending.Exhausted? then 0 else 1)
    {
      hide Play, Said, RoundEvents, Executed, FirstSuccesses, RowsOf, MessageRowsOf;
      messageRows := messageRows + [AssistantRow];
      trace := trace + [RecommendationGenerated(toolsUsed, toolCallCount, outcome)];
      return AgentResult(toolsUsed, trace, iterationCount, toolCallCount, outcome);
    }
  }

  lemma {:induction false} ExecutesTheCalls(tools: Tools, said: seq<Message>, calls: seq<ToolCall>)
    ensures CallsOf(Execute(tools, said, calls)) == calls
  {
    if calls != [] {
      var n := |calls| - 1;
      ExecutesTheCalls(tools, said, calls[..n]);
      assert CallsOf(Execute(tools, said, calls)) == CallsOf(Execute(tools, said, calls[..n])) + [calls[n]];
    }
  }
}
