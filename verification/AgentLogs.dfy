/** What the agent's logs look like to someone who only reads the logs. */
module AgentLogs {
  import opened Prelude
  import opened Agent

  // ----- the rounds are the model's and the tools' own doing -----

  /** The model is asked at most `fuel` times, and every round has tool calls. */
  lemma {:induction false} PlayIsBounded(model: Model, tools: Tools, said: seq<Message>, fuel: nat)
    ensures var (rounds, ending) := Play(model, tools, said, fuel);
            && |rounds| + (if ending.Exhausted? then 0 else 1) <= fuel
            && (ending.Exhausted? ==> |rounds| == fuel)
            && forall i | 0 <= i < |rounds| :: rounds[i].execs != []
    decreases fuel
  {
    if fuel > 0 && model(said).ModelSays? && model(said).calls != [] {
      var calls := model(said).calls;
      var round := Round(model(said).content, Execute(tools, said + [Assistant(model(said).content, calls)], calls));
      PlayIsBounded(model, tools, said + RoundSaid(round), fuel - 1);
    }
  }

  lemma {:induction false} SaidAppends(first: seq<Round>, rest: seq<Round>)
    ensures Said(first + rest) == Said(first) + Said(rest)
  {
    hide RoundSaid;
    if rest == [] {
      assert first + rest == first;
    } else {
      var n := |rest| - 1;
      SaidAppends(first, rest[..n]);
      assert (first + rest)[..|first + rest| - 1] == first + rest[..n];
      assert Said(first) + (Said(rest[..n]) + RoundSaid(rest[n])) == Said(first) + Said(rest[..n]) + RoundSaid(rest[n]);
    }
  }

  /** Round `i` answers the conversation up to then, and call `k` of it ran on the
      conversation up to it. */
  ghost predicate Answers(model: Model, tools: Tools, said: seq<Message>, round: Round) {
    && model(said) == ModelSays(round.content, CallsOf(round.execs))
    && forall k | 0 <= k < |round.execs| ::
         round.execs[k].result
         == tools(said + [Assistant(round.content, CallsOf(round.execs))] + RepliesOf(round.execs[..k]), round.execs[k].call)
  }

  lemma {:induction false} ExecutedInTurn(tools: Tools, said: seq<Message>, calls: seq<ToolCall>, k: nat)
    requires k < |calls|
    ensures var execs := Execute(tools, said, calls);
            execs[k].result == tools(said + RepliesOf(execs[..k]), calls[k])
  {
    var n := |calls| - 1;
    var front := Execute(tools, said, calls[..n]);
    var execs := Execute(tools, said, calls);
    assert execs[..n] == front && execs[..k] == front[..k];
    if k == n {
      assert front[..n] == front;
    } else {
      ExecutedInTurn(tools, said, calls[..n], k);
    }
  }

  lemma FirstRoundAnswers(model: Model, tools: Tools, said: seq<Message>)
    requires model(said).ModelSays?
    ensures var content, calls := model(said).content, model(said).calls;
            Answers(model, tools, said, Round(content, Execute(tools, said + [Assistant(content, calls)], calls)))
  {
    var content, calls := model(said).content, model(said).calls;
    var asked := said + [Assistant(content, calls)];
    var round := Round(content, Execute(tools, asked, calls));
    ExecutesTheCalls(tools, asked, calls);
    forall k | 0 <= k < |round.execs|
      ensures round.execs[k].result == tools(asked + RepliesOf(round.execs[..k]), round.execs[k].call)
    {
      ExecutedInTurn(tools, asked, calls, k);
      assert CallsOf(round.execs)[k] == calls[k];
    }
  }

  lemma {:induction false} PlayFollowsTheModel(model: Model, tools: Tools, said: seq<Message>, fuel: nat, i: nat)
    requires i < |Play(model, tools, said, fuel).0|
    ensures var rounds := Play(model, tools, said, fuel).0;
            Answers(model, tools, said + Said(rounds[..i]), rounds[i])
    decreases fuel
  {
    var content, calls := model(said).content, model(said).calls;
    var round := Round(content, Execute(tools, said + [Assistant(content, calls)], calls));
    var rounds := Play(model, tools, said, fuel).0;
    if i == 0 {
      FirstRoundAnswers(model, tools, said);
      assert said + Said(rounds[..0]) == said;
    } else {
      var rest := Play(model, tools, said + RoundSaid(round), fuel - 1).0;
      PlayFollowsTheModel(model, tools, said + RoundSaid(round), fuel - 1, i - 1);
      assert rounds == [round] + rest;
      hide Play, Answers, Execute, RoundSaid;
      SaidAfterFirst(said, round, rest, i);
    }
  }

  /** What the loop ends with is what the model says after the last round, or nothing. */
  ghost predicate EndsAs(model: Model, said: seq<Message>, ending: Ending) {
    match ending
    case Answered(content) => model(said) == ModelSays(content, [])
    case ModelFailed => model(said) == ModelError
    case Exhausted => true
  }

  lemma {:induction false} PlayEndsWithTheModel(model: Model, tools: Tools, said: seq<Message>, fuel: nat)
    ensures var (rounds, ending) := Play(model, tools, said, fuel); EndsAs(model, said + Said(rounds), ending)
    decreases fuel
  {
    hide Execute, RoundSaid;
    if fuel > 0 && model(said).ModelSays? && model(said).calls != [] {
      var content, calls := model(said).content, model(said).calls;
      var round := Round(content, Execute(tools, said + [Assistant(content, calls)], calls));
      var rest := Play(model, tools, said + RoundSaid(round), fuel - 1).0;
      PlayEndsWithTheModel(model, tools, said + RoundSaid(round), fuel - 1);
      SaidAfterAll(said, round, rest);
    } else {
      assert said + Said([]) == said;
    }
  }

  lemma SaidAfterAll(said: seq<Message>, round: Round, rest: seq<Round>)
    ensures said + Said([round] + rest) == said + RoundSaid(round) + Said(rest)
  {
    assert ([round] + rest)[..|rest| + 1] == [round] + rest && rest[..|rest|] == rest;
    hide RoundSaid, Said;
    SaidAfterFirst(said, round, rest, |rest| + 1);
  }

  lemma SaidAfterFirst(said: seq<Message>, round: Round, rest: seq<Round>, i: nat)
    requires 1 <= i <= |rest| + 1
    ensures said + Said(([round] + rest)[..i]) == said + RoundSaid(round) + Said(rest[..i - 1])
  {
    hide RoundSaid;
    assert ([round] + rest)[..i] == [round] + rest[..i - 1];
    SaidAppends([round], rest[..i - 1]);
    assert [round][..0] == [] && Said([round]) == [] + RoundSaid(round);
    assert said + (RoundSaid(round) + Said(rest[..i - 1])) == said + RoundSaid(round) + Said(rest[..i - 1]);
  }

  // ----- the trace -----

  datatype Reading = AtStart | Idle | Busy(tool: nat) | Closing(outcome: Outcome) | Closed(outcome: Outcome) | Stuck

  function Read(r: Reading, e: Event): Reading {
    match (r, e)
    case (AtStart, RequestReceived) => Idle
    case (Idle, ToolCalled(tool, _)) => Busy(tool)
    case (Busy(tool), ToolCompleted(done, _)) => if tool == done then Idle else Stuck
    case (Idle, FinalResponse(_)) => Closing(Succeeded)
    case (Idle, LlmError) => Closing(Errored)
    case (Idle, MaxIterationsReached) => Closing(OutOfIterations)
    case (Closing(outcome), RecommendationGenerated(_, _, reported)) => if outcome == reported then Closed(outcome) else Stuck
    case _ => Stuck
  }

  function ReadAll(r: Reading, trace: seq<Event>): Reading {
    if trace == [] then r else Read(ReadAll(r, trace[..|trace| - 1]), trace[|trace| - 1])
  }

  lemma {:induction false} ReadAppend(r: Reading, a: seq<Event>, b: seq<Event>)
    ensures ReadAll(r, a + b) == ReadAll(ReadAll(r, a), b)
  {
    if b == [] {
      assert a + b == a;
    } else {
      ReadAppend(r, a, b[..|b| - 1]);
      assert (a + b)[..|a + b| - 1] == a + b[..|b| - 1];
    }
  }

  lemma ReadPair(r: Reading, a: Event, b: Event)
    ensures ReadAll(r, [a, b]) == Read(Read(r, a), b)
  {
    hide Read;
    assert [a, b][..1] == [a] && [a][..0] == [];
    assert ReadAll(r, [a]) == Read(r, a);
  }

  lemma {:induction false} ExecEventsRead(execs: seq<Exec>, iteration: nat)
    ensures ReadAll(Idle, ExecEvents(execs, iteration)) == Idle
  {
    if execs != [] {
      var n := |execs| - 1;
      var e := execs[n];
      var called, completed := ToolCalled(e.call.tool, iteration), ToolCompleted(e.call.tool, e.result.success);
      ExecEventsRead(execs[..n], iteration);
      ReadAppend(Idle, ExecEvents(execs[..n], iteration), [called, completed]);
      ReadPair(Idle, called, completed);
    }
  }

  lemma {:induction false} RoundEventsRead(rounds: seq<Round>)
    ensures ReadAll(Idle, RoundEvents(rounds)) == Idle
  {
    if rounds != [] {
      var n := |rounds| - 1;
      RoundEventsRead(rounds[..n]);
      ExecEventsRead(rounds[n].execs, n);
      ReadAppend(Idle, RoundEvents(rounds[..n]), ExecEvents(rounds[n].execs, n));
    }
  }

  /** Every trace is a request, pairs of a tool's call and completion, one closing event and
      the report of the outcome that the closing event stands for. */
  lemma TraceIsGrammatical(rounds: seq<Round>, ending: Ending)
    ensures ReadAll(AtStart, FullTrace(rounds, ending)) == Closed(OutcomeOf(ending))
  {
    var report := RecommendationGenerated(FirstSuccesses(Executed(rounds)), |Executed(rounds)|, OutcomeOf(ending));
    var start, end := [RequestReceived], EndEvent(ending, |rounds|);
    hide RoundEvents, Executed, FirstSuccesses;
    RoundEventsRead(rounds);
    assert start[..0] == [] && ReadAll(AtStart, start) == Idle;
    ReadAppend(AtStart, start, RoundEvents(rounds));
    ReadAppend(AtStart, start + RoundEvents(rounds), [end, report]);
    ReadPair(Idle, end, report);
    assert FullTrace(rounds, ending) == start + RoundEvents(rounds) + [end, report];
  }

  function CalledOne(e: Event): int {
    if e.ToolCalled? then 1 else 0
  }

  lemma {:induction false} TotalConcat<T>(a: seq<T>, b: seq<T>, f: T -> int)
    ensures Total(a + b, f) == Total(a, f) + Total(b, f)
  {
    if b == [] {
      assert a + b == a;
    } else {
      TotalConcat(a, b[..|b| - 1], f);
      assert (a + b)[..|a + b| - 1] == a + b[..|b| - 1];
    }
  }

  lemma {:induction false} ExecEventsCount(execs: seq<Exec>, iteration: nat)
    ensures Total(ExecEvents(execs, iteration), CalledOne) == |execs|
  {
    if execs != [] {
      var n := |execs| - 1;
      var e := execs[n];
      var pair := [ToolCalled(e.call.tool, iteration), ToolCompleted(e.call.tool, e.result.success)];
      ExecEventsCount(execs[..n], iteration);
      TotalConcat(ExecEvents(execs[..n], iteration), pair, CalledOne);
      assert pair[..1] == [pair[0]] && pair[..1][..0] == [];
      assert Total(pair[..1], CalledOne) == 1;
    }
  }

  lemma {:induction false} RoundEventsCount(rounds: seq<Round>)
    ensures Total(RoundEvents(rounds), CalledOne) == |Executed(rounds)|
  {
    if rounds != [] {
      var n := |rounds| - 1;
      RoundEventsCount(rounds[..n]);
      ExecEventsCount(rounds[n].execs, n);
      TotalConcat(RoundEvents(rounds[..n]), ExecEvents(rounds[n].execs, n), CalledOne);
    }
  }

  function ReplyOne(m: Message): int {
    if m.ToolReply? then 1 else 0
  }

  lemma {:induction false} RepliesCount(execs: seq<Exec>)
    ensures Total(RepliesOf(execs), ReplyOne) == |execs|
  {
    if execs != [] {
      var n := |execs| - 1;
      RepliesCount(execs[..n]);
      assert RepliesOf(execs)[..n] == RepliesOf(execs[..n]);
    }
  }

  lemma {:induction false} SaidCount(rounds: seq<Round>)
    ensures Total(Said(rounds), ReplyOne) == |Executed(rounds)|
  {
    if rounds != [] {
      var n := |rounds| - 1;
      var round := rounds[n];
      SaidCount(rounds[..n]);
      RepliesCount(round.execs);
      var opening := [Assistant(round.content, CallsOf(round.execs))];
      assert opening[..0] == [];
      TotalConcat(opening, RepliesOf(round.execs), ReplyOne);
      TotalConcat(Said(rounds[..n]), RoundSaid(round), ReplyOne);
    }
  }

  /** The reported number of tool calls is the number of call events in the trace, of rows
      written and of tool messages added to the conversation. */
  lemma LogsAgreeOnToolCalls(rounds: seq<Round>, ending: Ending)
    ensures Total(FullTrace(rounds, ending), CalledOne) == |Executed(rounds)|
    ensures |RowsOf(Executed(rounds))| == |Executed(rounds)|
    ensures Total(Said(rounds), ReplyOne) == |Executed(rounds)|
  {
    var report := RecommendationGenerated(FirstSuccesses(Executed(rounds)), |Executed(rounds)|, OutcomeOf(ending));
    var close := [EndEvent(ending, |rounds|), report];
    var start := [RequestReceived];
    RoundEventsCount(rounds);
    SaidCount(rounds);
    assert start[..0] == [] && close[..1] == [EndEvent(ending, |rounds|)] && close[..1][..0] == [];
    assert Total(start, CalledOne) == 0 && Total(close[..1], CalledOne) == 0;
    TotalConcat(start, RoundEvents(rounds), CalledOne);
    TotalConcat(start + RoundEvents(rounds), close, CalledOne);
    assert FullTrace(rounds, ending) == start + RoundEvents(rounds) + close;
  }

  // ----- where each log has each call -----

  /** How many calls were executed before round `i`. */
  function Earlier(rounds: seq<Round>, i: nat): nat
    requires i <= |rounds|
  {
    |Executed(rounds[..i])|
  }

  lemma EarlierInFront(rounds: seq<Round>, i: nat)
    requires i < |rounds|
    ensures Earlier(rounds[..|rounds| - 1], i) == Earlier(rounds, i)
    ensures Earlier(rounds, i) + |rounds[i].execs| == Earlier(rounds, i + 1) <= |Executed(rounds)|
    decreases |rounds|
  {
    var n := |rounds| - 1;
    assert rounds[..n][..i] == rounds[..i];
    assert rounds[..i + 1][..i] == rounds[..i];
    if i == n {
      assert rounds[..n + 1] == rounds;
    } else {
      EarlierInFront(rounds[..n], i);
      assert rounds[..n][..i + 1] == rounds[..i + 1];
    }
  }

  lemma {:induction false} ExecutedAt(rounds: seq<Round>, i: nat, k: nat)
    requires i < |rounds| && k < |rounds[i].execs|
    ensures Earlier(rounds, i) + k < |Executed(rounds)|
    ensures Executed(rounds)[Earlier(rounds, i) + k] == rounds[i].execs[k]
  {
    EarlierInFront(rounds, i);
    if i < |rounds| - 1 {
      ExecutedAt(rounds[..|rounds| - 1], i, k);
    }
  }

  lemma {:induction false} ExecEventsAt(execs: seq<Exec>, iteration: nat, k: nat)
    ensures |ExecEvents(execs, iteration)| == 2 * |execs|
    ensures k < |execs| ==>
              ExecEvents(execs, iteration)[2 * k] == ToolCalled(execs[k].call.tool, iteration)
              && ExecEvents(execs, iteration)[2 * k + 1] == ToolCompleted(execs[k].call.tool, execs[k].result.success)
  {
    if execs != [] {
      ExecEventsAt(execs[..|execs| - 1], iteration, k);
    }
  }

  lemma {:induction false} RoundEventsLength(rounds: seq<Round>)
    ensures |RoundEvents(rounds)| == 2 * |Executed(rounds)|
  {
    if rounds != [] {
      RoundEventsLength(rounds[..|rounds| - 1]);
      ExecEventsAt(rounds[|rounds| - 1].execs, |rounds| - 1, 0);
    }
  }

  lemma {:induction false} RoundEventsAt(rounds: seq<Round>, i: nat, k: nat)
    requires i < |rounds| && k < |rounds[i].execs|
    ensures var n, e := Earlier(rounds, i) + k, rounds[i].execs[k];
            && 2 * n + 1 < |RoundEvents(rounds)|
            && RoundEvents(rounds)[2 * n] == ToolCalled(e.call.tool, i)
            && RoundEvents(rounds)[2 * n + 1] == ToolCompleted(e.call.tool, e.result.success)
  {
    var front := rounds[..|rounds| - 1];
    EarlierInFront(rounds, i);
    RoundEventsLength(front);
    if i < |rounds| - 1 {
      RoundEventsAt(front, i, k);
    } else {
      ExecEventsAt(rounds[i].execs, i, k);
    }
  }

  lemma {:induction false} SaidLength(rounds: seq<Round>)
    ensures |Said(rounds)| == |Executed(rounds)| + |rounds|
  {
    if rounds != [] {
      SaidLength(rounds[..|rounds| - 1]);
    }
  }

  lemma {:induction false} SaidAt(rounds: seq<Round>, i: nat)
    requires i < |rounds|
    ensures Earlier(rounds, i) + i + |rounds[i].execs| < |Said(rounds)|
    ensures Said(rounds)[Earlier(rounds, i) + i] == Assistant(rounds[i].content, CallsOf(rounds[i].execs))
    ensures forall k | 0 <= k < |rounds[i].execs| ::
              var e := rounds[i].execs[k];
              Said(rounds)[Earlier(rounds, i) + i + 1 + k] == ToolReply(e.call.id, e.call.tool, e.result)
  {
    var front := rounds[..|rounds| - 1];
    EarlierInFront(rounds, i);
    SaidLength(front);
    if i < |rounds| - 1 {
      SaidAt(front, i);
    }
  }

  /** Call `k` of round `i` is in every log at its place with its own content: the n-th pair
      of the trace with the round's number and the outcome, the n-th tool row with arguments
      and result, the n-th message row with identifier and result, and the message after its
      round's question. */
  lemma LogsTellEachCall(rounds: seq<Round>, ending: Ending, i: nat, k: nat)
    requires i < |rounds| && k < |rounds[i].execs|
    ensures var n, e := Earlier(rounds, i) + k, rounds[i].execs[k];
            var trace, rows, messageRows, said :=
              FullTrace(rounds, ending), RowsOf(Executed(rounds)), MessageRowsOf(Executed(rounds)), Said(rounds);
            && 2 * n + 2 < |trace| && trace[2 * n + 1] == ToolCalled(e.call.tool, i)
            && trace[2 * n + 2] == ToolCompleted(e.call.tool, e.result.success)
            && n < |rows| == |messageRows| && rows[n] == AgentToolCall(e.call.tool, e.call.arguments, e.result)
            && messageRows[n] == ToolRow(e.call.id, e.call.tool, e.result)
            && n + i + 1 < |said| && said[n + i + 1] == ToolReply(e.call.id, e.call.tool, e.result)
            && said[n + i - k].Assistant? && said[n + i - k].content == rounds[i].content
            && |said[n + i - k].calls| == |rounds[i].execs| && said[n + i - k].calls[k] == e.call
  {
    ExecutedAt(rounds, i, k);
    RoundEventsAt(rounds, i, k);
    SaidAt(rounds, i);
    hide RoundEvents, Executed, Said, FirstSuccesses;
  }

  /** The trace opens with the request, and closes with the event of the ending, which names
      the round it came in, and the report of the tools used, the calls and the outcome. */
  lemma TraceEnds(rounds: seq<Round>, ending: Ending)
    ensures var trace, n := FullTrace(rounds, ending), 2 * |Executed(rounds)|;
            && |trace| == n + 3 && trace[0] == RequestReceived
            && (match ending
                case Answered(_) => trace[n + 1] == FinalResponse(|rounds|)
                case ModelFailed => trace[n + 1] == LlmError
                case Exhausted => trace[n + 1] == MaxIterationsReached)
            && trace[n + 2] == RecommendationGenerated(FirstSuccesses(Executed(rounds)), |Executed(rounds)|,
                                                       if ending.Answered? then Succeeded
                                                       else if ending.ModelFailed? then Errored else OutOfIterations)
  {
    RoundEventsLength(rounds);
  }

  // ----- the conversation -----

  /** The tool calls still to be answered after these messages; none when a message comes
      out of turn. */
  function Owed(said: seq<Message>): Option<seq<ToolCall>> {
    if said == [] then Some([])
    else
      var before := Owed(said[..|said| - 1]);
      match said[|said| - 1]
      case ToolReply(id, tool, _) =>
        if before.Some? && before.value != [] && before.value[0].id == id && before.value[0].tool == tool
        then Some(before.value[1..]) else None
      case Assistant(_, calls) => if before == Some([]) then Some(calls) else None
      case _ => if before == Some([]) then Some([]) else None
  }

  lemma {:induction false} RepliesPayOff(said: seq<Message>, execs: seq<Exec>, k: nat)
    requires k <= |execs| && Owed(said) == Some(CallsOf(execs))
    ensures Owed(said + RepliesOf(execs[..k])) == Some(CallsOf(execs)[k..])
  {
    if k == 0 {
      assert said + RepliesOf(execs[..0]) == said;
    } else {
      RepliesPayOff(said, execs, k - 1);
      var all := said + RepliesOf(execs[..k]);
      assert all[..|all| - 1] == said + RepliesOf(execs[..k - 1]);
      assert CallsOf(execs)[k - 1..][1..] == CallsOf(execs)[k..];
    }
  }

  lemma RoundPaysOff(said: seq<Message>, round: Round)
    requires Owed(said) == Some([])
    ensures Owed(said + RoundSaid(round)) == Some([])
  {
    var asked := said + [Assistant(round.content, CallsOf(round.execs))];
    assert asked[..|asked| - 1] == said;
    RepliesPayOff(asked, round.execs, |round.execs|);
    assert round.execs[..|round.execs|] == round.execs;
    assert CallsOf(round.execs)[|round.execs|..] == [];
    hide Owed, CallsOf, RepliesOf;
    assert said + RoundSaid(round) == asked + RepliesOf(round.execs);
  }

  /** In the messages a run adds, each assistant message with tool calls is followed by
      exactly its results, in order, before anything else is said. */
  lemma {:induction false} EveryCallIsAnswered(rounds: seq<Round>)
    ensures Owed(Said(rounds)) == Some([])
  {
    hide RoundSaid;
    if rounds != [] {
      EveryCallIsAnswered(rounds[..|rounds| - 1]);
      RoundPaysOff(Said(rounds[..|rounds| - 1]), rounds[|rounds| - 1]);
    }
  }

  // ----- the tools used -----

  predicate SucceedsAt(execs: seq<Exec>, tool: nat, i: nat) {
    i < |execs| && execs[i].result.success && execs[i].call.tool == tool
  }

  predicate FirstSucceedsAt(execs: seq<Exec>, tool: nat, i: nat) {
    SucceedsAt(execs, tool, i) && forall j: nat | j < i :: !SucceedsAt(execs, tool, j)
  }

  /** A tool is listed exactly when it succeeded, once, and in the order of first successes. */
  lemma {:induction false} ToolsUsedAreFirstSuccesses(execs: seq<Exec>)
    ensures forall tool :: tool in FirstSuccesses(execs) <==> exists i: nat :: SucceedsAt(execs, tool, i)
    ensures forall a, b | 0 <= a < b < |FirstSuccesses(execs)| :: FirstSuccesses(execs)[a] != FirstSuccesses(execs)[b]
    ensures forall a, b, i: nat, j: nat | 0 <= a < b < |FirstSuccesses(execs)|
              && FirstSucceedsAt(execs, FirstSuccesses(execs)[a], i) && FirstSucceedsAt(execs, FirstSuccesses(execs)[b], j) :: i < j
  {
    if execs != [] {
      var n := |execs| - 1;
      var front := execs[..n];
      ToolsUsedAreFirstSuccesses(front);
      assert forall tool, i: nat | i < n :: SucceedsAt(execs, tool, i) <==> SucceedsAt(front, tool, i);
      forall tool
        ensures tool in FirstSuccesses(execs) <==> exists i: nat :: SucceedsAt(execs, tool, i)
      {
        if tool in FirstSuccesses(front) {
          var i: nat :| SucceedsAt(front, tool, i);
          assert SucceedsAt(execs, tool, i);
        } else if i: nat :| SucceedsAt(execs, tool, i) {
          assert i < n ==> SucceedsAt(front, tool, i);
        } else {
          assert !SucceedsAt(execs, tool, n);
        }
      }
      forall a, b, i: nat, j: nat | 0 <= a < b < |FirstSuccesses(execs)|
          && FirstSucceedsAt(execs, FirstSuccesses(execs)[a], i) && FirstSucceedsAt(execs, FirstSuccesses(execs)[b], j)
        ensures i < j
      {
        FirstSuccessBefore(execs, n, FirstSuccesses(execs)[a], i);
        FirstSuccessBefore(execs, n, FirstSuccesses(execs)[b], j);
      }
    }
  }

  lemma FirstSuccessBefore(execs: seq<Exec>, n: nat, tool: nat, i: nat)
    requires n + 1 == |execs| && FirstSucceedsAt(execs, tool, i)
    ensures (exists k: nat :: SucceedsAt(execs[..n], tool, k)) <==> i < n
    ensures i < n ==> FirstSucceedsAt(execs[..n], tool, i)
  {
    assert forall j: nat | j < n :: SucceedsAt(execs, tool, j) <==> SucceedsAt(execs[..n], tool, j);
    if i < n {
      assert SucceedsAt(execs[..n], tool, i);
    }
  }
}
