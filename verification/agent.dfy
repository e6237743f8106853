/**
 * One turn of the agent (`Agent.run`): the user's question is appended to
 * the conversation, then the chat model is asked up to ten times. A reply
 * without tool calls is the answer; a reply with tool calls has each call
 * dispatched in order, its result appended as a tool message, and the model
 * is asked again. The chat model and the JSON decoder are parameters; the
 * callback notifications, model calls and history appends are recorded, in
 * the order they happen, as a trace of effects.
 */
module Agent {
  import opened Prelude
  import Tools
  import Tracker

  const MaxSteps: nat := 10
  const MaxStepsExceeded: string := "Error: Maximum steps exceeded."
  const AgentErrorPrefix: string := "Error during agent execution: "

  // ---------------------------------------------------------------------------
  // Conversation
  // ---------------------------------------------------------------------------

  /** A tool call requested by the model; `arguments` is its JSON text. */
  datatype ToolCall = ToolCall(id: string, name: string, arguments: string)

  /** What a call of the chat model yields: a message, or the error it raised. */
  datatype Response = Reply(content: string, toolCalls: seq<ToolCall>) | Raised(error: string)

  datatype Message =
    | SystemMsg(content: string)
    | UserMsg(content: string)
    | AssistantMsg(content: string, toolCalls: seq<ToolCall>)
    | ToolMsg(toolCallId: string, name: string, content: string)

  /** The callback notifications around a tool execution. */
  datatype Event = ToolStart(name: string, args: Tools.Args) | ToolEnd(name: string, result: string)

  /** Observable steps of a turn: asking the model, notifying the callback, appending to history. */
  datatype Effect = Ask | Emit(event: Event) | Append(message: Message)

  /** The chat model, as a function of the conversation so far. */
  type Model = seq<Message> -> Response

  /** The JSON decoder applied to tool-call arguments. */
  type Decoder = string -> Tools.Decoded

  // ---------------------------------------------------------------------------
  // Reading a trace
  // ---------------------------------------------------------------------------

  /** The messages a trace appends, in order. */
  function Appended(effects: seq<Effect>): (r: seq<Message>)
    ensures |r| <= |effects|
    decreases |effects|
  {
    if |effects| == 0 then []
    else (if effects[0].Append? then [effects[0].message] else []) + Appended(effects[1..])
  }

  /** How many times a trace asks the model. */
  function AskCount(effects: seq<Effect>): (n: nat)
    ensures n <= |effects|
    decreases |effects|
  {
    if |effects| == 0 then 0
    else (if effects[0].Ask? then 1 else 0) + AskCount(effects[1..])
  }

  /** The callback notifications of a trace, in order. */
  function Events(effects: seq<Effect>): (r: seq<Event>)
    ensures |r| <= |effects|
    decreases |effects|
  {
    if |effects| == 0 then []
    else (if effects[0].Emit? then [effects[0].event] else []) + Events(effects[1..])
  }

  /** The contents of the messages answering a retrieval or web search call, in order. */
  function ContextsOf(messages: seq<Message>): (r: seq<string>)
    ensures |r| <= |messages|
    decreases |messages|
  {
    if |messages| == 0 then []
    else
      var m := messages[0];
      (if m.ToolMsg? && Tools.IsContextTool(m.name) then [m.content] else []) + ContextsOf(messages[1..])
  }

  lemma {:induction false} AppendedConcat(a: seq<Effect>, b: seq<Effect>)
    ensures Appended(a + b) == Appended(a) + Appended(b)
    decreases |a|
  {
    if |a| > 0 {
      assert (a + b)[1..] == a[1..] + b;
      AppendedConcat(a[1..], b);
    } else {
      assert a + b == b;
    }
  }

  lemma {:induction false} AskCountConcat(a: seq<Effect>, b: seq<Effect>)
    ensures AskCount(a + b) == AskCount(a) + AskCount(b)
    decreases |a|
  {
    if |a| > 0 {
      assert (a + b)[1..] == a[1..] + b;
      AskCountConcat(a[1..], b);
    } else {
      assert a + b == b;
    }
  }

  lemma {:induction false} EventsConcat(a: seq<Effect>, b: seq<Effect>)
    ensures Events(a + b) == Events(a) + Events(b)
    decreases |a|
  {
    if |a| > 0 {
      assert (a + b)[1..] == a[1..] + b;
      EventsConcat(a[1..], b);
    } else {
      assert a + b == b;
    }
  }

  lemma {:induction false} ContextsOfConcat(a: seq<Message>, b: seq<Message>)
    ensures ContextsOf(a + b) == ContextsOf(a) + ContextsOf(b)
    decreases |a|
  {
    if |a| > 0 {
      assert (a + b)[1..] == a[1..] + b;
      ContextsOfConcat(a[1..], b);
    } else {
      assert a + b == b;
    }
  }

  // ---------------------------------------------------------------------------
  // Tool calls
  // ---------------------------------------------------------------------------

  /** The arguments a call is executed with: undecodable JSON becomes the empty object. */
  function CallArgs(decode: Decoder, c: ToolCall): Tools.Args {
    Tools.ArgsOf(decode(c.arguments))
  }

  /** The answer of a call's tool (it does not depend on the files present). */
  function CallResult(env: Tools.Env, decode: Decoder, c: ToolCall): string {
    Tools.Dispatch(env, map[], c.name, CallArgs(decode, c)).result
  }

  /** The tool message that answers a call. */
  function Answer(env: Tools.Env, decode: Decoder, c: ToolCall): Message {
    ToolMsg(c.id, c.name, CallResult(env, decode, c))
  }

  /** What one call does, in order: notify start, notify end, append the tool message. */
  function CallEffects(env: Tools.Env, decode: Decoder, c: ToolCall): seq<Effect> {
    [ Emit(ToolStart(c.name, CallArgs(decode, c))),
      Emit(ToolEnd(c.name, CallResult(env, decode, c))),
      Append(Answer(env, decode, c)) ]
  }

  /** What a list of calls does: the calls' effects one after another. */
  function CallsEffects(env: Tools.Env, decode: Decoder, calls: seq<ToolCall>): (r: seq<Effect>)
    decreases |calls|
  {
    if |calls| == 0 then [] else CallEffects(env, decode, calls[0]) + CallsEffects(env, decode, calls[1..])
  }

  /**
   * Call `k`'s three effects occupy positions `3k` to `3k + 2`: no call's
   * effects interleave with another's, and calls run in request order.
   */
  lemma {:induction false} CallsEffectsAt(env: Tools.Env, decode: Decoder, calls: seq<ToolCall>, k: nat)
    requires k < |calls|
    ensures |CallsEffects(env, decode, calls)| == 3 * |calls|
    ensures CallsEffects(env, decode, calls)[3 * k .. 3 * k + 3] == CallEffects(env, decode, calls[k])
    decreases |calls|
  {
    var head := CallEffects(env, decode, calls[0]);
    var r := CallsEffects(env, decode, calls);
    if |calls| == 1 {
      assert |calls[1..]| == 0;
      assert CallsEffects(env, decode, calls[1..]) == [];
      assert r == head;
    } else {
      var rest := CallsEffects(env, decode, calls[1..]);
      assert r == head + rest;
      if k > 0 {
        CallsEffectsAt(env, decode, calls[1..], k - 1);
        assert calls[1..][k - 1] == calls[k];
        assert r[3 * k .. 3 * k + 3] == rest[3 * (k - 1) .. 3 * (k - 1) + 3];
      } else {
        CallsEffectsAt(env, decode, calls[1..], 0);
      }
    }
  }

  /** The files after a list of calls, each executed on the files the previous one left. */
  function CallsFs(env: Tools.Env, decode: Decoder, fs: Tools.FileSystem, calls: seq<ToolCall>): Tools.FileSystem
    decreases |calls|
  {
    if |calls| == 0 then fs
    else CallsFs(env, decode, Tools.Dispatch(env, fs, calls[0].name, CallArgs(decode, calls[0])).fs, calls[1..])
  }

  /** The state a turn evolves: history, context accumulator, trace of effects, files. */
  datatype Session = Session(history: seq<Message>, contexts: seq<string>, trace: seq<Effect>, fs: Tools.FileSystem)

  /** The effects of a trace segment are what it appends to history and to the contexts. */
  predicate Extends(s: Session, r: Session, effects: seq<Effect>) {
    && r.trace == s.trace + effects
    && r.history == s.history + Appended(effects)
    && r.contexts == s.contexts + ContextsOf(Appended(effects))
  }

  /** Effects that follow one another extend the state by their concatenation. */
  lemma ExtendsTrans(s: Session, m: Session, r: Session, e1: seq<Effect>, e2: seq<Effect>)
    requires Extends(s, m, e1) && Extends(m, r, e2)
    ensures Extends(s, r, e1 + e2)
  {
    AppendedConcat(e1, e2);
    ContextsOfConcat(Appended(e1), Appended(e2));
  }

  /** A call appends exactly its tool message. */
  lemma AppendedOfCall(env: Tools.Env, decode: Decoder, c: ToolCall)
    ensures Appended(CallEffects(env, decode, c)) == [Answer(env, decode, c)]
  {
    var e := CallEffects(env, decode, c);
    assert e[1..][1..][1..] == [];
    assert Appended(e[1..][1..]) == [Answer(env, decode, c)];
  }

  /** Executes one tool call (one pass of the inner loop of `Agent.run`). */
  function RunCall(env: Tools.Env, decode: Decoder, c: ToolCall, s: Session): (r: Session)
    ensures Extends(s, r, CallEffects(env, decode, c))
    ensures r.fs == Tools.Dispatch(env, s.fs, c.name, CallArgs(decode, c)).fs
  {
    var args := CallArgs(decode, c);
    var exec := Tools.Dispatch(env, s.fs, c.name, args);
    Tools.DispatchResultIgnoresFiles(env, s.fs, c.name, args);
    var contexts := if Tools.IsContextTool(c.name) then s.contexts + [exec.result] else s.contexts;
    var message := ToolMsg(c.id, c.name, exec.result);
    var r := Session(s.history + [message], contexts,
                     s.trace + [Emit(ToolStart(c.name, args)), Emit(ToolEnd(c.name, exec.result)), Append(message)],
                     exec.fs);
    AppendedOfCall(env, decode, c);
    assert ContextsOf([message]) == (if Tools.IsContextTool(c.name) then [exec.result] else []) + ContextsOf([]);
    r
  }

  /** Executes a model reply's tool calls in order. */
  function RunCalls(env: Tools.Env, decode: Decoder, calls: seq<ToolCall>, s: Session): (r: Session)
    ensures Extends(s, r, CallsEffects(env, decode, calls))
    ensures r.fs == CallsFs(env, decode, s.fs, calls)
    decreases |calls|
  {
    if |calls| == 0 then
      s
    else
      var s1 := RunCall(env, decode, calls[0], s);
      var r := RunCalls(env, decode, calls[1..], s1);
      ExtendsTrans(s, s1, r, CallEffects(env, decode, calls[0]), CallsEffects(env, decode, calls[1..]));
      r
  }

  // ---------------------------------------------------------------------------
  // The step loop
  // ---------------------------------------------------------------------------

  /** A model reply that requested tools. */
  datatype Round = Round(content: string, calls: seq<ToolCall>)

  /** A round's effects: ask, append the assistant message, run each call. */
  function RoundEffects(env: Tools.Env, decode: Decoder, round: Round): seq<Effect> {
    [Ask, Append(AssistantMsg(round.content, round.calls))] + CallsEffects(env, decode, round.calls)
  }

  /** The rounds' effects one after another. */
  function RoundsEffects(env: Tools.Env, decode: Decoder, rounds: seq<Round>): seq<Effect>
    decreases |rounds|
  {
    if |rounds| == 0 then [] else RoundEffects(env, decode, rounds[0]) + RoundsEffects(env, decode, rounds[1..])
  }

  /** The files after the rounds' calls. */
  function RoundsFs(env: Tools.Env, decode: Decoder, fs: Tools.FileSystem, rounds: seq<Round>): Tools.FileSystem
    decreases |rounds|
  {
    if |rounds| == 0 then fs else RoundsFs(env, decode, CallsFs(env, decode, fs, rounds[0].calls), rounds[1..])
  }

  /** How the step loop ends. */
  datatype Ending = Answered(answer: string) | Aborted(error: string) | Exhausted

  /** The effects of the loop's last step. */
  function EndingEffects(ending: Ending): seq<Effect> {
    match ending
    case Answered(c) => [Ask, Append(AssistantMsg(c, []))]
    case Aborted(_) => [Ask]
    case Exhausted => []
  }

  datatype LoopResult = LoopResult(ending: Ending, rounds: seq<Round>, session: Session)

  /** The history the model sees when asked after the first `k` rounds. */
  function HistoryAfter(env: Tools.Env, decode: Decoder, history: seq<Message>, rounds: seq<Round>, k: nat): seq<Message>
    requires k <= |rounds|
  {
    history + Appended(RoundsEffects(env, decode, rounds[..k]))
  }

  lemma RoundsEffectsCons(env: Tools.Env, decode: Decoder, first: Round, rounds: seq<Round>, k: nat)
    requires k <= |rounds|
    ensures RoundsEffects(env, decode, ([first] + rounds)[..k + 1])
            == RoundEffects(env, decode, first) + RoundsEffects(env, decode, rounds[..k])
  {
    var all := [first] + rounds;
    assert all[..k + 1][0] == first;
    assert all[..k + 1][1..] == rounds[..k];
  }

  /**
   * The step loop with `fuel` model calls left. It returns how it ended, the
   * tool-calling replies it went through, and the final state.
   */
  function Loop(env: Tools.Env, llm: Model, decode: Decoder, s: Session, fuel: nat): (r: LoopResult)
    ensures |r.rounds| <= fuel
    ensures r.ending.Exhausted? <==> |r.rounds| == fuel
    ensures forall k :: 0 <= k < |r.rounds| ==> r.rounds[k].calls != []
    ensures forall k :: 0 <= k < |r.rounds| ==>
              llm(HistoryAfter(env, decode, s.history, r.rounds, k)) == Reply(r.rounds[k].content, r.rounds[k].calls)
    ensures var h := HistoryAfter(env, decode, s.history, r.rounds, |r.rounds|);
            && (r.ending.Answered? ==> llm(h) == Reply(r.ending.answer, []))
            && (r.ending.Aborted? ==> llm(h) == Raised(r.ending.error))
    ensures Extends(s, r.session, RoundsEffects(env, decode, r.rounds) + EndingEffects(r.ending))
    ensures r.session.fs == RoundsFs(env, decode, s.fs, r.rounds)
    decreases fuel
  {
    if fuel == 0 then
      LoopResult(Exhausted, [], Finish(s, Exhausted))
    else
      assert HistoryAfter(env, decode, s.history, [], 0) == s.history;
      match llm(s.history)
      case Raised(e) =>
        LoopResult(Aborted(e), [], Finish(s, Aborted(e)))
      case Reply(content, calls) =>
        if calls == [] then
          LoopResult(Answered(content), [], Finish(s, Answered(content)))
        else
          var round := Round(content, calls);
          var asked := AskAndAppend(s, AssistantMsg(content, calls));
          var s1 := RunCalls(env, decode, calls, asked);
          ExtendsTrans(s, asked, s1, [Ask, Append(AssistantMsg(content, calls))], CallsEffects(env, decode, calls));
          var rest := Loop(env, llm, decode, s1, fuel - 1);
          LoopStep(env, llm, decode, s, round, s1, rest);
          RoundsFsUnfold(env, decode, s.fs, round, rest.rounds);
          LoopResult(rest.ending, [round] + rest.rounds, rest.session)
  }

  /** The state after the loop's last step. */
  function Finish(s: Session, ending: Ending): (r: Session)
    ensures Extends(s, r, EndingEffects(ending))
    ensures r.fs == s.fs
  {
    match ending
    case Answered(c) =>
      var message := AssistantMsg(c, []);
      assert Appended([Append(message)]) == [message] + Appended([]);
      assert Appended([Ask, Append(message)]) == Appended([Append(message)]);
      assert ContextsOf([message]) == ContextsOf([]);
      s.(history := s.history + [message], trace := s.trace + [Ask, Append(message)])
    case Aborted(_) =>
      assert Appended([Ask]) == Appended([]);
      s.(trace := s.trace + [Ask])
    case Exhausted =>
      s
  }

  /** Asking the model and appending its reply to the history. */
  function AskAndAppend(s: Session, message: Message): (r: Session)
    requires message.AssistantMsg?
    ensures Extends(s, r, [Ask, Append(message)])
    ensures r.fs == s.fs
  {
    assert Appended([Append(message)]) == [message] + Appended([]);
    assert Appended([Ask, Append(message)]) == Appended([Append(message)]);
    assert ContextsOf([message]) == ContextsOf([]);
    s.(history := s.history + [message], trace := s.trace + [Ask, Append(message)])
  }

  /** The files after a leading round followed by further rounds. */
  lemma RoundsFsUnfold(env: Tools.Env, decode: Decoder, fs: Tools.FileSystem, round: Round, rounds: seq<Round>)
    ensures RoundsFs(env, decode, fs, [round] + rounds) == RoundsFs(env, decode, CallsFs(env, decode, fs, round.calls), rounds)
  {
    assert ([round] + rounds)[1..] == rounds;
  }

  /** After one more leading round, the histories the model sees shift by one. */
  lemma HistoryShift(env: Tools.Env, decode: Decoder, history: seq<Message>, round: Round, rounds: seq<Round>, k: nat)
    requires k <= |rounds|
    ensures HistoryAfter(env, decode, history, [round] + rounds, k + 1)
            == HistoryAfter(env, decode, history + Appended(RoundEffects(env, decode, round)), rounds, k)
  {
    var head := RoundEffects(env, decode, round);
    RoundsEffectsCons(env, decode, round, rounds, k);
    AppendedConcat(head, RoundsEffects(env, decode, rounds[..k]));
  }

  /** The effects of a leading round followed by the rest of the loop. */
  lemma RoundsEffectsUnfold(env: Tools.Env, decode: Decoder, round: Round, rounds: seq<Round>, ending: Ending)
    ensures RoundsEffects(env, decode, [round] + rounds) + EndingEffects(ending)
            == RoundEffects(env, decode, round) + (RoundsEffects(env, decode, rounds) + EndingEffects(ending))
  {
    assert ([round] + rounds)[1..] == rounds;
  }

  /** The inductive step of `Loop`'s contract: one round followed by the rest of the loop. */
  lemma LoopStep(env: Tools.Env, llm: Model, decode: Decoder, s: Session, round: Round, s1: Session, rest: LoopResult)
    requires llm(s.history) == Reply(round.content, round.calls)
    requires Extends(s, s1, RoundEffects(env, decode, round))
    requires forall k :: 0 <= k < |rest.rounds| ==>
               llm(HistoryAfter(env, decode, s1.history, rest.rounds, k)) == Reply(rest.rounds[k].content, rest.rounds[k].calls)
    requires var h := HistoryAfter(env, decode, s1.history, rest.rounds, |rest.rounds|);
             && (rest.ending.Answered? ==> llm(h) == Reply(rest.ending.answer, []))
             && (rest.ending.Aborted? ==> llm(h) == Raised(rest.ending.error))
    requires Extends(s1, rest.session, RoundsEffects(env, decode, rest.rounds) + EndingEffects(rest.ending))
    ensures var rounds := [round] + rest.rounds;
            && (forall k :: 0 <= k < |rounds| ==>
                  llm(HistoryAfter(env, decode, s.history, rounds, k)) == Reply(rounds[k].content, rounds[k].calls))
            && (var h := HistoryAfter(env, decode, s.history, rounds, |rounds|);
                && (rest.ending.Answered? ==> llm(h) == Reply(rest.ending.answer, []))
                && (rest.ending.Aborted? ==> llm(h) == Raised(rest.ending.error)))
            && Extends(s, rest.session, RoundsEffects(env, decode, rounds) + EndingEffects(rest.ending))
  {
    var rounds := [round] + rest.rounds;
    forall k | 0 <= k < |rounds|
      ensures llm(HistoryAfter(env, decode, s.history, rounds, k)) == Reply(rounds[k].content, rounds[k].calls)
    {
      if k == 0 {
        assert rounds[..0] == [];
        assert HistoryAfter(env, decode, s.history, rounds, 0) == s.history;
      } else {
        HistoryShift(env, decode, s.history, round, rest.rounds, k - 1);
        assert rounds[k] == rest.rounds[k - 1];
      }
    }
    HistoryShift(env, decode, s.history, round, rest.rounds, |rest.rounds|);
    RoundsEffectsUnfold(env, decode, round, rest.rounds, rest.ending);
    ExtendsTrans(s, s1, rest.session, RoundEffects(env, decode, round),
                 RoundsEffects(env, decode, rest.rounds) + EndingEffects(rest.ending));
  }

  // ---------------------------------------------------------------------------
  // A turn
  // ---------------------------------------------------------------------------

  /** The agent's state between turns. */
  datatype AgentState = AgentState(history: seq<Message>, contexts: seq<string>, fs: Tools.FileSystem, log: Tracker.Log)

  /**
   * `Agent(system_prompt)`: the conversation starts with the system prompt,
   * or with `defaultPrompt` when none (or an empty one) is given.
   */
  function NewAgent(systemPrompt: Option<string>, defaultPrompt: string, fs: Tools.FileSystem, log: Tracker.Log): (a: AgentState)
    ensures |a.history| == 1 && a.history[0].SystemMsg?
    ensures systemPrompt.Some? && systemPrompt.value != "" ==> a.history[0].content == systemPrompt.value
    ensures systemPrompt.None? || systemPrompt.value == "" ==> a.history[0].content == defaultPrompt
    ensures a.contexts == [] && a.fs == fs && a.log == log
  {
    var prompt := if systemPrompt.Some? && systemPrompt.value != "" then systemPrompt.value else defaultPrompt;
    AgentState([SystemMsg(prompt)], [], fs, log)
  }

  /** Appending the user's question, which opens a turn. */
  function Begin(s: Session, query: string): (r: Session)
    ensures Extends(s, r, [Append(UserMsg(query))])
    ensures r.fs == s.fs
  {
    var message := UserMsg(query);
    assert Appended([Append(message)]) == [message] + Appended([]);
    assert ContextsOf([message]) == ContextsOf([]);
    s.(history := s.history + [message], trace := s.trace + [Append(message)])
  }

  /** What the turn returns to the caller for each way the loop can end. */
  function AnswerOf(ending: Ending): (r: string)
    ensures ending.Answered? ==> r == ending.answer
    ensures ending.Aborted? ==> r == AgentErrorPrefix + ending.error
    ensures ending.Exhausted? ==> r == MaxStepsExceeded
  {
    match ending
    case Answered(c) => c
    case Aborted(e) => AgentErrorPrefix + e
    case Exhausted => MaxStepsExceeded
  }

  datatype TurnResult = TurnResult(answer: string, state: AgentState, trace: seq<Effect>, rounds: seq<Round>, ending: Ending)

  /**
   * `Agent.run(user_query)`: `timestamp` and `logFault` stand for the clock
   * reading and the outcome of the tracker's write.
   */
  function Run(env: Tools.Env, llm: Model, decode: Decoder, a: AgentState, query: string,
               timestamp: string, logFault: Option<string>): (r: TurnResult)
    ensures r.answer == AnswerOf(r.ending)
    ensures r.trace == [Append(UserMsg(query))] + RoundsEffects(env, decode, r.rounds) + EndingEffects(r.ending)
    ensures r.state.history == a.history + Appended(r.trace)
    ensures r.state.contexts == ContextsOf(Appended(r.trace))
    ensures r.state.fs == RoundsFs(env, decode, a.fs, r.rounds)
    ensures |r.rounds| <= MaxSteps
    ensures r.ending.Exhausted? <==> |r.rounds| == MaxSteps
    ensures forall k :: 0 <= k < |r.rounds| ==> r.rounds[k].calls != []
    ensures forall k :: 0 <= k < |r.rounds| ==>
              llm(HistoryAfter(env, decode, a.history + [UserMsg(query)], r.rounds, k)) == Reply(r.rounds[k].content, r.rounds[k].calls)
    ensures var h := HistoryAfter(env, decode, a.history + [UserMsg(query)], r.rounds, |r.rounds|);
            && (r.ending.Answered? ==> llm(h) == Reply(r.ending.answer, []))
            && (r.ending.Aborted? ==> llm(h) == Raised(r.ending.error))
    ensures r.ending.Answered? ==>
              r.state.log == Tracker.LogTurn(a.log, query, r.ending.answer, r.state.contexts, timestamp, logFault)
    ensures !r.ending.Answered? ==> r.state.log == a.log
  {
    var s0 := Session(a.history, [], [], a.fs);
    var start := Begin(s0, query);
    var loop := Loop(env, llm, decode, start, MaxSteps);
    var s := loop.session;
    var effects := RoundsEffects(env, decode, loop.rounds) + EndingEffects(loop.ending);
    ExtendsTrans(s0, start, s, [Append(UserMsg(query))], effects);
    var trace := [Append(UserMsg(query))] + effects;
    var log := if loop.ending.Answered? then Tracker.LogTurn(a.log, query, loop.ending.answer, s.contexts, timestamp, logFault)
               else a.log;
    TurnResult(AnswerOf(loop.ending), AgentState(s.history, s.contexts, s.fs, log), trace, loop.rounds, loop.ending)
  }

  // ---------------------------------------------------------------------------
  // Properties of a turn
  // ---------------------------------------------------------------------------

  lemma {:induction false} CallsAskNothing(env: Tools.Env, decode: Decoder, calls: seq<ToolCall>)
    ensures AskCount(CallsEffects(env, decode, calls)) == 0
    decreases |calls|
  {
    if |calls| > 0 {
      var head := CallEffects(env, decode, calls[0]);
      CallsAskNothing(env, decode, calls[1..]);
      AskCountConcat(head, CallsEffects(env, decode, calls[1..]));
      assert AskCount(head) == AskCount(head[1..]);
    }
  }

  /** Each round asks the model exactly once. */
  lemma {:induction false} RoundsAskOnce(env: Tools.Env, decode: Decoder, rounds: seq<Round>)
    ensures AskCount(RoundsEffects(env, decode, rounds)) == |rounds|
    decreases |rounds|
  {
    if |rounds| > 0 {
      var round := rounds[0];
      var calls := CallsEffects(env, decode, round.calls);
      RoundsAskOnce(env, decode, rounds[1..]);
      CallsAskNothing(env, decode, round.calls);
      AskCountConcat([Ask, Append(AssistantMsg(round.content, round.calls))], calls);
      AskCountConcat(RoundEffects(env, decode, round), RoundsEffects(env, decode, rounds[1..]));
      assert AskCount([Ask, Append(AssistantMsg(round.content, round.calls))]) == 1 + AskCount([Append(AssistantMsg(round.content, round.calls))]);
    }
  }

  /**
   * A turn asks the model once per round plus once for the reply that ended
   * it, and never more than ten times.
   */
  lemma AskCountOfTurn(env: Tools.Env, llm: Model, decode: Decoder, a: AgentState, query: string,
                       timestamp: string, logFault: Option<string>)
    ensures var r := Run(env, llm, decode, a, query, timestamp, logFault);
            && AskCount(r.trace) == |r.rounds| + (if r.ending.Exhausted? then 0 else 1)
            && AskCount(r.trace) <= MaxSteps
  {
    var r := Run(env, llm, decode, a, query, timestamp, logFault);
    RoundsAskOnce(env, decode, r.rounds);
    var effects := RoundsEffects(env, decode, r.rounds);
    AskCountConcat([Append(UserMsg(query))] + effects, EndingEffects(r.ending));
    AskCountConcat([Append(UserMsg(query))], effects);
    assert AskCount([Append(UserMsg(query))]) == 0;
    match r.ending
    case Answered(c) =>
      assert AskCount(EndingEffects(r.ending)) == 1 + AskCount([Append(AssistantMsg(c, []))]);
    case Aborted(_) =>
      assert AskCount(EndingEffects(r.ending)) == 1 + AskCount([]);
    case Exhausted =>
  }

  /**
   * A model that always requests tools exhausts the ten steps: the turn
   * answers "Error: Maximum steps exceeded." after ten rounds and logs nothing.
   */
  lemma AlwaysToolsExhausts(env: Tools.Env, llm: Model, decode: Decoder, a: AgentState, query: string,
                            timestamp: string, logFault: Option<string>)
    requires forall h :: llm(h).Reply? && llm(h).toolCalls != []
    ensures var r := Run(env, llm, decode, a, query, timestamp, logFault);
            && r.answer == MaxStepsExceeded
            && |r.rounds| == MaxSteps
            && r.state.log == a.log
  {
  }

  /**
   * A first reply without tool calls is the answer: the history gains the
   * question and the answer, the contexts are empty, and exactly one record
   * is logged unless the write fails.
   */
  lemma DirectAnswer(env: Tools.Env, llm: Model, decode: Decoder, a: AgentState, query: string,
                     timestamp: string, logFault: Option<string>, content: string)
    requires llm(a.history + [UserMsg(query)]) == Reply(content, [])
    ensures var r := Run(env, llm, decode, a, query, timestamp, logFault);
            && r.answer == content
            && r.state.history == a.history + [UserMsg(query), AssistantMsg(content, [])]
            && r.state.contexts == []
            && (logFault.None? ==> r.state.log == a.log + [Tracker.Entry(query, content, [], timestamp)])
            && (logFault.Some? ==> r.state.log == a.log)
  {
    var r := Run(env, llm, decode, a, query, timestamp, logFault);
    var start := Begin(Session(a.history, [], [], a.fs), query);
    var loop := Loop(env, llm, decode, start, MaxSteps);
    assert loop.rounds == [] && loop.ending == Answered(content);
    assert r.trace == [Append(UserMsg(query)), Ask, Append(AssistantMsg(content, []))];
    assert Appended(r.trace) == [UserMsg(query), AssistantMsg(content, [])] by {
      assert Appended(r.trace[2..]) == [AssistantMsg(content, [])] + Appended([]);
      assert Appended(r.trace[1..]) == Appended(r.trace[2..]);
    }
    assert ContextsOf([UserMsg(query), AssistantMsg(content, [])]) == ContextsOf([AssistantMsg(content, [])]);
    assert ContextsOf([AssistantMsg(content, [])]) == ContextsOf([]);
  }

  /**
   * When the model raises on the first ask the turn answers with the error,
   * keeps the question in the history, and logs nothing.
   */
  lemma AbortOnFirstAsk(env: Tools.Env, llm: Model, decode: Decoder, a: AgentState, query: string,
                        timestamp: string, logFault: Option<string>, error: string)
    requires llm(a.history + [UserMsg(query)]) == Raised(error)
    ensures var r := Run(env, llm, decode, a, query, timestamp, logFault);
            && r.answer == AgentErrorPrefix + error
            && r.state.history == a.history + [UserMsg(query)]
            && r.state.log == a.log
  {
    var r := Run(env, llm, decode, a, query, timestamp, logFault);
    assert r.trace == [Append(UserMsg(query)), Ask];
    assert Appended(r.trace) == [UserMsg(query)] by {
      assert Appended(r.trace[1..]) == Appended([]);
    }
  }

  /**
   * An abort at any step keeps everything appended before it and logs
   * nothing; the answer carries the model's error.
   */
  lemma AbortKeepsHistory(env: Tools.Env, llm: Model, decode: Decoder, a: AgentState, query: string,
                          timestamp: string, logFault: Option<string>)
    ensures var r := Run(env, llm, decode, a, query, timestamp, logFault);
            r.ending.Aborted? ==>
              && r.answer == AgentErrorPrefix + r.ending.error
              && r.state.history == HistoryAfter(env, decode, a.history + [UserMsg(query)], r.rounds, |r.rounds|)
              && r.state.log == a.log
  {
    var r := Run(env, llm, decode, a, query, timestamp, logFault);
    if r.ending.Aborted? {
      var effects := RoundsEffects(env, decode, r.rounds);
      assert r.trace == [Append(UserMsg(query))] + effects + [Ask];
      AppendedAbort(UserMsg(query), effects);
      assert r.rounds[..|r.rounds|] == r.rounds;
    }
  }

  lemma AppendedAbort(m: Message, effects: seq<Effect>)
    ensures Appended([Append(m)] + effects + [Ask]) == [m] + Appended(effects)
  {
    AppendedConcat([Append(m)] + effects, [Ask]);
    AppendedConcat([Append(m)], effects);
    assert Appended([Ask]) == Appended([]);
    assert Appended([Append(m)]) == [m] + Appended([]);
  }

  /**
   * A call whose arguments are not valid JSON runs with the empty argument
   * object: the start notification shows `{}`, and the tool answers as it
   * does for a call with every argument missing.
   */
  lemma MalformedArgumentsFallBack(env: Tools.Env, decode: Decoder, c: ToolCall)
    requires decode(c.arguments).DecodeError?
    ensures CallArgs(decode, c) == Tools.ArgMap(map[])
    ensures CallEffects(env, decode, c)[0] == Emit(ToolStart(c.name, Tools.ArgMap(map[])))
    ensures CallResult(env, decode, c) == Tools.Dispatch(env, map[], c.name, Tools.ArgMap(map[])).result
  {
  }

  /**
   * The messages a round's calls append are one tool message per call, in
   * call order, each carrying its call's id and name.
   */
  lemma {:induction false} AppendedCalls(env: Tools.Env, decode: Decoder, calls: seq<ToolCall>)
    ensures var m := Appended(CallsEffects(env, decode, calls));
            && |m| == |calls|
            && forall k :: 0 <= k < |calls| ==> m[k] == ToolMsg(calls[k].id, calls[k].name, CallResult(env, decode, calls[k]))
    decreases |calls|
  {
    if |calls| > 0 {
      var head := CallEffects(env, decode, calls[0]);
      AppendedCalls(env, decode, calls[1..]);
      AppendedConcat(head, CallsEffects(env, decode, calls[1..]));
      AppendedOfCall(env, decode, calls[0]);
      var m := Appended(CallsEffects(env, decode, calls));
      forall k | 0 <= k < |calls|
        ensures m[k] == ToolMsg(calls[k].id, calls[k].name, CallResult(env, decode, calls[k]))
      {
        if k > 0 {
          assert calls[1..][k - 1] == calls[k];
        }
      }
    }
  }

  /** One call notifies its start, then its end. */
  lemma EventsOfCall(env: Tools.Env, decode: Decoder, c: ToolCall)
    ensures Events(CallEffects(env, decode, c))
            == [ToolStart(c.name, CallArgs(decode, c)), ToolEnd(c.name, CallResult(env, decode, c))]
  {
    var e := CallEffects(env, decode, c);
    assert Events(e[2..]) == Events([]);
    assert Events(e[1..]) == [e[1].event] + Events(e[2..]);
  }

  /**
   * The notifications of a reply's calls come in pairs: call `k` is
   * announced with its arguments, then reported with its result.
   */
  lemma {:induction false} EventsOfCalls(env: Tools.Env, decode: Decoder, calls: seq<ToolCall>, k: nat)
    requires k < |calls|
    ensures var ev := Events(CallsEffects(env, decode, calls));
            && |ev| == 2 * |calls|
            && ev[2 * k] == ToolStart(calls[k].name, CallArgs(decode, calls[k]))
            && ev[2 * k + 1] == ToolEnd(calls[k].name, CallResult(env, decode, calls[k]))
    decreases |calls|
  {
    var c := calls[0];
    var head := CallEffects(env, decode, c);
    var tail := CallsEffects(env, decode, calls[1..]);
    EventsConcat(head, tail);
    EventsOfCall(env, decode, c);
    if |calls| == 1 {
      assert |calls[1..]| == 0;
      assert tail == [];
    } else {
      EventsOfCalls(env, decode, calls[1..], if k == 0 then 0 else k - 1);
      if k > 0 {
        assert calls[1..][k - 1] == calls[k];
      }
    }
  }

  /** The calls of one reply write no file unless one of them is a save. */
  lemma {:induction false} CallsWithoutSaveKeepFiles(env: Tools.Env, decode: Decoder, fs: Tools.FileSystem, calls: seq<ToolCall>)
    requires forall k :: 0 <= k < |calls| ==> calls[k].name != Tools.SaveName
    ensures CallsFs(env, decode, fs, calls) == fs
    decreases |calls|
  {
    if |calls| > 0 {
      CallsWithoutSaveKeepFiles(env, decode, fs, calls[1..]);
    }
  }

  /** A turn whose calls include no save leaves the files as they were. */
  lemma {:induction false} RoundsWithoutSaveKeepFiles(env: Tools.Env, decode: Decoder, fs: Tools.FileSystem, rounds: seq<Round>)
    requires forall i, k :: 0 <= i < |rounds| && 0 <= k < |rounds[i].calls| ==> rounds[i].calls[k].name != Tools.SaveName
    ensures RoundsFs(env, decode, fs, rounds) == fs
    decreases |rounds|
  {
    if |rounds| > 0 {
      CallsWithoutSaveKeepFiles(env, decode, fs, rounds[0].calls);
      RoundsWithoutSaveKeepFiles(env, decode, fs, rounds[1..]);
    }
  }

  /**
   * A worked turn: the model asks for one knowledge-base lookup, then
   * answers. The history gains the question, the tool-calling reply, the
   * tool message and the answer; the lookup's result is the only context,
   * and it is what the tracker records with the answer.
   */
  lemma RetrieveThenAnswer(env: Tools.Env, llm: Model, decode: Decoder, a: AgentState, query: string,
                           timestamp: string, c: ToolCall, search: string, thought: string, answer: string)
    requires c.name == Tools.RetrieveName
    requires decode(c.arguments) == Tools.Parsed(Tools.ArgMap(map["query" := search]))
    requires llm(a.history + [UserMsg(query)]) == Reply(thought, [c])
    requires llm(a.history + [UserMsg(query), AssistantMsg(thought, [c]), ToolMsg(c.id, c.name, Tools.Retrieve(env, search))])
             == Reply(answer, [])
    ensures var r := Run(env, llm, decode, a, query, timestamp, None);
            var found := Tools.Retrieve(env, search);
            && r.answer == answer
            && r.state.history == a.history + [UserMsg(query), AssistantMsg(thought, [c]),
                                                ToolMsg(c.id, c.name, found), AssistantMsg(answer, [])]
            && r.state.contexts == [found]
            && r.state.log == a.log + [Tracker.Entry(query, answer, [found], timestamp)]
  {
    var found := Tools.Retrieve(env, search);
    RetrieveThenAnswerLoop(env, llm, decode, a, query, c, search, thought, answer);
    RunOfLoop(env, llm, decode, a, query, timestamp, None);
  }

  /** The loop of the worked turn: one lookup round, then the answer. */
  lemma RetrieveThenAnswerLoop(env: Tools.Env, llm: Model, decode: Decoder, a: AgentState, query: string,
                               c: ToolCall, search: string, thought: string, answer: string)
    requires c.name == Tools.RetrieveName
    requires decode(c.arguments) == Tools.Parsed(Tools.ArgMap(map["query" := search]))
    requires llm(a.history + [UserMsg(query)]) == Reply(thought, [c])
    requires llm(a.history + [UserMsg(query), AssistantMsg(thought, [c]), ToolMsg(c.id, c.name, Tools.Retrieve(env, search))])
             == Reply(answer, [])
    ensures var loop := Loop(env, llm, decode, Begin(Session(a.history, [], [], a.fs), query), MaxSteps);
            var found := Tools.Retrieve(env, search);
            && loop.ending == Answered(answer)
            && loop.session.history == a.history + [UserMsg(query), AssistantMsg(thought, [c]),
                                                     ToolMsg(c.id, c.name, found), AssistantMsg(answer, [])]
            && loop.session.contexts == [found]
  {
    var start := Begin(Session(a.history, [], [], a.fs), query);
    var asked := AskAndAppend(start, AssistantMsg(thought, [c]));
    var s1 := RunCalls(env, decode, [c], asked);
    BeginFields(Session(a.history, [], [], a.fs), query);
    AskAndAppendFields(start, AssistantMsg(thought, [c]));
    RetrieveCall(env, decode, c, search, asked);
    var found := Tools.Retrieve(env, search);
    assert s1.history == a.history + [UserMsg(query), AssistantMsg(thought, [c]), ToolMsg(c.id, c.name, found)];
    assert s1.contexts == [found];
    FinishAnswered(s1, answer);
    LoopAnswers(env, llm, decode, s1, MaxSteps - 1, answer);
    LoopRound(env, llm, decode, start, MaxSteps, thought, [c]);
  }

  /** A lookup call appends its tool message and records the lookup's result as context. */
  lemma RetrieveCall(env: Tools.Env, decode: Decoder, c: ToolCall, search: string, s: Session)
    requires c.name == Tools.RetrieveName
    requires decode(c.arguments) == Tools.Parsed(Tools.ArgMap(map["query" := search]))
    ensures var r := RunCalls(env, decode, [c], s);
            var found := Tools.Retrieve(env, search);
            && r.history == s.history + [ToolMsg(c.id, c.name, found)]
            && r.contexts == s.contexts + [found]
  {
    RetrieveCallResult(env, decode, c, search);
    assert Tools.IsContextTool(c.name);
    OneContextCall(env, decode, c, s);
  }

  lemma BeginFields(s: Session, query: string)
    ensures Begin(s, query).history == s.history + [UserMsg(query)]
    ensures Begin(s, query).contexts == s.contexts
  {
  }

  lemma AskAndAppendFields(s: Session, message: Message)
    requires message.AssistantMsg?
    ensures AskAndAppend(s, message).history == s.history + [message]
    ensures AskAndAppend(s, message).contexts == s.contexts
  {
  }

  /** A reply without tool calls ends the loop at once. */
  lemma LoopAnswers(env: Tools.Env, llm: Model, decode: Decoder, s: Session, fuel: nat, answer: string)
    requires fuel > 0 && llm(s.history) == Reply(answer, [])
    ensures Loop(env, llm, decode, s, fuel) == LoopResult(Answered(answer), [], Finish(s, Answered(answer)))
  {
  }

  /** A reply with tool calls runs them and continues with one step less. */
  lemma LoopRound(env: Tools.Env, llm: Model, decode: Decoder, s: Session, fuel: nat, content: string, calls: seq<ToolCall>)
    requires fuel > 0 && llm(s.history) == Reply(content, calls) && calls != []
    ensures var rest := Loop(env, llm, decode, RunCalls(env, decode, calls, AskAndAppend(s, AssistantMsg(content, calls))), fuel - 1);
            Loop(env, llm, decode, s, fuel) == LoopResult(rest.ending, [Round(content, calls)] + rest.rounds, rest.session)
  {
  }

  /** The turn's state is the loop's final state, with the log written on an answer. */
  lemma RunOfLoop(env: Tools.Env, llm: Model, decode: Decoder, a: AgentState, query: string,
                  timestamp: string, logFault: Option<string>)
    ensures var loop := Loop(env, llm, decode, Begin(Session(a.history, [], [], a.fs), query), MaxSteps);
            var r := Run(env, llm, decode, a, query, timestamp, logFault);
            && r.ending == loop.ending
            && r.state.history == loop.session.history
            && r.state.contexts == loop.session.contexts
  {
  }

  lemma RetrieveCallResult(env: Tools.Env, decode: Decoder, c: ToolCall, search: string)
    requires c.name == Tools.RetrieveName
    requires decode(c.arguments) == Tools.Parsed(Tools.ArgMap(map["query" := search]))
    ensures CallResult(env, decode, c) == Tools.Retrieve(env, search)
  {
    assert Tools.Declared(Tools.RetrieveName) by { assert Tools.ToolsSchema[0].name == Tools.RetrieveName; }
  }

  /** A single retrieval or web search call appends its message and its one context. */
  lemma OneContextCall(env: Tools.Env, decode: Decoder, c: ToolCall, s: Session)
    requires Tools.IsContextTool(c.name)
    ensures var r := RunCalls(env, decode, [c], s);
            && r.history == s.history + [Answer(env, decode, c)]
            && r.contexts == s.contexts + [CallResult(env, decode, c)]
  {
    AppendedCalls(env, decode, [c]);
    assert ContextsOf([Answer(env, decode, c)]) == [CallResult(env, decode, c)] + ContextsOf([]);
  }

  /** The final reply adds no context. */
  lemma FinishAnswered(s: Session, answer: string)
    ensures Finish(s, Answered(answer)).contexts == s.contexts
    ensures Finish(s, Answered(answer)).history == s.history + [AssistantMsg(answer, [])]
  {
    assert ContextsOf([AssistantMsg(answer, [])]) == ContextsOf([]);
  }
}
