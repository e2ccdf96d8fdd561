/**
 * react_loop and single_query: the model is asked again and again; a reply
 * that requests tools is appended together with one tool message per call,
 * in call order, and the first reply without tool calls is appended and
 * answered. The model server is a finite script of replies.
 */
module ReactLoop {
  import opened Wrappers
  import opened ReactTools

  /** The message the model returns: its content (JSON null allowed) and the tools it asks for. */
  datatype Reply = Reply(content: Option<string>, toolCalls: seq<ToolCall>)

  /** An entry of the caller-owned `messages` list. */
  datatype Message =
    | SystemMessage(text: string)
    | UserMessage(text: string)
    | AssistantMessage(reply: Reply)
    | ToolMessage(toolCallId: string, content: string)

  /** What escapes react_loop as an exception. */
  datatype LoopError =
    | ModelFailed(reason: string)   // openai.ChatCompletion.create raised
    | ToolFailed(error: ToolError)  // decoding, lookup, binding or running a requested call raised

  /** How a run ends: with the content of the final reply, with an exception, or with the script used up. */
  datatype Outcome = Answered(content: Option<string>) | Raised(error: LoopError) | OutOfScript

  /** The tool messages of one reply's calls, and the failure that cut the round short, if any. */
  datatype Round = Round(messages: seq<Message>, error: Option<ToolError>)

  /** Everything one run appends to `messages`, how it ends, and how many replies it consumed. */
  datatype Trace = Trace(appended: seq<Message>, outcome: Outcome, modelCalls: nat)

  /** The inner `for call in msg["tool_calls"]` loop, as a value. */
  function ToolRound(calls: seq<ToolCall>, box: Toolbox): (r: Round)
    ensures |r.messages| <= |calls|
  {
    if calls == [] then Round([], None)
    else
      match ExecuteCall(calls[0], box)
      case Failure(e) => Round([], Some(e))
      case Success(out) =>
        var rest := ToolRound(calls[1..], box);
        Round([ToolMessage(calls[0].id, out)] + rest.messages, rest.error)
  }

  /**
   * A round holds one tool message per call, in call order, keyed by the
   * call's id and carrying its result, up to the first call that raised.
   */
  lemma {:induction false} ToolRoundSpec(calls: seq<ToolCall>, box: Toolbox)
    ensures var r := ToolRound(calls, box);
            && (r.error.None? ==> |r.messages| == |calls|)
            && (r.error.Some? ==> |r.messages| < |calls| && ExecuteCall(calls[|r.messages|], box) == Failure(r.error.value))
            && forall i :: 0 <= i < |r.messages| ==>
                 r.messages[i].ToolMessage? && r.messages[i].toolCallId == calls[i].id &&
                 ExecuteCall(calls[i], box) == Success(r.messages[i].content)
  {
    if calls != [] && ExecuteCall(calls[0], box).Success? {
      ToolRoundSpec(calls[1..], box);
    }
  }

  /** One iteration of the round: the call at j either raises and ends it, or adds its tool message. */
  lemma ToolRoundStep(calls: seq<ToolCall>, j: nat, box: Toolbox)
    requires j < |calls|
    ensures ExecuteCall(calls[j], box).Failure? ==>
              ToolRound(calls[j..], box) == Round([], Some(ExecuteCall(calls[j], box).error))
    ensures ExecuteCall(calls[j], box).Success? ==>
              && ToolRound(calls[j..], box).messages ==
                 [ToolMessage(calls[j].id, ExecuteCall(calls[j], box).value)] + ToolRound(calls[j + 1..], box).messages
              && ToolRound(calls[j..], box).error == ToolRound(calls[j + 1..], box).error
  {
    assert calls[j..][0] == calls[j] && calls[j..][1..] == calls[j + 1..];
  }

  /** After a call that ran, the messages produced so far grow by its tool message. */
  lemma RoundAdvances(calls: seq<ToolCall>, j: nat, box: Toolbox, done: seq<Message>)
    requires j < |calls| && ExecuteCall(calls[j], box).Success?
    requires ToolRound(calls, box).messages == done + ToolRound(calls[j..], box).messages
    requires ToolRound(calls, box).error == ToolRound(calls[j..], box).error
    ensures ToolRound(calls, box).messages ==
            (done + [ToolMessage(calls[j].id, ExecuteCall(calls[j], box).value)]) + ToolRound(calls[j + 1..], box).messages
    ensures ToolRound(calls, box).error == ToolRound(calls[j + 1..], box).error
  {
    ToolRoundStep(calls, j, box);
    var answer := ToolMessage(calls[j].id, ExecuteCall(calls[j], box).value);
    var rest := ToolRound(calls[j + 1..], box).messages;
    assert done + ([answer] + rest) == (done + [answer]) + rest;
  }

  /** A reply after which the loop asks the model again: it requests tools and all of them run. */
  predicate Continues(response: Result<Reply, string>, box: Toolbox) {
    response.Success? && response.value.toolCalls != [] && ToolRound(response.value.toolCalls, box).error.None?
  }

  /** The whole `while True` loop over a script of replies (Failure: the model call raised). */
  function Run(script: seq<Result<Reply, string>>, box: Toolbox): (t: Trace)
    ensures t.modelCalls <= |script|
    ensures script != [] ==> 1 <= t.modelCalls
    ensures t.outcome.OutOfScript? ==> t.modelCalls == |script|
    decreases |script|
  {
    if script == [] then Trace([], OutOfScript, 0)
    else
      match script[0]
      case Failure(e) => Trace([], Raised(ModelFailed(e)), 1)
      case Success(reply) =>
        if reply.toolCalls == [] then Trace([AssistantMessage(reply)], Answered(reply.content), 1)
        else
          var round := ToolRound(reply.toolCalls, box);
          var head := [AssistantMessage(reply)] + round.messages;
          if round.error.Some? then Trace(head, Raised(ToolFailed(round.error.value)), 1)
          else
            var rest := Run(script[1..], box);
            Trace(head + rest.appended, rest.outcome, rest.modelCalls + 1)
  }

  /** One iteration of the loop, read off the run that starts at reply t. */
  lemma RunStep(script: seq<Result<Reply, string>>, t: nat, box: Toolbox)
    requires t < |script|
    ensures script[t].Failure? ==> Run(script[t..], box) == Trace([], Raised(ModelFailed(script[t].error)), 1)
    ensures script[t].Success? && script[t].value.toolCalls == [] ==>
              Run(script[t..], box) == Trace([AssistantMessage(script[t].value)], Answered(script[t].value.content), 1)
    ensures script[t].Success? && script[t].value.toolCalls != [] ==>
              var round := ToolRound(script[t].value.toolCalls, box);
              if round.error.Some? then
                && Run(script[t..], box).appended == [AssistantMessage(script[t].value)] + round.messages
                && Run(script[t..], box).outcome == Raised(ToolFailed(round.error.value))
              else
                && Run(script[t..], box).appended ==
                   [AssistantMessage(script[t].value)] + round.messages + Run(script[t + 1..], box).appended
                && Run(script[t..], box).outcome == Run(script[t + 1..], box).outcome
  {
    assert script[t..][0] == script[t] && script[t..][1..] == script[t + 1..];
  }

  lemma AppendAssoc<T>(a: seq<T>, b: seq<T>, c: seq<T>)
    ensures a + (b + c) == (a + b) + c
  {
  }

  /** An iteration whose calls all ran appends the reply and its tool messages and goes round again. */
  lemma RunContinues(script: seq<Result<Reply, string>>, t: nat, box: Toolbox)
    requires t < |script| && Continues(script[t], box)
    ensures Run(script[t..], box).appended ==
            [AssistantMessage(script[t].value)] + ToolRound(script[t].value.toolCalls, box).messages + Run(script[t + 1..], box).appended
    ensures Run(script[t..], box).outcome == Run(script[t + 1..], box).outcome
  {
    assert script[t..][0] == script[t] && script[t..][1..] == script[t + 1..];
  }

  /** After a reply whose calls all ran, the rest of the run starts at the next reply. */
  lemma RunAdvances(script: seq<Result<Reply, string>>, t: nat, box: Toolbox, before: seq<Message>, ms: seq<Message>)
    requires t < |script| && Continues(script[t], box)
    requires ms == before + [AssistantMessage(script[t].value)] + ToolRound(script[t].value.toolCalls, box).messages
    ensures before + Run(script[t..], box).appended == ms + Run(script[t + 1..], box).appended
    ensures Run(script[t..], box).outcome == Run(script[t + 1..], box).outcome
  {
    RunContinues(script, t, box);
    var request := [AssistantMessage(script[t].value)];
    var answers := ToolRound(script[t].value.toolCalls, box).messages;
    var rest := Run(script[t + 1..], box).appended;
    AppendAssoc(before, request, answers);
    AppendAssoc(before, request + answers, rest);
  }

  /** The first reply without tool calls, after replies that all continue, is appended and its content answered. */
  lemma {:induction false} AnsweredAtFirstFinal(script: seq<Result<Reply, string>>, box: Toolbox, k: nat)
    requires k < |script| && script[k].Success? && script[k].value.toolCalls == []
    requires forall i :: 0 <= i < k ==> Continues(script[i], box)
    ensures Run(script, box).outcome == Answered(script[k].value.content)
    ensures Run(script, box).modelCalls == k + 1
    ensures Run(script, box).appended != [] && Run(script, box).appended[|Run(script, box).appended| - 1] == AssistantMessage(script[k].value)
  {
    if k > 0 {
      forall i | 0 <= i < k - 1 ensures Continues(script[1..][i], box) {
        assert script[1..][i] == script[i + 1];
      }
      AnsweredAtFirstFinal(script[1..], box, k - 1);
    }
  }

  /** Conversely, a run answers only at a reply without tool calls that follows replies which all continue. */
  lemma {:induction false} AnsweredOnlyAtFirstFinal(script: seq<Result<Reply, string>>, box: Toolbox)
    requires Run(script, box).outcome.Answered?
    ensures var k := Run(script, box).modelCalls - 1;
            && 0 <= k < |script| && script[k].Success? && script[k].value.toolCalls == []
            && Run(script, box).outcome.content == script[k].value.content
            && forall i :: 0 <= i < k ==> Continues(script[i], box)
  {
    var reply := script[0].value;
    if reply.toolCalls != [] {
      AnsweredOnlyAtFirstFinal(script[1..], box);
      var k := Run(script, box).modelCalls - 1;
      forall i | 0 < i < k ensures Continues(script[i], box) {
        assert script[i] == script[1..][i - 1];
      }
    }
  }

  /**
   * The loop asks the model again for as long as replies request tools that
   * all run: it stops before the script is used up exactly when some reply
   * lacks tool calls or something raised.
   */
  lemma {:induction false} OutOfScriptIff(script: seq<Result<Reply, string>>, box: Toolbox)
    ensures Run(script, box).outcome == OutOfScript <==> forall i :: 0 <= i < |script| ==> Continues(script[i], box)
  {
    if script != [] {
      OutOfScriptIff(script[1..], box);
      assert forall i :: 0 < i < |script| ==> script[i] == script[1..][i - 1];
    }
  }

  /** Once a run has ended, replies scripted after it are never requested. */
  lemma {:induction false} NoCallsAfterEnd(script: seq<Result<Reply, string>>, more: seq<Result<Reply, string>>, box: Toolbox)
    requires !Run(script, box).outcome.OutOfScript?
    ensures Run(script + more, box) == Run(script, box)
  {
    assert (script + more)[0] == script[0];
    if script[0].Success? && script[0].value.toolCalls != [] && ToolRound(script[0].value.toolCalls, box).error.None? {
      assert (script + more)[1..] == script[1..] + more;
      NoCallsAfterEnd(script[1..], more, box);
    }
  }

  /**
   * Replays messages against the tool calls still waiting for an answer: an
   * assistant message makes its own calls wait, a tool message must answer
   * the first waiting call, any other message leaves nothing waiting. None
   * records a tool message that answered no waiting call.
   */
  function Replay(waiting: Option<seq<ToolCall>>, ms: seq<Message>): Option<seq<ToolCall>>
    decreases |ms|
  {
    if ms == [] || waiting.None? then waiting else Replay(Next(waiting.value, ms[0]), ms[1..])
  }

  function Next(waiting: seq<ToolCall>, m: Message): Option<seq<ToolCall>> {
    match m
    case AssistantMessage(reply) => Some(reply.toolCalls)
    case ToolMessage(id, _) => if waiting != [] && waiting[0].id == id then Some(waiting[1..]) else None
    case _ => Some([])
  }

  /** The calls a history leaves waiting; None when one of its tool messages answers no waiting call. */
  function Pending(ms: seq<Message>): Option<seq<ToolCall>> {
    Replay(Some([]), ms)
  }

  lemma {:induction false} ReplayConcat(waiting: Option<seq<ToolCall>>, a: seq<Message>, b: seq<Message>)
    ensures Replay(waiting, a + b) == Replay(Replay(waiting, a), b)
    decreases |a|
  {
    if a == [] {
      assert a + b == b;
    } else if waiting.Some? {
      assert (a + b)[0] == a[0] && (a + b)[1..] == a[1..] + b;
      ReplayConcat(Next(waiting.value, a[0]), a[1..], b);
    }
  }

  /** A round answers the calls of its request in order, one tool message each. */
  lemma {:induction false} RoundAnswersCalls(calls: seq<ToolCall>, box: Toolbox)
    ensures Replay(Some(calls), ToolRound(calls, box).messages) == Some(calls[|ToolRound(calls, box).messages|..])
    decreases |calls|
  {
    if calls != [] && ExecuteCall(calls[0], box).Success? {
      var rest := ToolRound(calls[1..], box);
      RoundAnswersCalls(calls[1..], box);
      var msgs := ToolRound(calls, box).messages;
      assert msgs[0] == ToolMessage(calls[0].id, ExecuteCall(calls[0], box).value) && msgs[1..] == rest.messages;
      assert calls[1..][|rest.messages|..] == calls[1 + |rest.messages|..];
    }
  }

  /** What a run appends never holds a tool message that answers no waiting call. */
  lemma {:induction false} RunKeepsPairing(waiting: Option<seq<ToolCall>>, script: seq<Result<Reply, string>>, box: Toolbox)
    requires waiting.Some?
    ensures Replay(waiting, Run(script, box).appended).Some?
    decreases |script|
  {
    if script != [] && script[0].Success? && script[0].value.toolCalls != [] {
      var reply := script[0].value;
      var round := ToolRound(reply.toolCalls, box);
      var head := [AssistantMessage(reply)] + round.messages;
      RoundAnswersCalls(reply.toolCalls, box);
      ReplayConcat(waiting, [AssistantMessage(reply)], round.messages);
      if round.error.None? {
        var rest := Run(script[1..], box);
        RunKeepsPairing(Replay(waiting, head), script[1..], box);
        ReplayConcat(waiting, head, rest.appended);
      }
    }
  }

  lemma PendingPrefix(ms: seq<Message>, j: nat)
    requires Pending(ms).Some? && j <= |ms|
    ensures Pending(ms[..j]).Some?
  {
    assert ms[..j] + ms[j..] == ms;
    ReplayConcat(Some([]), ms[..j], ms[j..]);
  }

  /**
   * Message i is a tool message answering a call of the assistant message at
   * a: everything from a + 1 through i is a tool message answering that
   * request's calls in order.
   */
  ghost predicate AnswersRequest(ms: seq<Message>, a: int, i: int) {
    && 0 <= a < i < |ms|
    && ms[a].AssistantMessage?
    && i - a <= |ms[a].reply.toolCalls|
    && forall t :: a < t <= i ==> ms[t].ToolMessage? && ms[t].toolCallId == ms[a].reply.toolCalls[t - a - 1].id
  }

  /** A tool message that ends a paired history answers the first call that waited before it. */
  lemma AnswersFirstWaiting(ms: seq<Message>) returns (waiting: seq<ToolCall>)
    requires Pending(ms).Some? && ms != [] && ms[|ms| - 1].ToolMessage?
    ensures Pending(ms[..|ms| - 1]) == Some(waiting)
    ensures waiting != [] && waiting[0].id == ms[|ms| - 1].toolCallId
    ensures Pending(ms) == Some(waiting[1..])
  {
    var i := |ms| - 1;
    assert ms[..i] + [ms[i]] == ms;
    ReplayConcat(Some([]), ms[..i], [ms[i]]);
    waiting := Pending(ms[..i]).value;
  }

  /** Calls wait only right after the assistant message that made them, or after a tool message answering an earlier one. */
  lemma WaitingAfterRequest(ms: seq<Message>)
    requires Pending(ms).Some? && Pending(ms).value != []
    ensures ms != []
    ensures || (ms[|ms| - 1].AssistantMessage? && Pending(ms).value == ms[|ms| - 1].reply.toolCalls)
            || ms[|ms| - 1].ToolMessage?
  {
    if ms != [] {
      var k := |ms| - 1;
      assert ms[..k] + [ms[k]] == ms;
      ReplayConcat(Some([]), ms[..k], [ms[k]]);
    }
  }

  lemma {:induction false} LastToolMessage(ms: seq<Message>) returns (a: nat)
    requires Pending(ms).Some? && ms != [] && ms[|ms| - 1].ToolMessage?
    ensures AnswersRequest(ms, a, |ms| - 1)
    ensures Pending(ms) == Some(ms[a].reply.toolCalls[|ms| - 1 - a..])
    decreases |ms|
  {
    var i := |ms| - 1;
    var init := ms[..i];
    var waiting := AnswersFirstWaiting(ms);
    WaitingAfterRequest(init);
    if init[i - 1].AssistantMessage? {
      a := i - 1;
    } else {
      a := LastToolMessage(init);
      assert waiting == ms[a].reply.toolCalls[i - 1 - a..];
      assert forall t :: a < t < i ==> ms[t] == init[t];
    }
  }

  /**
   * In a well-paired history every tool message is immediately preceded by
   * the assistant message that requested it or by a sibling tool message
   * answering the same request.
   */
  lemma RequestOf(ms: seq<Message>, i: nat) returns (a: nat)
    requires Pending(ms).Some? && i < |ms| && ms[i].ToolMessage?
    ensures AnswersRequest(ms, a, i)
  {
    PendingPrefix(ms, i + 1);
    a := LastToolMessage(ms[..i + 1]);
  }

  /** The `messages` list react_loop appends to. */
  class Conversation {
    var messages: seq<Message>

    constructor (initial: seq<Message>)
      ensures messages == initial
    {
      messages := initial;
    }
  }

  /**
   * The inner `for call in msg["tool_calls"]` loop: appends exactly the
   * round's tool messages and reports the failure that stopped it, if any.
   */
  method AnswerCalls(conversation: Conversation, calls: seq<ToolCall>, box: Toolbox) returns (error: Option<ToolError>)
    modifies conversation
    ensures conversation.messages == old(conversation.messages) + ToolRound(calls, box).messages
    ensures error == ToolRound(calls, box).error
  {
    ghost var base := conversation.messages;
    ghost var done: seq<Message> := [];
    for j := 0 to |calls|
      invariant conversation.messages == base + done
      invariant ToolRound(calls, box).messages == done + ToolRound(calls[j..], box).messages
      invariant ToolRound(calls, box).error == ToolRound(calls[j..], box).error
    {
      var result := ExecuteCall(calls[j], box);
      ToolRoundStep(calls, j, box);
      if result.Failure? {
        return Some(result.error);
      }
      var answer := ToolMessage(calls[j].id, result.value);
      RoundAdvances(calls, j, box, done);
      conversation.messages := conversation.messages + [answer];
      done := done + [answer];
    }
    assert calls[|calls|..] == [];
    return None;
  }

  /**
   * react_loop(messages): the list only grows, by exactly what the run over
   * the script appends, and the result is the run's outcome.
   */
  method ReactLoop(conversation: Conversation, script: seq<Result<Reply, string>>, box: Toolbox) returns (outcome: Outcome)
    modifies conversation
    ensures conversation.messages == old(conversation.messages) + Run(script, box).appended
    ensures outcome == Run(script, box).outcome
  {
    ghost var start := conversation.messages;
    var turn := 0;
    while turn < |script|
      invariant 0 <= turn <= |script|
      invariant conversation.messages + Run(script[turn..], box).appended == start + Run(script, box).appended
      invariant Run(script[turn..], box).outcome == Run(script, box).outcome
      decreases |script| - turn
    {
      var response := script[turn];
      RunStep(script, turn, box);
      ghost var before := conversation.messages;
      turn := turn + 1;
      if response.Failure? {
        assert before + [] == before;
        return Raised(ModelFailed(response.error));
      }
      var reply := response.value;
      if reply.toolCalls == [] {
        conversation.messages := conversation.messages + [AssistantMessage(reply)];
        return Answered(reply.content);
      }
      conversation.messages := conversation.messages + [AssistantMessage(reply)];
      var error := AnswerCalls(conversation, reply.toolCalls, box);
      if error.Some? {
        return Raised(ToolFailed(error.value));
      }
      RunAdvances(script, turn - 1, box, before, conversation.messages);
    }
    assert script[|script|..] == [];
    return OutOfScript;
  }

  const REACT_SYSTEM_PROMPT := "You are a helpful assistant using ReAct."

  /** The list single_query hands to react_loop. */
  function Initial(prompt: string): (r: seq<Message>)
    ensures Pending(r) == Some([])
  {
    var r := [SystemMessage(REACT_SYSTEM_PROMPT), UserMessage(prompt)];
    assert Replay(Some([]), r) == Replay(Some([]), r[1..]) == Replay(Some([]), []);
    [SystemMessage(REACT_SYSTEM_PROMPT), UserMessage(prompt)]
  }

  /** single_query(prompt): the run starts from exactly the system message and the prompt. */
  method SingleQuery(prompt: string, script: seq<Result<Reply, string>>, box: Toolbox) returns (outcome: Outcome, messages: seq<Message>)
    ensures messages == [SystemMessage("You are a helpful assistant using ReAct."), UserMessage(prompt)] + Run(script, box).appended
    ensures outcome == Run(script, box).outcome
  {
    var conversation := new Conversation(Initial(prompt));
    outcome := ReactLoop(conversation, script, box);
    messages := conversation.messages;
  }

  /** In the history single_query builds, every tool message answers, in order, the request just before its siblings. */
  lemma SingleQueryPairsToolMessages(prompt: string, script: seq<Result<Reply, string>>, box: Toolbox, i: nat) returns (a: nat)
    requires i < |Initial(prompt) + Run(script, box).appended|
    requires (Initial(prompt) + Run(script, box).appended)[i].ToolMessage?
    ensures 2 <= a
    ensures AnswersRequest(Initial(prompt) + Run(script, box).appended, a, i)
  {
    var ms := Initial(prompt) + Run(script, box).appended;
    assert Initial(prompt)[1..][1..] == [];
    assert Pending(Initial(prompt)) == Replay(Some([]), [UserMessage(prompt)]) == Some([]);
    RunKeepsPairing(Some([]), script, box);
    ReplayConcat(Some([]), Initial(prompt), Run(script, box).appended);
    a := RequestOf(ms, i);
  }
}
