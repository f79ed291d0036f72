/** The model-facing side of the assistant (services/geminiService.ts): the
    tools declared to the language model and the conversation loop that
    sends the user's message, runs every function call the model asks for,
    returns their results in one batch per round and stops after ten rounds.
    The chat service and the tool runner are parameters: `chat(k, m)` is the
    service's answer to the k-th message of the conversation and
    `tool(round, i, call)` the outcome of the i-th call of a round. */
module Agent {
  import opened Common

  /** Arguments a function call may carry; every one is a string. */
  datatype ToolArgs = ToolArgs(url: Option<string>, selector: Option<string>, text: Option<string>,
                               value: Option<string>, duration: Option<string>)

  datatype FunctionCall = FunctionCall(name: string, args: ToolArgs, id: Option<string>)

  /** `{ functionResponse: { name, response: { result }, id } }` */
  datatype FunctionResponse = FunctionResponse(name: string, result: string, id: Option<string>)

  /** One answer of the model: the calls it asks for and its text ("" when absent). */
  datatype Reply = Reply(calls: seq<FunctionCall>, text: string)

  /** A previous turn handed to the chat as history. */
  datatype Turn = Turn(role: string, text: string)

  /** What the loop sends: the opening message over the history, or a batch of results. */
  datatype Outgoing =
    | Opening(history: seq<Turn>, message: string)
    | ToolResults(parts: seq<FunctionResponse>)

  datatype SendResult = Replied(reply: Reply) | SendFailed(message: string)

  /** What running one call gave: a value, or an exception with its message. */
  datatype ToolOutcome = Returned(value: string) | Threw(message: string)

  /** The whole exchange: the result (text or error message), the number of
      messages sent, the replies received and the result batches sent. */
  datatype Conversation = Conversation(outcome: Result<string, string>, sends: nat,
                                       replies: seq<Reply>, batches: seq<seq<FunctionResponse>>)

  const MissingKeyMessage := "Falta la API Key. Por favor verifica tu configuración .env."
  const ProtocolErrorMessage := "Error de Protocolo IA (Tool Response)."
  const ToolErrorPrefix := "Error executing tool: "
  /** Rounds of tool calls after which the loop stops asking. */
  const MaxRounds: nat := 10

  /** A tool the model is told about: its name, its string parameters and
      those it must supply. */
  datatype ToolDecl = ToolDecl(name: string, params: seq<string>, required: seq<string>)

  const DeclaredTools: seq<ToolDecl> := [
    ToolDecl("navigate", ["url"], ["url"]),
    ToolDecl("click", ["selector"], ["selector"]),
    ToolDecl("type", ["selector", "text"], ["selector", "text"]),
    ToolDecl("select", ["selector", "value"], ["selector", "value"]),
    ToolDecl("wait", ["duration"], ["duration"]),
    ToolDecl("check_downloads", [], [])
  ]

  /** The names of the declared tools, in declaration order. */
  function DeclaredNames(): (r: seq<string>)
    ensures |r| == |DeclaredTools|
    ensures forall i :: 0 <= i < |r| ==> r[i] == DeclaredTools[i].name
  {
    seq(|DeclaredTools|, i requires 0 <= i < |DeclaredTools| => DeclaredTools[i].name)
  }

  /** Six tools with distinct names, each requiring only parameters it
      declares; the dashboard's `extract` handler is not among them. */
  lemma DeclaredToolsWellFormed()
    ensures DeclaredNames() == ["navigate", "click", "type", "select", "wait", "check_downloads"]
    ensures forall i, j :: 0 <= i < j < |DeclaredTools| ==> DeclaredTools[i].name != DeclaredTools[j].name
    ensures forall t, p :: t in DeclaredTools && p in t.required ==> p in t.params
    ensures "extract" !in DeclaredNames()
  {
    assert DeclaredNames() == ["navigate", "click", "type", "select", "wait", "check_downloads"];
  }

  /** The result text of one call: its value, or the error it threw. */
  function ToolText(outcome: ToolOutcome): (r: string)
    ensures outcome.Returned? ==> r == outcome.value
    ensures outcome.Threw? ==> StartsWith(r, ToolErrorPrefix) && r[|ToolErrorPrefix|..] == outcome.message
  {
    match outcome
    case Returned(v) => v
    case Threw(m) => ToolErrorPrefix + m
  }

  /** The results of one round, built as the loop builds them: one
      response per call, pushed in the calls' order. */
  function Batch(round: nat, calls: seq<FunctionCall>, tool: (nat, nat, FunctionCall) -> ToolOutcome)
    : (b: seq<FunctionResponse>)
    ensures |b| == |calls|
  {
    if calls == [] then []
    else
      var k := |calls| - 1;
      Batch(round, calls[..k], tool) + [FunctionResponse(calls[k].name, ToolText(tool(round, k, calls[k])), calls[k].id)]
  }

  /** Response `i` of a round answers call `i`: under its name and id, it
      carries what running that call gave. */
  lemma {:induction false} BatchAt(round: nat, calls: seq<FunctionCall>, tool: (nat, nat, FunctionCall) -> ToolOutcome)
    ensures forall i :: 0 <= i < |calls| ==>
      Batch(round, calls, tool)[i] == FunctionResponse(calls[i].name, ToolText(tool(round, i, calls[i])), calls[i].id)
    decreases |calls|
  {
    if calls != [] {
      var k := |calls| - 1;
      BatchAt(round, calls[..k], tool);
    }
  }

  /** The conversation from a reply received after `loops` rounds on: while
      the reply asks for calls and fewer than ten rounds have run, the calls
      are run and their results sent back; a failed send ends everything with
      the protocol error; otherwise the reply's text is the answer. */
  function Rounds(chat: (nat, Outgoing) -> SendResult, tool: (nat, nat, FunctionCall) -> ToolOutcome,
                  result: Reply, loops: nat): (c: Conversation)
    requires loops <= MaxRounds
    // every message sent after the first carries one batch
    ensures c.sends == loops + 1 + |c.batches|
    ensures loops + |c.batches| <= MaxRounds
    ensures |c.replies| > 0 && c.replies[0] == result
    decreases MaxRounds - loops
  {
    if |result.calls| > 0 && loops < MaxRounds then
      var batch := Batch(loops + 1, result.calls, tool);
      match chat(loops + 1, ToolResults(batch))
      case SendFailed(_) => Conversation(Err(ProtocolErrorMessage), loops + 2, [result], [batch])
      case Replied(next) =>
        var rest := Rounds(chat, tool, next, loops + 1);
        Conversation(rest.outcome, rest.sends, [result] + rest.replies, [batch] + rest.batches)
    else
      Conversation(Ok(result.text), loops + 1, [result], [])
  }

  /** Each batch answers the calls of the reply before it, the first one in
      round `round`, the next in the round after, and so on. */
  predicate Answered(replies: seq<Reply>, batches: seq<seq<FunctionResponse>>, round: nat,
                     tool: (nat, nat, FunctionCall) -> ToolOutcome)
    decreases batches
  {
    batches == [] ||
    (replies != [] && replies[0].calls != [] && batches[0] == Batch(round, replies[0].calls, tool) &&
     Answered(replies[1..], batches[1..], round + 1, tool))
  }

  /** The same, position by position. */
  lemma {:induction false} AnsweredAt(replies: seq<Reply>, batches: seq<seq<FunctionResponse>>,
                                      round: nat, tool: (nat, nat, FunctionCall) -> ToolOutcome)
    requires Answered(replies, batches, round, tool)
    ensures |batches| <= |replies|
    ensures forall i :: 0 <= i < |batches| ==>
      replies[i].calls != [] && batches[i] == Batch(i + round, replies[i].calls, tool)
    decreases batches
  {
    if batches != [] {
      AnsweredAt(replies[1..], batches[1..], round + 1, tool);
      forall i | 0 <= i < |batches|
        ensures replies[i].calls != [] && batches[i] == Batch(i + round, replies[i].calls, tool)
      {
        if i > 0 {
          assert batches[i] == batches[1..][i - 1] && replies[i] == replies[1..][i - 1];
        }
      }
    }
  }

  /** Every batch a run of rounds sends answers the reply before it. */
  lemma {:induction false} RoundsAnswer(chat: (nat, Outgoing) -> SendResult,
                                        tool: (nat, nat, FunctionCall) -> ToolOutcome,
                                        result: Reply, loops: nat)
    requires loops <= MaxRounds
    ensures var c := Rounds(chat, tool, result, loops);
      Answered(c.replies, c.batches, loops + 1, tool)
    decreases MaxRounds - loops
  {
    if |result.calls| > 0 && loops < MaxRounds {
      RoundStep(chat, tool, result, loops);
      var sent := chat(loops + 1, ToolResults(Batch(loops + 1, result.calls, tool)));
      if sent.Replied? {
        RoundsAnswer(chat, tool, sent.reply, loops + 1);
        var rest := Rounds(chat, tool, sent.reply, loops + 1);
        var c := Rounds(chat, tool, result, loops);
        assert c.replies[1..] == rest.replies && c.batches[1..] == rest.batches;
      }
    }
  }

  /** How a run of rounds fails: only with the protocol error, raised after
      the batch that could not be sent. */
  lemma {:induction false} RoundsFailure(chat: (nat, Outgoing) -> SendResult,
                                         tool: (nat, nat, FunctionCall) -> ToolOutcome,
                                         result: Reply, loops: nat)
    requires loops <= MaxRounds
    ensures var c := Rounds(chat, tool, result, loops);
      c.outcome.Err? ==> c.outcome.error == ProtocolErrorMessage && |c.replies| == |c.batches|
    decreases MaxRounds - loops
  {
    if |result.calls| > 0 && loops < MaxRounds {
      RoundStep(chat, tool, result, loops);
      var sent := chat(loops + 1, ToolResults(Batch(loops + 1, result.calls, tool)));
      if sent.Replied? {
        RoundsFailure(chat, tool, sent.reply, loops + 1);
      }
    }
  }

  /** A run of rounds that answers has one reply more than it has batches. */
  lemma {:induction false} RoundsAnswerCount(chat: (nat, Outgoing) -> SendResult,
                                             tool: (nat, nat, FunctionCall) -> ToolOutcome,
                                             result: Reply, loops: nat)
    requires loops <= MaxRounds
    ensures var c := Rounds(chat, tool, result, loops);
      c.outcome.Ok? ==> |c.replies| == |c.batches| + 1
    decreases MaxRounds - loops
  {
    if |result.calls| > 0 && loops < MaxRounds {
      RoundStep(chat, tool, result, loops);
      var sent := chat(loops + 1, ToolResults(Batch(loops + 1, result.calls, tool)));
      if sent.Replied? {
        RoundsAnswerCount(chat, tool, sent.reply, loops + 1);
      }
    }
  }

  /** How a run of rounds answers: with the text of the last reply, which
      asked for nothing or came when the cap was reached. */
  lemma {:induction false} RoundsAnswerText(chat: (nat, Outgoing) -> SendResult,
                                            tool: (nat, nat, FunctionCall) -> ToolOutcome,
                                            result: Reply, loops: nat)
    requires loops <= MaxRounds
    ensures var c := Rounds(chat, tool, result, loops);
      c.outcome.Ok? ==>
        c.outcome.value == c.replies[|c.replies| - 1].text &&
        (c.replies[|c.replies| - 1].calls == [] || loops + |c.batches| == MaxRounds)
    decreases MaxRounds - loops
  {
    if |result.calls| > 0 && loops < MaxRounds {
      RoundStep(chat, tool, result, loops);
      var sent := chat(loops + 1, ToolResults(Batch(loops + 1, result.calls, tool)));
      if sent.Replied? {
        RoundsAnswerText(chat, tool, sent.reply, loops + 1);
        var rest := Rounds(chat, tool, sent.reply, loops + 1);
        var c := Rounds(chat, tool, result, loops);
        assert c.outcome == rest.outcome;
        if rest.outcome.Ok? {
          assert c.replies == [result] + rest.replies && |c.batches| == 1 + |rest.batches|;
          assert c.replies[|c.replies| - 1] == rest.replies[|rest.replies| - 1];
        }
      }
    }
  }

  /** `generateResponse`: without an API key nothing is sent; a failure of
      the opening message surfaces the service's own error; after that the
      rounds run as above. */
  function Converse(hasKey: bool, history: seq<Turn>, userText: string,
                    chat: (nat, Outgoing) -> SendResult,
                    tool: (nat, nat, FunctionCall) -> ToolOutcome): (c: Conversation)
    ensures !hasKey ==> c.outcome == Err(MissingKeyMessage) && c.sends == 0 && c.batches == []
    ensures hasKey ==> c.sends >= 1
    ensures c.sends <= MaxRounds + 1 && |c.batches| <= MaxRounds
    ensures hasKey && chat(0, Opening(history, userText)).SendFailed? ==>
      c.outcome == Err(chat(0, Opening(history, userText)).message) && c.sends == 1
  {
    if !hasKey then Conversation(Err(MissingKeyMessage), 0, [], [])
    else
      match chat(0, Opening(history, userText))
      case SendFailed(m) => Conversation(Err(m), 1, [], [])
      case Replied(first) => Rounds(chat, tool, first, 0)
  }

  /** From the user's side: every batch sent answers, call for call, the
      reply before it, round after round, starting with round one. */
  lemma ConversationAnswers(hasKey: bool, history: seq<Turn>, userText: string,
                            chat: (nat, Outgoing) -> SendResult,
                            tool: (nat, nat, FunctionCall) -> ToolOutcome)
    ensures var c := Converse(hasKey, history, userText, chat, tool);
      |c.batches| <= |c.replies| &&
      forall i :: 0 <= i < |c.batches| ==>
        c.replies[i].calls != [] && c.batches[i] == Batch(i + 1, c.replies[i].calls, tool)
  {
    if hasKey && chat(0, Opening(history, userText)).Replied? {
      var first := chat(0, Opening(history, userText)).reply;
      ConverseStart(hasKey, history, userText, chat, tool);
      RoundsAnswer(chat, tool, first, 0);
      var r := Rounds(chat, tool, first, 0);
      AnsweredAt(r.replies, r.batches, 1, tool);
    }
  }

  /** After the opening reply, the conversation is the rounds from it. */
  lemma ConverseStart(hasKey: bool, history: seq<Turn>, userText: string,
                      chat: (nat, Outgoing) -> SendResult,
                      tool: (nat, nat, FunctionCall) -> ToolOutcome)
    requires hasKey && chat(0, Opening(history, userText)).Replied?
    ensures Converse(hasKey, history, userText, chat, tool) ==
      Rounds(chat, tool, chat(0, Opening(history, userText)).reply, 0)
  {
  }

  /** From the user's side: an answer is the text of the last reply; a
      failure after the opening message is the protocol error. */
  lemma ConversationEnd(hasKey: bool, history: seq<Turn>, userText: string,
                        chat: (nat, Outgoing) -> SendResult,
                        tool: (nat, nat, FunctionCall) -> ToolOutcome)
    ensures var c := Converse(hasKey, history, userText, chat, tool);
      (c.outcome.Ok? ==>
         |c.replies| == |c.batches| + 1 && c.outcome.value == c.replies[|c.replies| - 1].text &&
         (c.replies[|c.replies| - 1].calls == [] || |c.batches| == MaxRounds)) &&
      (c.outcome.Err? && c.sends > 1 ==> c.outcome.error == ProtocolErrorMessage)
  {
    if hasKey && chat(0, Opening(history, userText)).Replied? {
      var first := chat(0, Opening(history, userText)).reply;
      ConverseStart(hasKey, history, userText, chat, tool);
      RoundsFailure(chat, tool, first, 0);
      RoundsAnswerCount(chat, tool, first, 0);
      RoundsAnswerText(chat, tool, first, 0);
    }
  }

  /** A conversation `c` picked up after `replies` and `batches` already happened. */
  function Resume(replies: seq<Reply>, batches: seq<seq<FunctionResponse>>, c: Conversation): Conversation {
    Conversation(c.outcome, c.sends, replies + c.replies, batches + c.batches)
  }

  /** One round unfolded: the batch for the reply's calls is sent; a
      failed send ends with the protocol error, a reply is picked up in the
      next round. */
  lemma RoundStep(chat: (nat, Outgoing) -> SendResult, tool: (nat, nat, FunctionCall) -> ToolOutcome,
                  result: Reply, loops: nat)
    requires loops < MaxRounds && |result.calls| > 0
    ensures var batch := Batch(loops + 1, result.calls, tool);
      var sent := chat(loops + 1, ToolResults(batch));
      Rounds(chat, tool, result, loops) ==
        if sent.SendFailed? then Conversation(Err(ProtocolErrorMessage), loops + 2, [result], [batch])
        else Resume([result], [batch], Rounds(chat, tool, sent.reply, loops + 1))
  {
  }

  /** Resuming after one more reply and batch. */
  lemma ResumeAppend(replies: seq<Reply>, batches: seq<seq<FunctionResponse>>,
                     result: Reply, batch: seq<FunctionResponse>, c: Conversation)
    ensures Resume(replies, batches, Resume([result], [batch], c)) ==
      Resume(replies + [result], batches + [batch], c)
  {
    assert replies + ([result] + c.replies) == (replies + [result]) + c.replies;
    assert batches + ([batch] + c.batches) == (batches + [batch]) + c.batches;
  }

  /** The inner loop of a round: each call is run in turn, a thrown error
      becoming its result text, and its response pushed onto the batch. */
  method RunCalls(round: nat, calls: seq<FunctionCall>, tool: (nat, nat, FunctionCall) -> ToolOutcome)
    returns (parts: seq<FunctionResponse>)
    ensures parts == Batch(round, calls, tool)
  {
    parts := [];
    for i := 0 to |calls|
      invariant parts == Batch(round, calls[..i], tool)
    {
      var call := calls[i];
      var text := ToolText(tool(round, i, call));
      assert calls[..i + 1][..i] == calls[..i];
      parts := parts + [FunctionResponse(call.name, text, call.id)];
    }
    assert calls[..|calls|] == calls;
  }

  /** The loop as the service runs it: a `while` over rounds around a `for`
      over the calls of the current reply. */
  method GenerateResponse(hasKey: bool, history: seq<Turn>, userText: string,
                          chat: (nat, Outgoing) -> SendResult,
                          tool: (nat, nat, FunctionCall) -> ToolOutcome)
    returns (c: Conversation)
    ensures c == Converse(hasKey, history, userText, chat, tool)
  {
    if !hasKey {
      return Conversation(Err(MissingKeyMessage), 0, [], []);
    }
    var first := chat(0, Opening(history, userText));
    if first.SendFailed? {
      return Conversation(Err(first.message), 1, [], []);
    }
    ghost var spec := Converse(hasKey, history, userText, chat, tool);
    var result := first.reply;
    var loops: nat := 0;
    var replies: seq<Reply> := [];
    var batches: seq<seq<FunctionResponse>> := [];
    assert spec == Resume(replies, batches, Rounds(chat, tool, result, 0));
    while |result.calls| > 0 && loops < MaxRounds
      invariant loops <= MaxRounds
      invariant spec == Resume(replies, batches, Rounds(chat, tool, result, loops))
      decreases MaxRounds - loops
    {
      RoundStep(chat, tool, result, loops);
      loops := loops + 1;
      var parts := RunCalls(loops, result.calls, tool);
      var sent := chat(loops, ToolResults(parts));
      if sent.SendFailed? {
        return Conversation(Err(ProtocolErrorMessage), loops + 1, replies + [result], batches + [parts]);
      }
      ResumeAppend(replies, batches, result, parts, Rounds(chat, tool, sent.reply, loops));
      replies := replies + [result];
      batches := batches + [parts];
      result := sent.reply;
    }
    assert Rounds(chat, tool, result, loops) == Conversation(Ok(result.text), loops + 1, [result], []);
    c := Conversation(Ok(result.text), loops + 1, replies + [result], batches);
  }

  /** A model that asks for a call every time is cut off after exactly ten
      rounds, eleven messages in all, and its last text is the answer. */
  lemma {:induction false} PersistentModelIsCapped(chat: (nat, Outgoing) -> SendResult,
                                                   tool: (nat, nat, FunctionCall) -> ToolOutcome,
                                                   result: Reply, loops: nat)
    requires loops <= MaxRounds && result.calls != []
    requires forall k, m :: chat(k, m).Replied? && chat(k, m).reply.calls != []
    ensures Rounds(chat, tool, result, loops).outcome.Ok?
    ensures |Rounds(chat, tool, result, loops).batches| == MaxRounds - loops
    ensures Rounds(chat, tool, result, loops).sends == MaxRounds + 1
    decreases MaxRounds - loops
  {
    if loops < MaxRounds {
      var batch := Batch(loops + 1, result.calls, tool);
      var next := chat(loops + 1, ToolResults(batch)).reply;
      PersistentModelIsCapped(chat, tool, next, loops + 1);
    }
  }

  /** The same from the user's side: with a key and a model that always asks
      for a call, the answer comes after ten result batches. */
  lemma PersistentConversation(history: seq<Turn>, userText: string,
                               chat: (nat, Outgoing) -> SendResult,
                               tool: (nat, nat, FunctionCall) -> ToolOutcome)
    requires forall k, m :: chat(k, m).Replied? && chat(k, m).reply.calls != []
    ensures Converse(true, history, userText, chat, tool).outcome.Ok?
    ensures |Converse(true, history, userText, chat, tool).batches| == MaxRounds
    ensures Converse(true, history, userText, chat, tool).sends == MaxRounds + 1
  {
    PersistentModelIsCapped(chat, tool, chat(0, Opening(history, userText)).reply, 0);
  }

  /** A tool that throws does not end the conversation: its message goes
      back to the model as that call's result. */
  lemma ThrowingToolIsReported(round: nat, calls: seq<FunctionCall>,
                               tool: (nat, nat, FunctionCall) -> ToolOutcome, i: nat)
    requires i < |calls| && tool(round, i, calls[i]).Threw?
    ensures Batch(round, calls, tool)[i].result ==
      ToolErrorPrefix + tool(round, i, calls[i]).message
    ensures forall j :: i < j < |calls| ==>
      Batch(round, calls, tool)[j].result == ToolText(tool(round, j, calls[j]))
  {
    BatchAt(round, calls, tool);
  }
}
