/** A whole turn worked through: the user introduces themself, the model
    looks up their memories, saves a short-term memory, and then answers. */
module TurnScenario {

  import opened Wrappers
  import opened Json
  import opened PyStr
  import opened ToolCalls
  import opened Conversation
  import opened AgentTurn

  /** A reply with no tool calls whose text has no whitespace at either end
      and does not start with `<` is the final answer. */
  lemma PlainAnswerStep(runId: string, text: string, decode: Decoder, tool: ToolService)
    requires text != [] && !IsSpace(text[0]) && !IsSpace(text[|text| - 1]) && text[0] != '<'
    ensures Step(runId, Responded(Reply(Some(text), [])), decode, tool) == Stop([Entry(Assistant, text)], Returned(text))
  {
    StripUnchanged(text);
    assert !IsPseudoCall(Reply(Some(text), [])) by { assert text[0] != MARKER[0]; }
    StepEffects(runId, Responded(Reply(Some(text), [])), decode, tool);
  }

  /** A structured call whose arguments decode and whose dispatch succeeds
      appends the message and its tool entry and goes on. */
  lemma StructuredStep(runId: string, id: string, name: string, args: string, value: Json,
                       decode: Decoder, tool: ToolService, result: string)
    requires args != [] && decode(args) == Success(value)
    requires Dispatch(name, value, runId, tool) == Success(result)
    ensures var reply := Reply(None, [ToolCall(id, name, Some(args))]);
      Step(runId, Responded(reply), decode, tool) == Continue([Raw(reply), ToolEntry(id, name, result)])
  {
    StepEffects(runId, Responded(Reply(None, [ToolCall(id, name, Some(args))])), decode, tool);
  }

  /** Two successful structured calls and then a plain answer: the turn
      returns the answer, and the history gains the user's input, each call's
      message followed by its tool entry, and the assistant entry. */
  lemma TwoCallsThenAnswer(h: seq<Message>, runId: string, decode: Decoder, tool: ToolService,
                           userInput: string, answer: string,
                           id1: string, name1: string, args1: string, result1: string,
                           id2: string, name2: string, args2: string, result2: string)
    requires answer != [] && !IsSpace(answer[0]) && !IsSpace(answer[|answer| - 1]) && answer[0] != '<'
    requires args1 != [] && decode(args1).Success?
    requires Dispatch(name1, decode(args1).value, runId, tool) == Success(result1)
    requires args2 != [] && decode(args2).Success?
    requires Dispatch(name2, decode(args2).value, runId, tool) == Success(result2)
    ensures
      var call1 := Reply(None, [ToolCall(id1, name1, Some(args1))]);
      var call2 := Reply(None, [ToolCall(id2, name2, Some(args2))]);
      var replies := [Responded(call1), Responded(call2), Responded(Reply(Some(answer), []))];
      Turn(h, runId, userInput, replies, decode, tool)
        == (Returned(answer),
            h + [Entry(User, userInput), Raw(call1), ToolEntry(id1, name1, result1),
                 Raw(call2), ToolEntry(id2, name2, result2), Entry(Assistant, answer)])
  {
    var call1 := Reply(None, [ToolCall(id1, name1, Some(args1))]);
    var call2 := Reply(None, [ToolCall(id2, name2, Some(args2))]);
    var replies := [Responded(call1), Responded(call2), Responded(Reply(Some(answer), []))];
    var h0 := h + [Entry(User, userInput)];
    var h1 := h0 + [Raw(call1), ToolEntry(id1, name1, result1)];
    var h2 := h1 + [Raw(call2), ToolEntry(id2, name2, result2)];

    StructuredStep(runId, id1, name1, args1, decode(args1).value, decode, tool, result1);
    RunFromUnfold(h0, runId, replies, 0, decode, tool);
    assert replies[0..] == replies;
    StructuredStep(runId, id2, name2, args2, decode(args2).value, decode, tool, result2);
    RunFromUnfold(h1, runId, replies, 1, decode, tool);
    PlainAnswerStep(runId, answer, decode, tool);
    RunFromUnfold(h2, runId, replies, 2, decode, tool);
    assert h2 + [Entry(Assistant, answer)]
        == h + [Entry(User, userInput), Raw(call1), ToolEntry(id1, name1, result1),
                Raw(call2), ToolEntry(id2, name2, result2), Entry(Assistant, answer)];
  }

  /** "I am Alice": the model looks up Alice's memories, saves a short-term
      memory, which receives the session's `run_id`, and answers. The turn
      makes exactly these two tool calls and returns the answer. */
  lemma AliceTurn(h: seq<Message>, runId: string, decode: Decoder, tool: ToolService,
                  userInput: string, answer: string, getTool: string,
                  id1: string, getArgs: string, m1: map<string, Json>, memories: string,
                  id2: string, addArgs: string, m2: map<string, Json>, saved: string)
    requires userInput == "I am Alice" && answer == "Nice to meet you, Alice!"
    requires getTool == "get_memories"
    requires getArgs != [] && decode(getArgs) == Success(JObject(m1))
    requires addArgs != [] && decode(addArgs) == Success(JObject(m2))
    requires tool(getTool, JObject(m1)) == Success(memories)
    requires tool(SHORT_MEMORY_TOOL, JObject(m2[RUN_ID_KEY := JString(runId)])) == Success(saved)
    ensures
      var get := Reply(None, [ToolCall(id1, getTool, Some(getArgs))]);
      var add := Reply(None, [ToolCall(id2, SHORT_MEMORY_TOOL, Some(addArgs))]);
      var replies := [Responded(get), Responded(add), Responded(Reply(Some(answer), []))];
      Turn(h, runId, userInput, replies, decode, tool)
        == (Returned(answer),
            h + [Entry(User, userInput), Raw(get), ToolEntry(id1, getTool, memories),
                 Raw(add), ToolEntry(id2, SHORT_MEMORY_TOOL, saved), Entry(Assistant, answer)])
  {
    assert getTool[0] != SHORT_MEMORY_TOOL[0];
    assert Dispatch(getTool, JObject(m1), runId, tool) == Success(memories);
    assert Dispatch(SHORT_MEMORY_TOOL, JObject(m2), runId, tool) == Success(saved);
    assert answer[0] == 'N' && answer[|answer| - 1] == '!';
    TwoCallsThenAnswer(h, runId, decode, tool, userInput, answer,
                       id1, getTool, getArgs, memories, id2, SHORT_MEMORY_TOOL, addArgs, saved);
  }
}
