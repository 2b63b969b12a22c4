/** The agent turn loop (`run_agent_turn`): one user input is appended to the
    session's history, then the loop asks the completion service for a reply,
    handles a structured tool call, a pseudo-call written as text, or a final
    answer, and either continues or returns. The completion service is given
    as the script of what its successive calls yield. */
module AgentTurn {

  import opened Wrappers
  import opened Json
  import opened PyStr
  import opened ToolCalls
  import opened Conversation

  const APOLOGY := "Sorry, I had a problem communicating with my brain. Please try again."
  const FINISHED := "I'm finished with the task."
  const TOOL_ERROR_PREFIX := "Error executing tool: "
  const PSEUDO_FAILURE_PREFIX := "I tried to call a tool but failed: "

  /** How a turn ends: it returns a text, an exception escapes it (a
      structured call whose arguments do not decode), or the script of
      completions runs out while the loop still wants another one. */
  datatype Outcome = Returned(answer: string) | Raised(error: string) | OutOfScript

  /** What one iteration of the loop does to the history: the entries it
      appends, and whether the loop goes on or ends with an outcome. */
  datatype StepResult = Continue(appended: seq<Message>) | Stop(appended: seq<Message>, outcome: Outcome)

  /** The reply is a pseudo-call: no structured calls, and a non-empty text
      that starts with `<function=` once stripped. */
  predicate IsPseudoCall(reply: Reply) {
    reply.toolCalls == [] && reply.content.Some? && reply.content.value != []
    && StartsWith(Strip(reply.content.value), MARKER)
  }

  /** `msg.content or "I'm finished with the task."` */
  function FinalText(content: Option<string>): (text: string)
    ensures text != []
    ensures content.Some? && content.value != [] ==> text == content.value
    ensures content == None || content == Some([]) ==> text == FINISHED
  {
    if content.Some? && content.value != [] then content.value else FINISHED
  }

  /** The content of the tool entry for a structured call's outcome. */
  function ToolEntryText(result: Result<string, string>): string {
    match result
    case Success(r) => r
    case Failure(e) => TOOL_ERROR_PREFIX + e
  }

  /** The user entry that reports a pseudo-call: the tool's result, or the
      failure of any of parsing, decoding, injection and the tool itself. */
  function PseudoCallReport(content: string, runId: string, decode: Decoder, tool: ToolService): (text: string)
    ensures '{' !in content ==> text == PSEUDO_FAILURE_PREFIX + INDEX_ERROR
    // each failure is reported with the text of the exception that raised it
    ensures ParsePseudoCall(content).Failure? ==>
      text == PSEUDO_FAILURE_PREFIX + ParsePseudoCall(content).error
    ensures ParsePseudoCall(content).Success? && decode(ParsePseudoCall(content).value.blob).Failure? ==>
      text == PSEUDO_FAILURE_PREFIX + decode(ParsePseudoCall(content).value.blob).error
    ensures (&& ParsePseudoCall(content).Success?
             && decode(ParsePseudoCall(content).value.blob).Success?
             && Dispatch(ParsePseudoCall(content).value.name, decode(ParsePseudoCall(content).value.blob).value, runId, tool).Failure?)
      ==> text == PSEUDO_FAILURE_PREFIX +
                  Dispatch(ParsePseudoCall(content).value.name, decode(ParsePseudoCall(content).value.blob).value, runId, tool).error
    ensures StartsWith(text, PSEUDO_FAILURE_PREFIX) <==>
      || ParsePseudoCall(content).Failure?
      || decode(ParsePseudoCall(content).value.blob).Failure?
      || Dispatch(ParsePseudoCall(content).value.name, decode(ParsePseudoCall(content).value.blob).value, runId, tool).Failure?
    ensures !StartsWith(text, PSEUDO_FAILURE_PREFIX) ==>
      text == "The tool '" + ParsePseudoCall(content).value.name + "' returned this result:\n"
        + Dispatch(ParsePseudoCall(content).value.name, decode(ParsePseudoCall(content).value.blob).value, runId, tool).value
  {
    match ParsePseudoCall(content)
    case Failure(e) => PSEUDO_FAILURE_PREFIX + e
    case Success(call) =>
      match decode(call.blob)
      case Failure(e) => PSEUDO_FAILURE_PREFIX + e
      case Success(args) =>
        match Dispatch(call.name, args, runId, tool)
        case Failure(e) => PSEUDO_FAILURE_PREFIX + e
        case Success(r) =>
          var text := "The tool '" + call.name + "' returned this result:\n" + r;
          assert text[0] == 'T' != PSEUDO_FAILURE_PREFIX[0];
          text
  }

  /** One iteration of the loop for the completion `c`. */
  function Step(runId: string, c: Completion, decode: Decoder, tool: ToolService): StepResult {
    match c
    case ServiceError => Stop([], Returned(APOLOGY))
    case Responded(reply) =>
      if reply.toolCalls != [] then
        var call := reply.toolCalls[0];
        match decode(ArgumentsText(call.arguments))
        case Failure(e) => Stop([Raw(reply)], Raised(e))
        case Success(args) =>
          Continue([Raw(reply), ToolEntry(call.id, call.name, ToolEntryText(Dispatch(call.name, args, runId, tool)))])
      else if IsPseudoCall(reply) then
        Continue([Entry(User, PseudoCallReport(reply.content.value, runId, decode, tool))])
      else
        var text := FinalText(reply.content);
        Stop([Entry(Assistant, text)], Returned(text))
  }

  /** What one iteration appends, by the kind of completion, in the order the
      loop tests them. */
  lemma StepEffects(runId: string, c: Completion, decode: Decoder, tool: ToolService)
    ensures var s := Step(runId, c, decode, tool);
      // a failed completion call ends the turn with the apology, appending nothing
      && (c.ServiceError? ==> s == Stop([], Returned(APOLOGY)))
      // structured calls come first, whatever the content; only the first is used
      && (c.Responded? && c.reply.toolCalls != [] ==>
           var call := c.reply.toolCalls[0];
           var decoded := decode(ArgumentsText(call.arguments));
           && 1 <= |s.appended| <= 2 && s.appended[0] == Raw(c.reply)
           && (decoded.Failure? ==> s == Stop([Raw(c.reply)], Raised(decoded.error)))
           && (decoded.Success? ==>
                && s.Continue? && |s.appended| == 2
                && s.appended[1] == ToolEntry(call.id, call.name,
                     ToolEntryText(Dispatch(call.name, decoded.value, runId, tool)))))
      // a pseudo-call appends exactly one user entry and the loop goes on
      && (c.Responded? && IsPseudoCall(c.reply) ==>
           s == Continue([Entry(User, PseudoCallReport(c.reply.content.value, runId, decode, tool))]))
      // anything else is the final answer, appended and returned
      && (c.Responded? && c.reply.toolCalls == [] && !IsPseudoCall(c.reply) ==>
           s == Stop([Entry(Assistant, FinalText(c.reply.content))], Returned(FinalText(c.reply.content))))
  {
  }

  /** An iteration that ends the turn appends nothing and apologises after a
      failed completion call, appends only the structured call's message when
      its arguments fail to decode, or appends and returns a non-empty final
      answer. */
  lemma StepStops(runId: string, c: Completion, decode: Decoder, tool: ToolService)
    ensures var s := Step(runId, c, decode, tool);
      s.Stop? ==>
        || (c.ServiceError? && s.appended == [] && s.outcome == Returned(APOLOGY))
        || (s.outcome.Raised? && |s.appended| == 1 && s.appended[0].Raw? && s.appended[0].reply.toolCalls != [])
        || (s.outcome.Returned? && s.outcome.answer != [] && s.appended == [Entry(Assistant, s.outcome.answer)])
  {
  }

  /** The completion asks for a tool in a way that lets the loop go on: a
      pseudo-call, or a structured call whose first call's arguments decode. */
  predicate AsksForTool(c: Completion, decode: Decoder) {
    && c.Responded?
    && (|| IsPseudoCall(c.reply)
        || (&& c.reply.toolCalls != []
            && decode(ArgumentsText(c.reply.toolCalls[0].arguments)).Success?))
  }

  /** An iteration lets the loop go on exactly after a completion that asks
      for a tool, as a pseudo-call or as a structured call that decodes. */
  lemma StepContinues(runId: string, c: Completion, decode: Decoder, tool: ToolService)
    ensures Step(runId, c, decode, tool).Continue? <==> AsksForTool(c, decode)
  {
  }

  /** The loop from history `h` on, with `replies` as what the completion
      service yields next: the history only grows, by at most two entries
      per completion. */
  function RunFrom(h: seq<Message>, runId: string, replies: seq<Completion>, decode: Decoder, tool: ToolService)
    : (r: (Outcome, seq<Message>))
    ensures h <= r.1
    ensures |r.1| <= |h| + 2 * |replies|
    decreases |replies|
  {
    if replies == [] then (OutOfScript, h)
    else
      match Step(runId, replies[0], decode, tool)
      case Continue(a) => RunFrom(h + a, runId, replies[1..], decode, tool)
      case Stop(a, o) => (o, h + a)
  }

  /** A whole turn: the user's input is appended first, then the loop runs. */
  function Turn(h: seq<Message>, runId: string, userInput: string, replies: seq<Completion>,
                decode: Decoder, tool: ToolService): (r: (Outcome, seq<Message>))
    ensures h + [Entry(User, userInput)] <= r.1
  {
    RunFrom(h + [Entry(User, userInput)], runId, replies, decode, tool)
  }

  /** One more iteration: the loop on `replies[i..]` is the step for
      `replies[i]` followed, if it continues, by the loop on the rest. */
  lemma RunFromUnfold(h: seq<Message>, runId: string, replies: seq<Completion>, i: nat,
                      decode: Decoder, tool: ToolService)
    requires i < |replies|
    ensures var s := Step(runId, replies[i], decode, tool);
      RunFrom(h, runId, replies[i..], decode, tool)
        == if s.Continue? then RunFrom(h + s.appended, runId, replies[i + 1..], decode, tool)
           else (s.outcome, h + s.appended)
  {
    assert replies[i..][0] == replies[i] && replies[i..][1..] == replies[i + 1..];
  }

  /** A turn returns only a final answer, which is then the last entry of the
      history and never empty, or the apology after a failed completion call. */
  lemma {:induction false} RunFromReturns(h: seq<Message>, runId: string, replies: seq<Completion>,
                                          decode: Decoder, tool: ToolService)
    ensures var (o, h') := RunFrom(h, runId, replies, decode, tool);
      o.Returned? ==>
        || (|h'| > |h| && h'[|h'| - 1] == Entry(Assistant, o.answer) && o.answer != [])
        || (o.answer == APOLOGY && ServiceError in replies)
    decreases |replies|
  {
    if replies != [] {
      RunFromUnfold(h, runId, replies, 0, decode, tool);
      assert replies[0..] == replies;
      StepStops(runId, replies[0], decode, tool);
      var s := Step(runId, replies[0], decode, tool);
      if s.Continue? {
        RunFromReturns(h + s.appended, runId, replies[1..], decode, tool);
        assert forall x :: x in replies[1..] ==> x in replies;
      }
    }
  }

  /** An exception escapes a turn only right after the assistant message of
      the structured call whose arguments failed to decode. */
  lemma {:induction false} RunFromRaises(h: seq<Message>, runId: string, replies: seq<Completion>,
                                         decode: Decoder, tool: ToolService)
    ensures var (o, h') := RunFrom(h, runId, replies, decode, tool);
      o.Raised? ==> |h'| > |h| && h'[|h'| - 1].Raw? && h'[|h'| - 1].reply.toolCalls != []
    decreases |replies|
  {
    if replies != [] {
      RunFromUnfold(h, runId, replies, 0, decode, tool);
      assert replies[0..] == replies;
      StepStops(runId, replies[0], decode, tool);
      var s := Step(runId, replies[0], decode, tool);
      if s.Continue? {
        RunFromRaises(h + s.appended, runId, replies[1..], decode, tool);
      }
    }
  }

  /** The script runs out only when every completion in it asked for a
      tool, as a pseudo-call or as a structured call whose arguments decode;
      `RunFromKeepsAsking` is the converse. */
  lemma {:induction false} RunFromOutOfScript(h: seq<Message>, runId: string, replies: seq<Completion>,
                                              decode: Decoder, tool: ToolService)
    ensures RunFrom(h, runId, replies, decode, tool).0.OutOfScript? ==>
      forall k :: 0 <= k < |replies| ==> AsksForTool(replies[k], decode)
    decreases |replies|
  {
    if replies != [] {
      RunFromUnfold(h, runId, replies, 0, decode, tool);
      assert replies[0..] == replies;
      var s := Step(runId, replies[0], decode, tool);
      StepStops(runId, replies[0], decode, tool);
      if s.Continue? {
        StepContinues(runId, replies[0], decode, tool);
        RunFromOutOfScript(h + s.appended, runId, replies[1..], decode, tool);
        if RunFrom(h, runId, replies, decode, tool).0.OutOfScript? {
          forall k | 1 <= k < |replies|
            ensures AsksForTool(replies[k], decode)
          {
            assert replies[k] == replies[1..][k - 1];
          }
        }
      }
    }
  }

  /** The loop has no cap on its iterations: while every completion asks for
      a tool, as a pseudo-call or as a structured call whose arguments
      decode, the loop asks for another one, so it runs out of script. */
  lemma {:induction false} RunFromKeepsAsking(h: seq<Message>, runId: string, replies: seq<Completion>,
                                              decode: Decoder, tool: ToolService)
    requires forall k :: 0 <= k < |replies| ==> AsksForTool(replies[k], decode)
    ensures RunFrom(h, runId, replies, decode, tool).0 == OutOfScript
    decreases |replies|
  {
    if replies != [] {
      RunFromUnfold(h, runId, replies, 0, decode, tool);
      assert replies[0..] == replies;
      StepContinues(runId, replies[0], decode, tool);
      var s := Step(runId, replies[0], decode, tool);
      forall k | 0 <= k < |replies[1..]|
        ensures replies[1..][k] == replies[k + 1]
      {
      }
      RunFromKeepsAsking(h + s.appended, runId, replies[1..], decode, tool);
    }
  }

  /** A completion failure right after the user's input ends the turn with
      the apology, and the history holds nothing beyond that input. */
  lemma ApologyOnServiceError(h: seq<Message>, runId: string, userInput: string, replies: seq<Completion>,
                              decode: Decoder, tool: ToolService)
    requires replies != [] && replies[0] == ServiceError
    ensures Turn(h, runId, userInput, replies, decode, tool) == (Returned(APOLOGY), h + [Entry(User, userInput)])
  {
    var h0 := h + [Entry(User, userInput)];
    RunFromUnfold(h0, runId, replies, 0, decode, tool);
    assert replies[0..] == replies;
    assert h0 + [] == h0;
  }

  /** A structured call that carries no arguments, or an empty text, is
      decoded from `"{}"`: with a decoder that reads that as the empty object,
      any tool but the short-term memory write is called with no arguments. */
  lemma StructuredCallWithoutArguments(runId: string, reply: Reply, decode: Decoder, tool: ToolService)
    requires reply.toolCalls != [] && reply.toolCalls[0].arguments in {None, Some([])}
    requires reply.toolCalls[0].name != SHORT_MEMORY_TOOL
    requires decode("{}") == Success(JObject(map[]))
    ensures Step(runId, Responded(reply), decode, tool)
         == Continue([Raw(reply), ToolEntry(reply.toolCalls[0].id, reply.toolCalls[0].name,
                                            ToolEntryText(tool(reply.toolCalls[0].name, JObject(map[]))))])
  {
    StepEffects(runId, Responded(reply), decode, tool);
  }

  /** Argument text of a structured call that does not decode is not turned
      into a tool entry: the error escapes the turn, and the history keeps the
      assistant message already appended for that call. */
  lemma DecodeFailureEscapes(h: seq<Message>, runId: string, userInput: string, replies: seq<Completion>,
                             decode: Decoder, tool: ToolService)
    requires replies != [] && replies[0].Responded? && replies[0].reply.toolCalls != []
    requires decode(ArgumentsText(replies[0].reply.toolCalls[0].arguments)).Failure?
    ensures Turn(h, runId, userInput, replies, decode, tool)
         == (Raised(decode(ArgumentsText(replies[0].reply.toolCalls[0].arguments)).error),
             h + [Entry(User, userInput), Raw(replies[0].reply)])
  {
    var h0 := h + [Entry(User, userInput)];
    StepEffects(runId, replies[0], decode, tool);
    RunFromUnfold(h0, runId, replies, 0, decode, tool);
    assert replies[0..] == replies;
    assert h0 + [Raw(replies[0].reply)] == h + [Entry(User, userInput), Raw(replies[0].reply)];
  }

  /** The tool entries of the history stay correlated with the structured
      calls they answer across a turn. */
  lemma {:induction false} RunFromKeepsCorrelation(h: seq<Message>, runId: string, replies: seq<Completion>,
                                                   decode: Decoder, tool: ToolService)
    requires Correlated(h)
    ensures Correlated(RunFrom(h, runId, replies, decode, tool).1)
    decreases |replies|
  {
    if replies != [] {
      var s := Step(runId, replies[0], decode, tool);
      StepKeepsCorrelation(h, runId, replies[0], decode, tool);
      if s.Continue? {
        RunFromKeepsCorrelation(h + s.appended, runId, replies[1..], decode, tool);
      }
    }
  }

  /** One iteration keeps the history correlated. */
  lemma StepKeepsCorrelation(h: seq<Message>, runId: string, c: Completion, decode: Decoder, tool: ToolService)
    requires Correlated(h)
    ensures Correlated(h + Step(runId, c, decode, tool).appended)
  {
    StepEffects(runId, c, decode, tool);
    var a := Step(runId, c, decode, tool).appended;
    var h' := h + a;
    forall k | 0 <= k < |h'| && h'[k].ToolEntry?
      ensures 0 < k && h'[k - 1].Raw? && h'[k - 1].reply.toolCalls != []
        && h'[k - 1].reply.toolCalls[0].id == h'[k].toolCallId
        && h'[k - 1].reply.toolCalls[0].name == h'[k].name
    {
      if k < |h| {
        assert h'[k] == h[k] && h'[k - 1] == h[k - 1];
      } else {
        assert h'[k] == a[k - |h|];
        assert k - |h| == 1 && h'[k - 1] == a[0];
      }
    }
  }

  /** A turn with a session whose history is correlated leaves it correlated. */
  lemma TurnKeepsCorrelation(h: seq<Message>, runId: string, userInput: string, replies: seq<Completion>,
                             decode: Decoder, tool: ToolService)
    requires Correlated(h)
    ensures Correlated(Turn(h, runId, userInput, replies, decode, tool).1)
  {
    var h0 := h + [Entry(User, userInput)];
    forall k | 0 <= k < |h0| && h0[k].ToolEntry?
      ensures 0 < k && h0[k - 1].Raw? && h0[k - 1].reply.toolCalls != []
        && h0[k - 1].reply.toolCalls[0].id == h0[k].toolCallId
        && h0[k - 1].reply.toolCalls[0].name == h0[k].name
    {
      assert h0[k] == h[k] && h0[k - 1] == h[k - 1];
    }
    RunFromKeepsCorrelation(h0, runId, replies, decode, tool);
  }

  /** A session: the history it replays to the completion service and the id
      it was given at start (`session_run_id`). */
  class Session {
    var history: seq<Message>
    const runId: string

    ghost predicate Valid()
      reads this
    {
      Correlated(history)
    }

    /** A session starts with the system prompt as its only entry. */
    constructor (systemPrompt: string, runId: string)
      ensures Valid()
      ensures history == [Entry(System, systemPrompt)] && this.runId == runId
    {
      history := [Entry(System, systemPrompt)];
      this.runId := runId;
    }

    /** The `try` around a tool call: a short-term memory write gets the
        session's `run_id` in its arguments, then the tool is called. */
    method CallTool(toolName: string, toolArgs: Json, tool: ToolService) returns (result: Result<string, string>)
      ensures result == Dispatch(toolName, toolArgs, runId, tool)
    {
      var args := toolArgs;
      if toolName == SHORT_MEMORY_TOOL {
        if !args.JObject? {
          return Failure(ItemAssignmentError(args));
        }
        args := JObject(args.members[RUN_ID_KEY := JString(runId)]);
      }
      result := tool(toolName, args);
    }

    /** The `try` around a pseudo-call: parse the text, decode the
        arguments, call the tool, and phrase the result or the failure as the
        user entry to append. */
    method ReportPseudoCall(content: string, decode: Decoder, tool: ToolService) returns (report: string)
      ensures report == PseudoCallReport(content, runId, decode, tool)
    {
      var parsed := ParsePseudoCall(content);
      if parsed.Failure? {
        return PSEUDO_FAILURE_PREFIX + parsed.error;
      }
      var toolName := parsed.value.name;
      var decoded := decode(parsed.value.blob);
      if decoded.Failure? {
        return PSEUDO_FAILURE_PREFIX + decoded.error;
      }
      var result := CallTool(toolName, decoded.value, tool);
      if result.Failure? {
        return PSEUDO_FAILURE_PREFIX + result.error;
      }
      report := "The tool '" + toolName + "' returned this result:\n" + result.value;
    }

    /** `run_agent_turn` on this session's history. */
    method RunAgentTurn(userInput: string, replies: seq<Completion>, decode: Decoder, tool: ToolService)
      returns (outcome: Outcome)
      requires Valid()
      modifies this
      ensures Valid()
      ensures (outcome, history) == Turn(old(history), runId, userInput, replies, decode, tool)
    {
      TurnKeepsCorrelation(history, runId, userInput, replies, decode, tool);
      history := history + [Entry(User, userInput)];
      var i := 0;
      while i < |replies|
        invariant 0 <= i <= |replies|
        invariant RunFrom(history, runId, replies[i..], decode, tool)
               == Turn(old(history), runId, userInput, replies, decode, tool)
      {
        var c := replies[i];
        RunFromUnfold(history, runId, replies, i, decode, tool);
        StepEffects(runId, c, decode, tool);
        ghost var before := history;
        ghost var step := Step(runId, c, decode, tool);
        i := i + 1;
        if c.ServiceError? {
          assert history + [] == history;
          return Returned(APOLOGY);
        }
        var msg := c.reply;
        if msg.toolCalls != [] {
          history := history + [Raw(msg)];
          var toolCall := msg.toolCalls[0];
          var toolName := toolCall.name;
          var decoded := decode(ArgumentsText(toolCall.arguments));
          if decoded.Failure? {
            return Raised(decoded.error);
          }
          var result := CallTool(toolName, decoded.value, tool);
          var resultContent := if result.Success? then result.value else TOOL_ERROR_PREFIX + result.error;
          history := history + [ToolEntry(toolCall.id, toolName, resultContent)];
          assert step.appended == [Raw(msg), ToolEntry(toolCall.id, toolName, resultContent)];
          assert history == before + step.appended;
        } else if msg.content.Some? && msg.content.value != [] && StartsWith(Strip(msg.content.value), MARKER) {
          var report := ReportPseudoCall(msg.content.value, decode, tool);
          history := history + [Entry(User, report)];
          assert history == before + step.appended;
        } else {
          var assistantText := FinalText(msg.content);
          history := history + [Entry(Assistant, assistantText)];
          return Returned(assistantText);
        }
      }
      return OutOfScript;
    }
  }
}
