# Agent turn loop of the Memoria chat client, modelled in Dafny

The Memoria client answers a user's message by calling a language-model
completion service and a set of remote tools (web search, short- and
long-term memory) until the model gives a final answer. Its core is
`run_agent_turn`, together with the loop in `chat_loop` that adapts the tool
catalog for the completion service. `src/client.py` and
`mcp-backend/client.py` are byte-identical copies, so one model covers both,
and every `src/client.py` line cited below holds the same code in
`mcp-backend/client.py`.

The model has these parts:

- `PyStr` (`pystr.dfy`): the Python string operations the pseudo-call parser
  uses: `isspace`, `strip`, `startswith`, `split(sep, 1)`, `rsplit(sep, 1)`
  and `replace`.
- `Json` (`json.dfy`): decoded JSON values, and the `TypeError` text Python
  gives when `value['run_id'] = ...` is applied to a value that is not a
  dictionary. `json.loads` is a caller-supplied `Decoder` that either returns
  a value or fails with the decode error's text.
- `ToolCalls` (`toolcalls.dfy`): the tool-call parser and the dispatcher.
  This covers the `arguments or "{}"` default, the pseudo-call split at the
  first `{` and the last `}`, the `run_id` rule for `add_short_memory`, and
  the call to the tool service. The tool service is a caller-supplied
  function that returns either `str(result)` or `str(e)`.
- `Conversation` (`conversation.dfy`): the completion replies and the
  history entries. A history entry is a role/content dictionary, the raw
  assistant message of a structured call, or a `role: "tool"` entry.
- `AgentTurn` (`turn.dfy`): the turn controller.
  - `Step` is one iteration of the loop.
  - `RunFrom` and `Turn` are the whole loop, defined as functions.
  - The lemmas state the properties of the loop.
  - The class `Session` holds the `history` the loop appends to in place
    and the constant `runId`.
  - `Session.RunAgentTurn` is the imperative `while` loop, proved equal to
    `Turn`.
  - The completion service is the script of the results its successive
    calls give. When the script runs out, the turn ends with `OutOfScript`.
- `TurnScenario` (`scenario.dfy`): a whole turn with two structured tool
  calls and a final answer.
- `ToolSchema` (`schema.dfy`): the schema adapter loop of `chat_loop`.

The model follows what the code does in three places where a reader might
expect something else:

- A failed tool call gets a tool entry whose text is
  `Error executing tool: <e>`. The text does not name the tool; the entry's
  `name` field does. No separate field marks success or holds the cause.
- Arguments of a structured call that do not decode are not turned into a
  message the model can read. `json.loads` runs before the `try`, so the
  exception leaves the turn after the assistant message has been appended.
  The model's outcome for this is `Raised`.
- No exception is converted into a message at the end of a turn. The loop
  catches only the completion call's exceptions and those inside the two
  tool `try` blocks.

## Model

| member | source | states |
|---|---|---|
| PyStr.Strip | src/client.py:103 | `strip()` gives a slice of the text whose ends are not whitespace and outside of which everything is whitespace |
| PyStr.TrimStart | src/client.py:110 | the text without its leading whitespace: a suffix that starts with a non-space character, with only whitespace dropped before it |
| PyStr.TrimEnd | src/client.py:103 | the text without its trailing whitespace: a prefix that ends with a non-space character, with only whitespace dropped after it |
| PyStr.SplitOnce | src/client.py:109 | `split('{', 1)` gives the text before the first `{` (which holds no `{`) and the text after it, or the whole text alone when there is no `{` |
| PyStr.RSplitOnce | src/client.py:111 | `rsplit('}', 1)` gives the text before the last `}` and the text after it (which holds no `}`), or the whole text alone when there is no `}` |
| PyStr.ReplaceAllAbsent | src/client.py:110 | `replace` leaves a text unchanged when the pattern does not occur in it |
| PyStr.ReplaceAllLeading | src/client.py:110 | a leading `<function=` is replaced and the scan resumes right after it |
| PyStr.StripUnchanged | src/client.py:103 | `strip()` leaves a text with no whitespace at either end as it is |
| PyStr.SplitAt | src/client.py:109 | the text before the first separator and the text after it are determined uniquely |
| PyStr.RSplitAt | src/client.py:111 | the text before the last separator and the text after it are determined uniquely |
| ToolCalls.ArgumentsText | src/client.py:64 | absent or empty structured arguments are read as `"{}"`; any other text is decoded as it is |
| ToolCalls.ParsePseudoCall | src/client.py:109-111 | the parse fails exactly when the text has no `{`, with the `IndexError` text; otherwise the argument text starts with `{` and ends with `}` |
| ToolCalls.ParsePseudoCallSpan | src/client.py:109-111 | for every text with a `{`: the name is the stripped text before the first `{` with `<function=` removed; the argument text is the outermost span from that `{` to the last `}`, or the whole remainder when no `}` follows, wrapped in braces |
| ToolCalls.PseudoCallRoundTrip | mcp-backend/client.py:109-112 | writing `<function=NAME{ARGS}` plus text without `}` and parsing it gives back NAME and `{ARGS}` |
| ToolCalls.WebSearchExample | src/client.py:106-112 | `<function=web_search{"query": "weather"}>` parses to the name `web_search` and the argument text `{"query": "weather"}` |
| ToolCalls.UnclosedPseudoCallParses | src/client.py:111 | a pseudo-call whose braces are not closed does not fail: the remainder after the first `{` is wrapped in braces |
| ToolCalls.UnclosedBraceExample | mcp-backend/client.py:111 | `<function=get_memories{"user_id": "Alice"` parses to `get_memories` and `{"user_id": "Alice"}` |
| ToolCalls.InjectRunId | src/client.py:69-70 | only `add_short_memory` arguments change; for it `run_id` is the session id, every other key keeps its value and no other key is added; a non-object value raises the `TypeError` |
| ToolCalls.Dispatch | src/client.py:115-118 | any tool other than `add_short_memory` is called with its arguments unchanged |
| ToolCalls.SessionRunIdWins | mcp-backend/client.py:69-116 | argument objects that differ only at `run_id` are dispatched alike, and the memory tool always receives the session's id there |
| AgentTurn.FinalText | mcp-backend/client.py:138 | the final answer is the content when it is non-empty, and otherwise `I'm finished with the task.`; it is never empty |
| AgentTurn.PseudoCallReport | src/client.py:107-130 | the user entry of a pseudo-call starts with `I tried to call a tool but failed: ` exactly when parsing, decoding, injection or the tool failed. The prefix is followed by that failure's own text: the `IndexError` when there is no `{`, the decode error, or the injection's `TypeError` or the tool's error. Otherwise the entry is `The tool 'NAME' returned this result:`, a newline and the result |
| AgentTurn.StepEffects | src/client.py:42-140 | one iteration, by branch priority. A failed completion appends nothing and returns the apology. A non-empty `tool_calls` wins over any content: the raw assistant message is appended first; if `tool_calls[0]`'s arguments do not decode the turn raises, otherwise one tool entry follows with that call's id and name and the result or `Error executing tool: <e>`. A pseudo-call appends one user entry and continues. Anything else appends and returns the final answer |
| AgentTurn.StepStops | mcp-backend/client.py:42-140 | an iteration ends the turn only with the apology and nothing appended, with a raised decode error after one structured message, or with a non-empty final answer appended as the one assistant entry |
| AgentTurn.StepContinues | src/client.py:58-133 | an iteration lets the loop go on exactly when the completion succeeded and is a pseudo-call or a structured call whose first call's arguments decode |
| AgentTurn.RunFrom | src/client.py:38-140 | the loop only appends to the history, never changing an earlier entry, and adds at most two entries per completion |
| AgentTurn.Turn | mcp-backend/client.py:34 | a turn keeps the prior history as a prefix, followed first by the user entry with the input |
| AgentTurn.RunFromReturns | src/client.py:135-140 | a turn returns either a non-empty final answer that is also the last history entry, or the apology after a failed completion call |
| AgentTurn.RunFromRaises | src/client.py:60-67 | an exception leaves the turn only right after a structured call's assistant message |
| AgentTurn.RunFromOutOfScript | src/client.py:38 | the loop wants another completion only when every reply in the script asked for a tool as a pseudo-call or as a structured call whose arguments decode; with RunFromKeepsAsking this is an if-and-only-if |
| AgentTurn.RunFromKeepsAsking | src/client.py:38 | the loop has no cap: as long as every reply is a pseudo-call, or a structured call whose arguments decode, the loop asks for another completion, however many there are |
| AgentTurn.ApologyOnServiceError | src/client.py:42-55 | a failing completion call returns exactly the apology, and the history holds nothing beyond the user entry |
| AgentTurn.StructuredCallWithoutArguments | src/client.py:62-72 | a structured call without arguments is decoded from `"{}"`. For any tool other than `add_short_memory`, and a decoder that reads `"{}"` as the empty object, that tool receives the empty object and its result becomes the tool entry |
| AgentTurn.DecodeFailureEscapes | src/client.py:58-67 | undecodable structured arguments raise out of the turn; the assistant message appended before the decode stays in the history and no tool entry follows |
| AgentTurn.StepKeepsCorrelation | src/client.py:77-91 | each tool entry appended directly follows the structured message whose first call it answers, with that call's id and name |
| AgentTurn.RunFromKeepsCorrelation | mcp-backend/client.py:60-91 | across the loop, every tool entry stays correlated with the structured call before it |
| AgentTurn.TurnKeepsCorrelation | src/client.py:34-94 | a whole turn, including the user entry, keeps the history correlated |
| AgentTurn.Session.constructor | src/client.py:193-197 | a session starts with the system prompt as its only entry and keeps the id it is given |
| AgentTurn.Session.CallTool | src/client.py:67-72 | the in-place `tool_args['run_id'] = session_run_id` followed by `call_tool` is the dispatcher's result |
| AgentTurn.Session.ReportPseudoCall | src/client.py:107-130 | the `try` around a pseudo-call produces exactly the report the specification function gives |
| AgentTurn.Session.RunAgentTurn | src/client.py:22-140 | the imperative loop leaves the outcome and the history that `Turn` gives, and keeps the history's tool entries correlated |
| TurnScenario.StructuredStep | src/client.py:58-94 | a structured call whose arguments decode and whose dispatch succeeds appends exactly its message and a tool entry with the call's id, name and result, and the loop goes on |
| TurnScenario.PlainAnswerStep | src/client.py:103-140 | a reply without tool calls whose text has no edge whitespace and does not start with `<` is returned as the final answer and appended as the assistant entry |
| TurnScenario.TwoCallsThenAnswer | src/client.py:34-140 | two successful structured calls and then a plain answer: the turn returns the answer, and the history gains the user entry, each call's message with its tool entry, and the assistant entry, in that order |
| TurnScenario.AliceTurn | src/client.py:38-94 | "I am Alice", then `get_memories`, then `add_short_memory` with the session's `run_id` injected, then a final text: the turn returns that text after exactly two tool calls, and the history gains the user entry, two message/tool-entry pairs and the final assistant entry |
| ToolSchema.AdaptTools | src/client.py:157-167 | the adapted list has the catalog's length and order; each entry is of type `function` and has the tool's name, its description, and the schema's `parameters`, or `{}` when there is none |

## Left out

- The completion service is a script of what its calls yield. The request
  it is sent is not modelled: model name, temperature, `tool_choice`,
  `max_tokens`, the history and the adapted tool list. Nor is the way a real
  model's reply depends on that request.
- The tool service is a single function of tool name and arguments. A tool
  whose answer depends on earlier calls, such as a memory read after a
  write, is not modelled.
- `json.loads` is an arbitrary decoder, and `str(result)` and `str(e)` are
  the texts the oracles return. The model does not reimplement JSON.
- `json.dumps` appears only in the progress prints, so it is left out.
- Dictionary key order is not modelled. A JSON object is a `map`.
- `async`/`await`, the MCP transport, `ping`, `list_tools` and the Groq
  client are not modelled. These are network I/O.
- `uuid4` is not modelled. The session id is a constructor parameter.
- The text of the system prompt is not modelled. It is a constructor
  parameter.
- The `input()`/`print` REPL of `chat_loop` and its `exit`/`quit` handling
  are left out. This is console I/O.
- Logging and every `print`, including the 300-character slice of a result
  that is printed, are left out. None of them changes state.
- `t.model_json_schema(by_alias=True)` is taken as any dictionary per
  catalog tool. What the pydantic library returns for it is not part of
  this model.
- `mcp-backend/server.py`, `src/server.py` and `configs/config.py` are not
  part of this model. They are tool wrappers over third-party SDKs and
  environment loading.
- OutOfScript is not an outcome of the source, whose loop has no cap. The
  script's length bounds the model's loop.
