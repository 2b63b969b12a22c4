/** Tool Call Parser and Tool Dispatcher: how one tool invocation is read
    from a completion reply, how the session's `run_id` is injected into its
    arguments, and how it is handed to the tool execution service. */
module ToolCalls {

  import opened Wrappers
  import opened Json
  import opened PyStr

  /** The literal prefix of a pseudo-call written as text by the model. */
  const MARKER := "<function="
  /** The one session-scoped tool whose arguments get the session id. */
  const SHORT_MEMORY_TOOL := "add_short_memory"
  const RUN_ID_KEY := "run_id"
  /** `str(e)` of the `IndexError` raised by `func_part[1]`. */
  const INDEX_ERROR := "list index out of range"

  /** The tool execution service: runs a named tool on an argument value and
      yields `str(result)`, or `str(e)` of the exception it raised. */
  type ToolService = (string, Json) -> Result<string, string>

  /** A pseudo-call as split out of the text: the tool name and the text of
      the argument object, not yet decoded. */
  datatype PseudoCall = PseudoCall(name: string, blob: string)

  /** `tool_call.function.arguments or "{}"`: the text to decode for a
      structured call. */
  function ArgumentsText(arguments: Option<string>): (text: string)
    ensures arguments == None || arguments == Some([]) ==> text == "{}"
    ensures arguments.Some? && arguments.value != [] ==> text == arguments.value
    ensures text != []
  {
    match arguments
    case Some(a) => if a == [] then "{}" else a
    case None => "{}"
  }

  /** The pseudo-call split: the name is the text before the first `{` with
      every `<function=` removed and whitespace stripped; the argument text is
      `{`, the text after that `{` up to the last `}` (or all of it when no
      `}` follows), and `}`. Without any `{` it fails as `func_part[1]` does. */
  function ParsePseudoCall(content: string): (r: Result<PseudoCall, string>)
    ensures r.Failure? <==> '{' !in content
    ensures r.Failure? ==> r.error == INDEX_ERROR
    ensures r.Success? ==>
      |r.value.blob| >= 2 && r.value.blob[0] == '{' && r.value.blob[|r.value.blob| - 1] == '}'
  {
    var funcPart := SplitOnce(content, '{');
    var toolName := Strip(ReplaceAll(funcPart[0], MARKER, ""));
    if |funcPart| < 2 then Failure(INDEX_ERROR)
    else Success(PseudoCall(toolName, "{" + RSplitOnce(funcPart[1], '}')[0] + "}"))
  }

  /** The rest of a text after its first `{` is closed by the last `}` in it,
      with nothing but `}`-free text after that, or it has no `}` at all. */
  predicate ClosesAt(inner: string, rest: string) {
    (rest == [] && '}' !in inner) || (rest != [] && rest[0] == '}' && '}' !in rest[1..])
  }

  /** Splitting at the first `{` of a text whose head has none. */
  lemma SplitAtFirstBrace(head: string, tail: string)
    requires '{' !in head
    ensures SplitOnce(head + "{" + tail, '{') == [head, tail]
  {
    var s := head + "{" + tail;
    assert s[|head|] == '{';
    var parts := SplitOnce(s, '{');
    SplitAt(parts[0], parts[1], head, tail, '{');
  }

  /** Splitting at the last `}` of a remainder that `ClosesAt` describes keeps
      exactly the inner text before it. */
  lemma SplitAtLastBrace(inner: string, rest: string)
    requires ClosesAt(inner, rest)
    ensures RSplitOnce(inner + rest, '}')[0] == inner
  {
    if rest == [] {
      assert inner + rest == inner;
    } else {
      var s := inner + rest;
      assert s == inner + ['}'] + rest[1..];
      assert s[|inner|] == '}';
      var parts := RSplitOnce(s, '}');
      RSplitAt(parts[0], parts[1], inner, rest[1..], '}');
    }
  }

  /** What the parser extracts, for every text with a `{`: the name comes from
      the text before the first `{`, and the argument text is the outermost
      span from that `{` to the last `}`, whatever braces lie inside it; a
      missing `}` is made up for rather than reported. */
  lemma ParsePseudoCallSpan(head: string, inner: string, rest: string)
    requires '{' !in head && ClosesAt(inner, rest)
    ensures ParsePseudoCall(head + "{" + inner + rest)
         == Success(PseudoCall(Strip(ReplaceAll(head, MARKER, "")), "{" + inner + "}"))
  {
    assert head + "{" + inner + rest == head + "{" + (inner + rest);
    SplitAtFirstBrace(head, inner + rest);
    SplitAtLastBrace(inner, rest);
  }

  /** A text that starts with `p`'s first character nowhere cannot contain `p`. */
  lemma AbsentWithoutFirstChar(s: string, p: string)
    requires p != [] && p[0] !in s
    ensures !Occurs(s, p)
  {
    forall k | 0 <= k <= |s| ensures !StartsWith(s[k..], p) {
      assert k < |s| ==> s[k..][0] == s[k];
    }
  }

  /** Round trip: a pseudo-call written as `<function=NAME{ARGS}` followed by
      text without `}` (such as the optional `>`) parses back to NAME and
      `{ARGS}`, when NAME has no `{`, no `<function=` and no edge whitespace. */
  lemma PseudoCallRoundTrip(name: string, args: string, suffix: string)
    requires '{' !in name && !Occurs(name, MARKER)
    requires name == [] || (!IsSpace(name[0]) && !IsSpace(name[|name| - 1]))
    requires '}' !in suffix
    ensures ParsePseudoCall(MARKER + name + "{" + args + "}" + suffix)
         == Success(PseudoCall(name, "{" + args + "}"))
  {
    assert MARKER + name + "{" + args + "}" + suffix == (MARKER + name) + "{" + args + ("}" + suffix);
    assert ("}" + suffix)[1..] == suffix;
    ParsePseudoCallSpan(MARKER + name, args, "}" + suffix);
    ReplaceAllLeading(name, MARKER, "");
    ReplaceAllAbsent(name, MARKER, "");
    StripUnchanged(name);
  }

  /** The example of a well-formed pseudo-call for the web search tool:
      `name` is `web_search` and the argument text is `{"query": "weather"}`. */
  lemma WebSearchExample(content: string, name: string, args: string)
    requires content == "<function=web_search{\"query\": \"weather\"}>"
    requires name == "web_search" && args == "\"query\": \"weather\""
    ensures ParsePseudoCall(content) == Success(PseudoCall(name, "{" + args + "}"))
  {
    assert content == MARKER + name + "{" + args + "}" + ">";
    AbsentWithoutFirstChar(name, MARKER);
    PseudoCallRoundTrip(name, args, ">");
  }

  /** A pseudo-call whose argument object lacks its closing brace still
      parses: the whole remainder after the first `{` is wrapped in braces. */
  lemma UnclosedPseudoCallParses(name: string, inner: string)
    requires '{' !in name && !Occurs(name, MARKER)
    requires name == [] || (!IsSpace(name[0]) && !IsSpace(name[|name| - 1]))
    requires '}' !in inner
    ensures ParsePseudoCall(MARKER + name + "{" + inner)
         == Success(PseudoCall(name, "{" + inner + "}"))
  {
    assert MARKER + name + "{" + inner == (MARKER + name) + "{" + inner + [];
    ParsePseudoCallSpan(MARKER + name, inner, []);
    ReplaceAllLeading(name, MARKER, "");
    ReplaceAllAbsent(name, MARKER, "");
    StripUnchanged(name);
  }

  /** The same on a concrete text that lacks the closing `}`. */
  lemma UnclosedBraceExample(content: string, name: string, inner: string)
    requires content == "<function=get_memories{\"user_id\": \"Alice\""
    requires name == "get_memories" && inner == "\"user_id\": \"Alice\""
    ensures ParsePseudoCall(content) == Success(PseudoCall(name, "{" + inner + "}"))
  {
    assert content == MARKER + name + "{" + inner;
    AbsentWithoutFirstChar(name, MARKER);
    UnclosedPseudoCallParses(name, inner);
  }

  /** `if tool_name == "add_short_memory": tool_args['run_id'] = session_run_id`:
      only that tool's arguments change, and then only at `run_id`, which
      takes the session's id whatever the model put there. Assigning a key to
      a decoded value that is not an object raises Python's `TypeError`. */
  function InjectRunId(name: string, args: Json, runId: string): (r: Result<Json, string>)
    ensures name != SHORT_MEMORY_TOOL ==> r == Success(args)
    ensures name == SHORT_MEMORY_TOOL && !args.JObject? ==> r == Failure(ItemAssignmentError(args))
    ensures name == SHORT_MEMORY_TOOL && args.JObject? ==>
      && r.Success? && r.value.JObject?
      && r.value.members.Keys == args.members.Keys + {RUN_ID_KEY}
      && r.value.members[RUN_ID_KEY] == JString(runId)
      && forall k :: k in args.members && k != RUN_ID_KEY ==> r.value.members[k] == args.members[k]
  {
    if name != SHORT_MEMORY_TOOL then Success(args)
    else match args
      case JObject(m) => Success(JObject(m[RUN_ID_KEY := JString(runId)]))
      case _ => Failure(ItemAssignmentError(args))
  }

  /** The body of the `try` around a tool call once its arguments are
      decoded: inject the session id, then call the tool. */
  function Dispatch(name: string, args: Json, runId: string, tool: ToolService): (r: Result<string, string>)
    ensures name != SHORT_MEMORY_TOOL ==> r == tool(name, args)
  {
    match InjectRunId(name, args, runId)
    case Success(a) => tool(name, a)
    case Failure(e) => Failure(e)
  }

  /** The model cannot choose the `run_id` of a short-term memory write: two
      argument objects that differ at most at `run_id` are dispatched alike,
      and the tool receives the session's id there. */
  lemma SessionRunIdWins(m1: map<string, Json>, m2: map<string, Json>, runId: string, tool: ToolService)
    requires m1 - {RUN_ID_KEY} == m2 - {RUN_ID_KEY}
    ensures Dispatch(SHORT_MEMORY_TOOL, JObject(m1), runId, tool)
         == Dispatch(SHORT_MEMORY_TOOL, JObject(m2), runId, tool)
         == tool(SHORT_MEMORY_TOOL, JObject((m1 - {RUN_ID_KEY})[RUN_ID_KEY := JString(runId)]))
  {
    var m := m1 - {RUN_ID_KEY};
    assert m1[RUN_ID_KEY := JString(runId)] == m[RUN_ID_KEY := JString(runId)];
    assert m2[RUN_ID_KEY := JString(runId)] == m[RUN_ID_KEY := JString(runId)];
  }
}
