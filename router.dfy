/** `RouterNode.execute` (agents/diary/diary_nodes.py): picks the next step
    of the diary conversation from the message log alone. The rules are
    tried in a fixed order and the first that applies wins. */
module Router {
  import opened Text
  import opened States

  datatype Route = Info | SuggestKeywordsMessage | CreateEntry | GenerateDiaryBody | End

  /** The node names the graph is wired with; `End` is LangGraph's END. */
  function RouteName(r: Route): string {
    match r
    case Info => "info"
    case SuggestKeywordsMessage => "suggest_keywords_message"
    case CreateEntry => "create_entry"
    case GenerateDiaryBody => "generate_diary_body"
    case End => "__end__"
  }

  /** The router's answers are told apart by their node names. */
  lemma RouteNamesDistinct(a: Route, b: Route)
    ensures RouteName(a) == RouteName(b) <==> a == b
  {
  }

  const KeywordToolName: string := "suggest_keywords_tool"
  const EntryToolName: string := "DiaryEntry"

  /** An AI message whose `tool_calls` list is non-empty. */
  predicate HasToolCalls(m: Message) {
    m.AIMessage? && m.toolCalls != []
  }

  /** The name of the first tool call, the only one the router looks at. */
  function FirstToolName(m: Message): string
    requires HasToolCalls(m)
  {
    m.toolCalls[0].name
  }

  /** The user typed "q" (surrounding whitespace and case ignored). */
  predicate IsQuitSignal(m: Message) {
    m.HumanMessage? && Lower(Strip(m.content)) == "q"
  }

  /** The route for a log: the tool-call rule first, then the quit rule,
      then END unless the user spoke last. */
  function NextRoute(messages: seq<Message>): (r: Route)
    ensures messages == [] ==> r == Info
    ensures r == SuggestKeywordsMessage <==>
              messages != [] && HasToolCalls(messages[|messages| - 1])
              && FirstToolName(messages[|messages| - 1]) == KeywordToolName
    ensures r == CreateEntry <==>
              messages != [] && HasToolCalls(messages[|messages| - 1])
              && FirstToolName(messages[|messages| - 1]) == EntryToolName
    ensures r == GenerateDiaryBody ==> |messages| >= 2 && IsQuitSignal(messages[|messages| - 2])
    ensures r == End ==> messages != [] && !messages[|messages| - 1].HumanMessage?
  {
    if messages == [] then Info
    else
      var last := messages[|messages| - 1];
      if HasToolCalls(last) && FirstToolName(last) == KeywordToolName then SuggestKeywordsMessage
      else if HasToolCalls(last) && FirstToolName(last) == EntryToolName then CreateEntry
      else if |messages| >= 2 && IsQuitSignal(messages[|messages| - 2]) then GenerateDiaryBody
      else if !last.HumanMessage? then End
      else Info
  }

  /** The quit signal is exactly a user message that strips to "q" or "Q". */
  lemma QuitSignalExact(m: Message)
    ensures IsQuitSignal(m) <==> m.HumanMessage? && (Strip(m.content) == "q" || Strip(m.content) == "Q")
  {
    if m.HumanMessage? {
      LowerIsQ(Strip(m.content));
    }
  }

  /** An empty log starts the conversation. */
  lemma EmptyLogRoutesToInfo()
    ensures NextRoute([]) == Info
  {
  }

  /** The tool-call rule comes first: whatever precedes the last message,
      a first tool call naming one of the two tools picks its node. */
  lemma ToolCallWins(prefix: seq<Message>, last: Message)
    requires HasToolCalls(last)
    ensures FirstToolName(last) == KeywordToolName ==> NextRoute(prefix + [last]) == SuggestKeywordsMessage
    ensures FirstToolName(last) == EntryToolName ==> NextRoute(prefix + [last]) == CreateEntry
  {
  }

  /** A first tool call naming neither tool is ignored: the route is that of
      the quit rule, or END, since the last message is not the user's. */
  lemma OtherToolFallsThrough(prefix: seq<Message>, last: Message)
    requires HasToolCalls(last)
    requires FirstToolName(last) != KeywordToolName && FirstToolName(last) != EntryToolName
    ensures NextRoute(prefix + [last]) ==
              if prefix != [] && IsQuitSignal(prefix[|prefix| - 1]) then GenerateDiaryBody else End
  {
    var m := prefix + [last];
    assert m[|m| - 1] == last;
    if prefix != [] {
      assert m[|m| - 2] == prefix[|prefix| - 1];
    }
  }

  /** The quit rule looks only at the second-to-last message: unless the
      last one carries a recognised tool call, whatever kind it is, the
      diary body is generated next. */
  lemma QuitRule(prefix: seq<Message>, q: Message, last: Message)
    requires IsQuitSignal(q)
    requires !(HasToolCalls(last) && FirstToolName(last) in {KeywordToolName, EntryToolName})
    ensures NextRoute(prefix + [q, last]) == GenerateDiaryBody
  {
    var m := prefix + [q, last];
    assert m[|m| - 2] == q && m[|m| - 1] == last;
  }

  /** Without a recognised tool call and without the quit signal, the
      conversation continues only when the user spoke last. */
  lemma DefaultRoutes(messages: seq<Message>)
    requires messages != []
    requires !(HasToolCalls(messages[|messages| - 1])
               && FirstToolName(messages[|messages| - 1]) in {KeywordToolName, EntryToolName})
    requires !(|messages| >= 2 && IsQuitSignal(messages[|messages| - 2]))
    ensures NextRoute(messages) == (if messages[|messages| - 1].HumanMessage? then Info else End)
  {
  }

  /** When the route is Info: exactly an empty log, or a user message last
      that does not follow a quit signal. */
  lemma InfoExactly(messages: seq<Message>)
    ensures NextRoute(messages) == Info <==>
              messages == [] || (messages[|messages| - 1].HumanMessage?
                                 && !(|messages| >= 2 && IsQuitSignal(messages[|messages| - 2])))
  {
  }

  /** Worked example: an entry tool call after "q" still creates an entry,
      because the tool-call rule is tried before the quit rule. */
  lemma EntryCallBeatsQuit(call: ToolCall)
    requires call.name == EntryToolName
    ensures NextRoute([HumanMessage("q"), AIMessage("", [call])]) == CreateEntry
  {
    var m := [HumanMessage("q"), AIMessage("", [call])];
    assert HasToolCalls(m[|m| - 1]) && FirstToolName(m[|m| - 1]) == EntryToolName;
  }

  /** Worked example: " Q " followed by a reply without tool calls ends the
      collection of events. */
  lemma PaddedQuitEndsCollection()
    ensures NextRoute([HumanMessage(" Q "), AIMessage("ok", [])]) == GenerateDiaryBody
  {
    var q, last := HumanMessage(" Q "), AIMessage("ok", []);
    assert Strip(" Q ") == "Q" by {
      assert " Q "[1..] == "Q " == "Q" + " ";
      StripBlankTail("Q", " ");
    }
    LowerIsQ("Q");
    QuitRule([], q, last);
    assert [] + [q, last] == [q, last];
  }
}
