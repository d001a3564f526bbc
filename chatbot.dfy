/** The multi-server chatbot: it connects to the MCP servers of its
    configuration, keeps the tools they offer and which session serves each
    tool name, turns tool results into text and runs the tool-calling
    conversation for each query. Sessions, the servers' answers and the
    model's replies are given. */
module Chatbot {
  import opened Wrappers
  import opened Text
  import opened JsonValues
  import opened PyValues
  import opened Conversation

  /** What connecting to one server comes to: it fails before the session
      is initialised, or the session is initialised and listing its tools
      fails, or the session lists its tools. */
  datatype ConnectAttempt =
    | Refused(error: string)
    | ListFailed(session: Session, error: string)
    | Connected(session: Session, tools: seq<ToolInfo>)

  /** A server of the configuration, in file order, with how connecting to
      it goes. */
  datatype ServerEntry = ServerEntry(name: string, attempt: ConnectAttempt)

  /** The three fields connect_to_server updates. */
  datatype Registry = Registry(sessions: seq<Session>, tools: seq<ToolDescriptor>, owner: map<string, Session>)

  /** tool_to_session after `tool_to_session[tool.name] = session` for each
      listed tool in order. */
  function Bind(owner: map<string, Session>, tools: seq<ToolInfo>, s: Session): map<string, Session>
    decreases |tools|
  {
    if tools == [] then owner
    else Bind(owner, tools[..|tools| - 1], s)[tools[|tools| - 1].name := s]
  }

  /** Binding maps every listed name to the session and leaves every other
      name as it was. */
  lemma {:induction false} BindMaps(owner: map<string, Session>, tools: seq<ToolInfo>, s: Session)
    ensures forall name :: name in Bind(owner, tools, s) <==> name in owner || exists i :: 0 <= i < |tools| && tools[i].name == name
    ensures forall i :: 0 <= i < |tools| ==> Bind(owner, tools, s)[tools[i].name] == s
    ensures forall name :: name in owner && (forall i :: 0 <= i < |tools| ==> tools[i].name != name)
              ==> Bind(owner, tools, s)[name] == owner[name]
    decreases |tools|
  {
    if tools != [] {
      var init := tools[..|tools| - 1];
      BindMaps(owner, init, s);
      assert forall i :: 0 <= i < |init| ==> init[i] == tools[i];
    }
  }

  /** connect_to_server: a session that got past initialize is kept; a
      session that listed its tools adds one descriptor per tool, in order,
      and serves each of those names from now on. */
  function Connect(reg: Registry, a: ConnectAttempt): Registry {
    match a
    case Refused(_) => reg
    case ListFailed(s, _) => reg.(sessions := reg.sessions + [s])
    case Connected(s, tools) => Registry(reg.sessions + [s], reg.tools + Descriptors(tools), Bind(reg.owner, tools, s))
  }

  /** connect_to_servers over the configured servers, in order; a server
      that fails does not stop the others. */
  function ConnectAll(reg: Registry, servers: seq<ServerEntry>): Registry
    decreases |servers|
  {
    if servers == [] then reg
    else Connect(ConnectAll(reg, servers[..|servers| - 1]), servers[|servers| - 1].attempt)
  }

  predicate Lists(a: ConnectAttempt, name: string) {
    a.Connected? && exists i :: 0 <= i < |a.tools| && a.tools[i].name == name
  }

  /** The session of the last configured server that listed the name. */
  function LastOwner(servers: seq<ServerEntry>, name: string): Option<Session>
    decreases |servers|
  {
    if servers == [] then None
    else if Lists(servers[|servers| - 1].attempt, name) then Some(servers[|servers| - 1].attempt.session)
    else LastOwner(servers[..|servers| - 1], name)
  }

  /** Last write wins: after connecting, a tool name is served by the last
      server that listed it, and a name no server listed keeps its session
      or stays unbound. */
  lemma {:induction false} ConnectAllOwner(reg: Registry, servers: seq<ServerEntry>, name: string)
    ensures var r := ConnectAll(reg, servers);
            && (LastOwner(servers, name).Some? ==> name in r.owner && r.owner[name] == LastOwner(servers, name).value)
            && (LastOwner(servers, name).None? ==>
                  && (name in r.owner <==> name in reg.owner)
                  && (name in reg.owner ==> r.owner[name] == reg.owner[name]))
    decreases |servers|
  {
    if servers != [] {
      var init := servers[..|servers| - 1];
      var a := servers[|servers| - 1].attempt;
      ConnectAllOwner(reg, init, name);
      if a.Connected? {
        BindMaps(ConnectAll(reg, init).owner, a.tools, a.session);
      }
    }
  }

  /** Connecting keeps every earlier descriptor and session in front and
      adds, for each server in order, all the descriptors it listed, so a
      name listed twice has two descriptors. */
  lemma {:induction false} ConnectAllOffers(reg: Registry, servers: seq<ServerEntry>)
    ensures var r := ConnectAll(reg, servers);
            && |reg.tools| <= |r.tools| && r.tools[..|reg.tools|] == reg.tools
            && |reg.sessions| <= |r.sessions| && r.sessions[..|reg.sessions|] == reg.sessions
            && forall k, i :: 0 <= k < |servers| && servers[k].attempt.Connected? && 0 <= i < |servers[k].attempt.tools|
                 ==> Descriptors(servers[k].attempt.tools)[i] in r.tools
    decreases |servers|
  {
    if servers != [] {
      var init := servers[..|servers| - 1];
      var last := servers[|servers| - 1];
      ConnectAllOffers(reg, init);
      var before := ConnectAll(reg, init);
      var r := ConnectAll(reg, servers);
      assert r.tools[..|before.tools|] == before.tools;
      assert r.sessions[..|before.sessions|] == before.sessions;
      assert r.tools[..|reg.tools|] == r.tools[..|before.tools|][..|reg.tools|];
      assert r.sessions[..|reg.sessions|] == r.sessions[..|before.sessions|][..|reg.sessions|];
      forall k, i | 0 <= k < |servers| && servers[k].attempt.Connected? && 0 <= i < |servers[k].attempt.tools|
        ensures Descriptors(servers[k].attempt.tools)[i] in r.tools
      {
        if k < |init| {
          assert servers[k] == init[k];
          assert Descriptors(init[k].attempt.tools)[i] in before.tools;
        } else {
          var ds := Descriptors(last.attempt.tools);
          assert r.tools == before.tools + ds;
          assert r.tools[|before.tools| + i] == ds[i];
        }
      }
    }
  }

  // ---------------------------------------------------------------------
  // _format_tool_content

  /** What session.call_tool returns: an object with a content attribute
      (a CallToolResult), or any other object. Each carries its str(). */
  datatype ToolResult = WithContent(content: Value, text: string) | Bare(value: Value)

  /** getattr(result, "content", result) */
  function ContentOf(r: ToolResult): Value {
    match r
    case WithContent(c, _) => c
    case Bare(v) => v
  }

  /** str(result) */
  function ResultText(r: ToolResult): string {
    match r
    case WithContent(_, t) => t
    case Bare(v) => Str(v)
  }

  /** A text part: a dict whose "type" is "text" and that has a "text". */
  predicate IsTextPart(item: Value) {
    && item.VDict?
    && "type" in item.entries && item.entries["type"] == VStr("text")
    && "text" in item.entries
  }

  /** What one list item contributes, or None when that raises: the text of
      a text part (joining raises when it is not a str), the JSON of any
      other dict (None when it does not serialise), str() of anything else. */
  function Part(item: Value): Option<string> {
    if IsTextPart(item) then
      match item.entries["text"]
      case VStr(s) => Some(s)
      case _ => None
    else if item.VDict? then item.json
    else Some(Str(item))
  }

  /** The parts of a list, or None when one of them raises. */
  function Parts(items: seq<Value>): Option<seq<string>>
    decreases |items|
  {
    if items == [] then Some([])
    else
      match Part(items[0])
      case None => None
      case Some(p) =>
        match Parts(items[1..])
        case None => None
        case Some(ps) => Some([p] + ps)
  }

  /** The parts of a list exist exactly when every item's part does, and
      then there is one per item, in order. */
  lemma {:induction false} PartsPointwise(items: seq<Value>)
    ensures Parts(items).Some? <==> forall i :: 0 <= i < |items| ==> Part(items[i]).Some?
    ensures Parts(items).Some? ==>
              |Parts(items).value| == |items|
              && forall i :: 0 <= i < |items| ==> Parts(items).value[i] == Part(items[i]).value
    decreases |items|
  {
    if items != [] {
      PartsPointwise(items[1..]);
      assert forall i :: 1 <= i < |items| ==> items[i] == items[1..][i - 1];
    }
  }

  /** The text _format_tool_content makes of a tool result: for list content
      the parts joined by "\n"; for dict content its JSON; otherwise
      str(content); and str(result) whenever that raises. */
  function FormattedContent(r: ToolResult): string {
    var c := ContentOf(r);
    match c
    case VList(items, _) =>
      (match Parts(items)
       case Some(ps) => Join(ps, "\n")
       case None => ResultText(r))
    case VDict(_, json, _) => json.GetOr(ResultText(r))
    case _ => Str(c)
  }

  /** Empty list content becomes the empty text. */
  lemma EmptyListFormatsEmpty(items: seq<Value>, shown: string, text: string)
    requires items == []
    ensures FormattedContent(WithContent(VList(items, shown), text)) == ""
  {
  }

  /** List content made of text parts without line breaks reads back, split
      at "\n", as the parts' texts in order. */
  lemma {:induction false} TextPartsSplitBack(r: ToolResult, texts: seq<string>)
    requires ContentOf(r).VList?
    requires |ContentOf(r).items| == |texts| >= 1
    requires forall i :: 0 <= i < |texts| ==>
               IsTextPart(ContentOf(r).items[i]) && ContentOf(r).items[i].entries["text"] == VStr(texts[i])
    requires forall i :: 0 <= i < |texts| ==> '\n' !in texts[i]
    ensures Split(FormattedContent(r), '\n') == texts
  {
    var items := ContentOf(r).items;
    assert forall i :: 0 <= i < |items| ==> Part(items[i]) == Some(texts[i]);
    PartsPointwise(items);
    assert Parts(items).value == texts;
    SplitJoin(texts, '\n');
  }

  // ---------------------------------------------------------------------
  // Dispatch of tool calls

  /** How the session answers call_tool: from the number of calls made
      before it in this query, the session, the tool's name and the
      arguments, a result or the text of the exception it raises. */
  type Oracle = (nat, Session, string, Json) -> Result<ToolResult, string>

  /** tool_to_session[name] then session.call_tool: an unregistered name
      raises KeyError, whose text is the name's repr(). */
  function Dispatcher(reg: Registry, oracle: Oracle): Dispatch {
    (n: nat, name: string, args: Json) =>
      if name !in reg.owner then Failure(Repr(name))
      else
        match oracle(n, reg.owner[name], name, args)
        case Failure(e) => Failure(e)
        case Success(res) => Success(VStr(FormattedContent(res)))
  }
  /** Call i of a round under the registry: KeyError for an unregistered
      name, otherwise the owning session's exception or formatted result. */
  lemma RegistryCallAt(reg: Registry, oracle: Oracle, calls: seq<ToolCall>, n: nat, parse: string -> Option<Json>, i: nat)
    requires i < |calls|
    ensures var c := calls[i];
            c.name !in reg.owner ==> CallAt(calls, n, parse, Dispatcher(reg, oracle), i) == Failure(Repr(c.name))
    ensures var c := calls[i];
            c.name in reg.owner ==>
              var res := oracle(n + i, reg.owner[c.name], c.name, ArgsOf(parse, c.arguments));
              CallAt(calls, n, parse, Dispatcher(reg, oracle), i)
              == if res.Failure? then Failure(res.error) else Success(VStr(FormattedContent(res.value)))
  {
  }


  const SystemInstruction: string :=
    "You are a helpful assistant with access to multiple MCP servers and their tools. "
    + "Follow these rules: "
    + "1) Use the 'fetch' tool for HTTP/HTTPS URLs. "
    + "2) When the user asks to save or write content, ALWAYS use the filesystem 'write_file' tool. "
    + "   - Prefer writing to './<filename>' in the current working directory if allowed. "
    + "   - If paths are restricted, first call 'list_allowed_directories' and choose an allowed directory. "
    + "3) After fetching content from the web, summarize or transform as requested, then persist the result using 'write_file'. "
    + "4) For diagrams, produce an ASCII/textual diagram and save it to a .txt or .md file using 'write_file'. "
    + "5) Confirm the exact file path after saving. "

  /** The transcript process_query starts from: the system instruction, then
      the query. */
  function Start(query: string): seq<Message> {
    [System(SystemInstruction), User(query)]
  }

  /** A query whose first reply first calls an unregistered tool raises
      KeyError and ends. */
  lemma UnknownToolRaises(reg: Registry, oracle: Oracle, query: string, replies: seq<Response>, parse: string -> Option<Json>)
    requires replies != [] && AsksTools(replies[0])
    requires replies[0].value.calls[0].name !in reg.owner
    ensures Query(Start(query), replies, parse, Dispatcher(reg, oracle)) == Raised(Repr(replies[0].value.calls[0].name))
  {
    var d := Dispatcher(reg, oracle);
    var calls := replies[0].value.calls;
    assert CallAt(calls, 0, parse, d, 0).Failure?;
    FirstFailingIs(calls, 0, parse, d, 0, 0);
  }

  /** A query raises only when a request to the model raises, a called tool
      is unregistered or its session raises: with requests that answer,
      every called name registered and sessions that answer, it never
      raises. */
  lemma RegisteredToolsNeverRaise(reg: Registry, oracle: Oracle, query: string, replies: seq<Response>, parse: string -> Option<Json>)
    requires forall i :: 0 <= i < |replies| ==> replies[i].Success?
    requires forall i, t :: 0 <= i < |replies| && replies[i].Success? && 0 <= t < |replies[i].value.calls| ==> replies[i].value.calls[t].name in reg.owner
    requires forall n, s, name, args :: oracle(n, s, name, args).Success?
    ensures !Query(Start(query), replies, parse, Dispatcher(reg, oracle)).Raised?
  {
    if replies != [] {
      var known := (name: string) => name in reg.owner;
      KnownToolsNeverRaise(Start(query), replies, 0, 0, parse, Dispatcher(reg, oracle), known);
    }
  }

  /** The stop conditions for this chatbot's transcript: it starts with the
      system instruction and the query, and is well paired. */
  lemma ChatbotQueryOutcome(reg: Registry, oracle: Oracle, query: string, replies: seq<Response>, parse: string -> Option<Json>)
    ensures var o := Query(Start(query), replies, parse, Dispatcher(reg, oracle));
            o.Answered? ==>
              && |o.transcript| >= 2
              && o.transcript[0] == System(SystemInstruction)
              && o.transcript[1] == User(query)
              && WellPaired(o.transcript)
  {
    var start := Start(query);
    assert WellPaired(start) by {
      assert start[1..][1..] == [];
    }
    var o := Query(start, replies, parse, Dispatcher(reg, oracle));
    if o.Answered? {
      QueryAnswered(start, replies, parse, Dispatcher(reg, oracle));
      assert o.transcript[0] == o.transcript[..2][0];
      assert o.transcript[1] == o.transcript[..2][1];
    }
  }

  /** How the query read as input k ends: the line, stripped, is the query,
      answered with the replies and the sessions' answers for that query. */
  function Run(reg: Registry, replyFor: nat -> seq<Response>, parse: string -> Option<Json>, oracleFor: nat -> Oracle): (nat, string) -> Outcome {
    (k: nat, line: string) => Query(Start(Strip(line)), replyFor(k), parse, Dispatcher(reg, oracleFor(k)))
  }

  class ChatBot {
    var sessions: seq<Session>
    var availableTools: seq<ToolDescriptor>
    var toolToSession: map<string, Session>

    constructor()
      ensures sessions == [] && availableTools == [] && toolToSession == map[]
    {
      sessions := [];
      availableTools := [];
      toolToSession := map[];
    }

    function Snapshot(): Registry
      reads this
    {
      Registry(sessions, availableTools, toolToSession)
    }

    /** connect_to_server; a failure is printed and changes nothing beyond
        what happened before it. */
    method ConnectToServer(serverName: string, attempt: ConnectAttempt)
      modifies this
      ensures Snapshot() == Connect(old(Snapshot()), attempt)
    {
      match attempt
      case Refused(_) =>
      case ListFailed(s, _) =>
        sessions := sessions + [s];
      case Connected(s, tools) =>
        sessions := sessions + [s];
        var i := 0;
        while i < |tools|
          invariant 0 <= i <= |tools|
          invariant sessions == old(sessions) + [s]
          invariant availableTools == old(availableTools) + Descriptors(tools[..i])
          invariant toolToSession == Bind(old(toolToSession), tools[..i], s)
        {
          toolToSession := toolToSession[tools[i].name := s];
          availableTools := availableTools + [ToolDescriptor(tools[i].name, tools[i].description, tools[i].inputSchema)];
          assert tools[..i + 1][..i] == tools[..i];
          assert Descriptors(tools[..i + 1]) == Descriptors(tools[..i]) + [ToolDescriptor(tools[i].name, tools[i].description, tools[i].inputSchema)];
          i := i + 1;
        }
        assert tools[..i] == tools;
    }

    /** connect_to_servers: a configuration that cannot be read is re-raised
        before any server is tried; otherwise every server is tried, in
        order. */
    method ConnectToServers(config: Result<seq<ServerEntry>, string>) returns (raised: Option<string>)
      modifies this
      ensures config.Failure? ==> raised == Some(config.error) && Snapshot() == old(Snapshot())
      ensures config.Success? ==> raised == None && Snapshot() == ConnectAll(old(Snapshot()), config.value)
    {
      if config.Failure? {
        return Some(config.error);
      }
      var servers := config.value;
      var i := 0;
      while i < |servers|
        invariant 0 <= i <= |servers|
        invariant Snapshot() == ConnectAll(old(Snapshot()), servers[..i])
      {
        ConnectToServer(servers[i].name, servers[i].attempt);
        assert servers[..i + 1][..i] == servers[..i];
        i := i + 1;
      }
      assert servers[..i] == servers;
      return None;
    }

    /** _format_tool_content */
    method FormatToolContent(result: ToolResult) returns (text: string)
      ensures ContentOf(result).VList? && ContentOf(result).items == [] ==> text == ""
      ensures ContentOf(result).VDict? && ContentOf(result).json.Some? ==> text == ContentOf(result).json.value
      ensures !ContentOf(result).VList? && !ContentOf(result).VDict? ==> text == Str(ContentOf(result))
      ensures text == FormattedContent(result)
    {
      var content := ContentOf(result);
      if content.VList? {
        var items := content.items;
        var parts: seq<string> := [];
        var i := 0;
        while i < |items|
          invariant 0 <= i <= |items|
          invariant |parts| == i
          invariant forall t :: 0 <= t < i ==> Part(items[t]) == Some(parts[t])
        {
          var item := items[i];
          var part: Option<string>;
          if item.VDict? {
            if "type" in item.entries && item.entries["type"] == VStr("text") && "text" in item.entries {
              match item.entries["text"]
              case VStr(s) => part := Some(s);
              case _ => part := None;
            } else {
              part := item.json;
            }
          } else {
            part := Some(Str(item));
          }
          assert part == Part(item);
          if part.None? {
            PartsPointwise(items);
            return ResultText(result);
          }
          parts := parts + [part.value];
          i := i + 1;
        }
        PartsPointwise(items);
        assert Parts(items).value == parts;
        return Join(parts, "\n");
      }
      if content.VDict? {
        match content.json
        case Some(t) => return t;
        case None => return ResultText(result);
      }
      return Str(content);
    }

    /** The tool calls of one reply, in order: each is sent to the session
        registered for its name and its formatted result becomes a tool
        message; the first call that raises ends the round. */
    method CallTools(calls: seq<ToolCall>, n: nat, parse: string -> Option<Json>, oracle: Oracle) returns (round: Result<seq<Message>, string>)
      ensures round == ToolRound(calls, n, parse, Dispatcher(Snapshot(), oracle))
    {
      var dispatch := Dispatcher(Snapshot(), oracle);
      var answers: seq<Message> := [];
      var i := 0;
      while i < |calls|
        invariant 0 <= i <= |calls|
        invariant forall t :: 0 <= t < i ==> CallAt(calls, n, parse, dispatch, t).Success?
        invariant answers == Answers(calls, n, parse, dispatch, i)
      {
        var call := calls[i];
        var args := ArgsOf(parse, call.arguments);
        RegistryCallAt(Snapshot(), oracle, calls, n, parse, i);
        if call.name !in toolToSession {
          FirstFailingIs(calls, n, parse, dispatch, 0, i);
          return Failure(Repr(call.name));
        }
        var session := toolToSession[call.name];
        var result := oracle(n + i, session, call.name, args);
        if result.Failure? {
          FirstFailingIs(calls, n, parse, dispatch, 0, i);
          return Failure(result.error);
        }
        var text := FormatToolContent(result.value);
        answers := answers + [ToolMsg(call.id, VStr(text))];
        AnswersSnoc(calls, n, parse, dispatch, i);
        i := i + 1;
      }
      FirstFailingIs(calls, n, parse, dispatch, 0, |calls|);
      return Success(answers);
    }

    /** process_query: the loop of Conversation.Drive, dispatching each call
        to the session registered for its name. A first reply with neither
        content nor tool calls makes the source loop forever; here that ends
        the method with Spins. */
    method ProcessQuery(query: string, replies: seq<Response>, parse: string -> Option<Json>, oracle: Oracle) returns (o: Outcome)
      ensures o == Query(Start(query), replies, parse, Dispatcher(Snapshot(), oracle))
    {
      o := Converse(Start(query), replies, parse, oracle);
    }

    /** The loop of process_query from the transcript start. */
    method Converse(start: seq<Message>, replies: seq<Response>, parse: string -> Option<Json>, oracle: Oracle) returns (o: Outcome)
      ensures o == Query(start, replies, parse, Dispatcher(Snapshot(), oracle))
    {
      var dispatch := Dispatcher(Snapshot(), oracle);
      var messages := start;
      if replies == [] {
        return OutOfReplies;
      }
      if replies[0].Failure? {
        return Raised(replies[0].error);
      }
      var j: nat := 0;
      var n: nat := 0;
      while true
        invariant 0 <= j < |replies| && replies[j].Success?
        invariant Drive(messages, replies, j, n, parse, dispatch) == Query(start, replies, parse, dispatch)
        decreases |replies| - j
      {
        var reply := replies[j].value;
        var base := messages;
        DriveAtReply(base, replies, j, n, parse, dispatch);
        if Shown(reply.content) {
          messages := messages + [Assistant(reply.content, [])];
          if reply.calls == [] {
            return Answered(messages, reply.content, j + 1);
          }
        }
        if reply.calls == [] {
          return Spins;
        }
        var calls := reply.calls;
        var round := CallTools(calls, n, parse, oracle);
        if round.Failure? {
          return Raised(round.error);
        }
        messages := messages + [Assistant(reply.content, calls)] + round.value;
        assert messages == AfterRound(base, reply, round.value);
        DriveAfterRound(base, replies, j, n, parse, dispatch);
        if j + 1 == |replies| {
          return OutOfReplies;
        }
        n := n + |calls|;
        j := j + 1;
        if replies[j].Failure? {
          return Raised(replies[j].error);
        }
        if replies[j].value.calls == [] {
          return Answered(messages, replies[j].value.content, j + 1);
        }
      }
    }

    /** chat_loop: each input is stripped; "quit" in any case ends the loop;
        every other input, the empty one included, is a query, and a query
        that raises is printed and the loop goes on. A query that spins
        never returns, so nothing after it is read. Running out of input
        ends the loop without quitting. */
    method ChatLoop(inputs: seq<string>, replyFor: nat -> seq<Response>, parse: string -> Option<Json>, oracleFor: nat -> Oracle)
      returns (outcomes: seq<Outcome>, quit: bool)
      ensures Chat(outcomes, quit) == ChatFrom(inputs, IsQuit, Run(Snapshot(), replyFor, parse, oracleFor), 0)
    {
      ghost var run := Run(Snapshot(), replyFor, parse, oracleFor);
      outcomes := [];
      var i := 0;
      while i < |inputs|
        invariant 0 <= i <= |inputs| && |outcomes| == i
        invariant forall k :: 0 <= k < i ==> !IsQuit(inputs[k]) && outcomes[k] == run(k, inputs[k]) && !outcomes[k].Spins?
      {
        if IsQuit(inputs[i]) {
          ChatFromPrefix(inputs, IsQuit, run, outcomes);
          assert outcomes + [] == outcomes;
          return outcomes, true;
        }
        var query := Strip(inputs[i]);
        var o := ProcessQuery(query, replyFor(i), parse, oracleFor(i));
        assert o == run(i, inputs[i]);
        if o.Spins? {
          ChatFromPrefix(inputs, IsQuit, run, outcomes);
          outcomes := outcomes + [o];
          return outcomes, false;
        }
        outcomes := outcomes + [o];
        i := i + 1;
      }
      ChatFromPrefix(inputs, IsQuit, run, outcomes);
      assert outcomes + [] == outcomes;
      return outcomes, false;
    }
  }
}
