/** The single-server client: one MCP session, the tool descriptors it
    offers the model, process_query without a system instruction and with
    the tool results passed through unformatted, and the chat loop. */
module Client {
  import opened Wrappers
  import opened JsonValues
  import opened PyValues
  import opened Text
  import opened Conversation

  /** session.call_tool(name, arguments=args): from the number of calls made
      before it in this query, the session, the tool's name and its
      arguments, either the result's content or the exception raised. */
  type ContentOracle = (nat, Session, string, Json) -> Result<Value, string>

  /** What Python raises when a method is called on the unset session. */
  const NoSessionError := "'NoneType' object has no attribute 'call_tool'"

  /** Every call goes to the one session, and its tool message carries the
      result's content as it is; with no session set, the call raises. */
  function SessionDispatch(session: Option<Session>, oracle: ContentOracle): Dispatch {
    (n: nat, name: string, args: Json) =>
      if session.None? then Failure(NoSessionError) else oracle(n, session.value, name, args)
  }

  /** The transcript process_query starts from: the query alone. */
  function Begin(query: string): seq<Message> {
    [User(query)]
  }

  /** An answered query's transcript opens with the user's query, holds no
      system message anywhere, and is well paired. */
  lemma ClientTranscript(session: Option<Session>, oracle: ContentOracle, query: string, replies: seq<Response>, parse: string -> Option<Json>)
    ensures var o := Query(Begin(query), replies, parse, SessionDispatch(session, oracle));
            o.Answered? ==>
              && |o.transcript| >= 1
              && o.transcript[0] == User(query)
              && (forall i :: 0 <= i < |o.transcript| ==> !o.transcript[i].System?)
              && WellPaired(o.transcript)
  {
    var start := Begin(query);
    var d := SessionDispatch(session, oracle);
    var o := Query(start, replies, parse, d);
    if o.Answered? {
      assert WellPaired(start) by {
        assert start[1..] == [];
      }
      QueryAnswered(start, replies, parse, d);
      DriveAppendsOnlyReplies(start, replies, 0, 0, parse, d);
      assert o.transcript[0] == o.transcript[..1][0];
    }
  }

  /** Every call of a round is sent, in order, to the one session with its
      own arguments, or {} when they do not decode; the round's tool
      messages carry the calls' ids and the results' contents. */
  lemma RoundCallsSession(s: Session, oracle: ContentOracle, calls: seq<ToolCall>, n: nat, parse: string -> Option<Json>)
    requires ToolRound(calls, n, parse, SessionDispatch(Some(s), oracle)).Success?
    ensures var ms := ToolRound(calls, n, parse, SessionDispatch(Some(s), oracle)).value;
            && |ms| == |calls|
            && forall t :: 0 <= t < |calls| ==>
                 && oracle(n + t, s, calls[t].name, ArgsOf(parse, calls[t].arguments)).Success?
                 && ms[t] == ToolMsg(calls[t].id, oracle(n + t, s, calls[t].name, ArgsOf(parse, calls[t].arguments)).value)
  {
    var d := SessionDispatch(Some(s), oracle);
    var k := FirstFailing(calls, n, parse, d, 0);
    assert k == |calls|;
    forall t | 0 <= t < |calls|
      ensures CallAt(calls, n, parse, d, t) == oracle(n + t, s, calls[t].name, ArgsOf(parse, calls[t].arguments))
    {
    }
  }

  /** Without a session, the first tool call raises and ends the query. */
  lemma NoSessionRaises(oracle: ContentOracle, query: string, replies: seq<Response>, parse: string -> Option<Json>)
    requires replies != [] && AsksTools(replies[0])
    ensures Query(Begin(query), replies, parse, SessionDispatch(None, oracle)) == Raised(NoSessionError)
  {
    var d := SessionDispatch(None, oracle);
    var calls := replies[0].value.calls;
    assert CallAt(calls, 0, parse, d, 0).Failure?;
    FirstFailingIs(calls, 0, parse, d, 0, 0);
  }

  /** With requests to the model that answer and a session whose calls
      never raise, no query raises. */
  lemma SessionNeverRaises(s: Session, oracle: ContentOracle, query: string, replies: seq<Response>, parse: string -> Option<Json>)
    requires forall i :: 0 <= i < |replies| ==> replies[i].Success?
    requires forall n, name, args :: oracle(n, s, name, args).Success?
    ensures !Query(Begin(query), replies, parse, SessionDispatch(Some(s), oracle)).Raised?
  {
    if replies != [] {
      var any := (name: string) => true;
      KnownToolsNeverRaise(Begin(query), replies, 0, 0, parse, SessionDispatch(Some(s), oracle), any);
    }
  }

  /** One query of the chat loop: the stripped line, the replies and the
      session's answers for the k-th query. */
  function ClientRun(session: Option<Session>, replyFor: nat -> seq<Response>, parse: string -> Option<Json>, oracleFor: nat -> ContentOracle): (nat, string) -> Outcome {
    (k: nat, line: string) => Query(Begin(Strip(line)), replyFor(k), parse, SessionDispatch(session, oracleFor(k)))
  }

  /** MCP_ChatBot of the single-server client. */
  class ChatBot {
    var session: Option<Session>
    var availableTools: seq<ToolDescriptor>

    constructor()
      ensures session == None && availableTools == []
    {
      session := None;
      availableTools := [];
    }

    /** connect_to_server_and_run, up to the chat loop: the session is set,
        and the model is offered one descriptor per listed tool. */
    method ConnectToServer(s: Session, tools: seq<ToolInfo>)
      modifies this
      ensures session == Some(s)
      ensures availableTools == Descriptors(tools)
    {
      session := Some(s);
      availableTools := Descriptors(tools);
    }

    /** The for loop over a reply's tool calls: each is sent to the session
        and answered by one tool message with the result's content; a call
        that raises ends the round. */
    method CallTools(calls: seq<ToolCall>, n: nat, parse: string -> Option<Json>, oracle: ContentOracle) returns (round: Result<seq<Message>, string>)
      ensures round == ToolRound(calls, n, parse, SessionDispatch(session, oracle))
    {
      var dispatch := SessionDispatch(session, oracle);
      var answers: seq<Message> := [];
      var i := 0;
      while i < |calls|
        invariant 0 <= i <= |calls|
        invariant forall t :: 0 <= t < i ==> CallAt(calls, n, parse, dispatch, t).Success?
        invariant answers == Answers(calls, n, parse, dispatch, i)
      {
        var call := calls[i];
        var args := ArgsOf(parse, call.arguments);
        if session.None? {
          assert CallAt(calls, n, parse, dispatch, i) == Failure(NoSessionError);
          FirstFailingIs(calls, n, parse, dispatch, 0, i);
          return Failure(NoSessionError);
        }
        var result := oracle(n + i, session.value, call.name, args);
        if result.Failure? {
          assert CallAt(calls, n, parse, dispatch, i) == Failure(result.error);
          FirstFailingIs(calls, n, parse, dispatch, 0, i);
          return Failure(result.error);
        }
        assert CallAt(calls, n, parse, dispatch, i) == Success(result.value);
        answers := answers + [ToolMsg(call.id, result.value)];
        assert Answers(calls, n, parse, dispatch, i + 1) == Answers(calls, n, parse, dispatch, i) + [ToolMsg(call.id, result.value)];
        i := i + 1;
      }
      FirstFailingIs(calls, n, parse, dispatch, 0, |calls|);
      return Success(answers);
    }

    /** process_query: the loop of Conversation.Drive from the query alone.
        A first reply with neither content nor tool calls makes the source
        loop forever; here that ends the method with Spins. */
    method ProcessQuery(query: string, replies: seq<Response>, parse: string -> Option<Json>, oracle: ContentOracle) returns (o: Outcome)
      ensures o == Query(Begin(query), replies, parse, SessionDispatch(session, oracle))
    {
      var dispatch := SessionDispatch(session, oracle);
      var messages := Begin(query);
      if replies == [] {
        return OutOfReplies;
      }
      if replies[0].Failure? {
        return Raised(replies[0].error);
      }
      var j: nat := 0;
      var n: nat := 0;
      while true
        invariant 0 <= j < |replies| && replies[j].Success?
        invariant Drive(messages, replies, j, n, parse, dispatch) == Query(Begin(query), replies, parse, dispatch)
        decreases |replies| - j
      {
        var reply := replies[j].value;
        var base := messages;
        DriveAtReply(base, replies, j, n, parse, dispatch);
        if Shown(reply.content) {
          messages := messages + [Assistant(reply.content, [])];
          if reply.calls == [] {
            return Answered(messages, reply.content, j + 1);
          }
        }
        if reply.calls == [] {
          return Spins;
        }
        var calls := reply.calls;
        var round := CallTools(calls, n, parse, oracle);
        if round.Failure? {
          return Raised(round.error);
        }
        messages := messages + ([Assistant(reply.content, calls)] + round.value);
        assert messages == AfterRound(base, reply, round.value);
        DriveAfterRound(base, replies, j, n, parse, dispatch);
        if j + 1 == |replies| {
          return OutOfReplies;
        }
        n := n + |calls|;
        j := j + 1;
        if replies[j].Failure? {
          return Raised(replies[j].error);
        }
        if replies[j].value.calls == [] {
          return Answered(messages, replies[j].value.content, j + 1);
        }
      }
    }

    /** chat_loop: queries are processed in turn until a stripped input is
        "quit" in any case; a query that raises is reported and the loop
        goes on. The loop also ends when the inputs run out, or with the
        query whose model keeps sending empty replies. */
    method ChatLoop(inputs: seq<string>, replyFor: nat -> seq<Response>, parse: string -> Option<Json>, oracleFor: nat -> ContentOracle)
      returns (outcomes: seq<Outcome>, quit: bool)
      ensures Chat(outcomes, quit) == ChatFrom(inputs, IsQuit, ClientRun(session, replyFor, parse, oracleFor), 0)
    {
      ghost var run := ClientRun(session, replyFor, parse, oracleFor);
      outcomes := [];
      var i := 0;
      while i < |inputs|
        invariant 0 <= i <= |inputs| && |outcomes| == i
        invariant forall k :: 0 <= k < i ==> !IsQuit(inputs[k]) && outcomes[k] == run(k, inputs[k]) && !outcomes[k].Spins?
      {
        if IsQuit(inputs[i]) {
          ChatFromPrefix(inputs, IsQuit, run, outcomes);
          assert outcomes + [] == outcomes;
          return outcomes, true;
        }
        var query := Strip(inputs[i]);
        var o := ProcessQuery(query, replyFor(i), parse, oracleFor(i));
        assert o == run(i, inputs[i]);
        if o.Spins? {
          ChatFromPrefix(inputs, IsQuit, run, outcomes);
          outcomes := outcomes + [o];
          return outcomes, false;
        }
        outcomes := outcomes + [o];
        i := i + 1;
      }
      ChatFromPrefix(inputs, IsQuit, run, outcomes);
      assert outcomes + [] == outcomes;
      return outcomes, false;
    }

    /** connect_to_server_and_run: connect, then run the chat loop with the
        session set. */
    method ConnectAndRun(s: Session, tools: seq<ToolInfo>, inputs: seq<string>, replyFor: nat -> seq<Response>, parse: string -> Option<Json>, oracleFor: nat -> ContentOracle)
      returns (outcomes: seq<Outcome>, quit: bool)
      modifies this
      ensures session == Some(s) && availableTools == Descriptors(tools)
      ensures Chat(outcomes, quit) == ChatFrom(inputs, IsQuit, ClientRun(Some(s), replyFor, parse, oracleFor), 0)
    {
      ConnectToServer(s, tools);
      outcomes, quit := ChatLoop(inputs, replyFor, parse, oracleFor);
    }
  }
}
