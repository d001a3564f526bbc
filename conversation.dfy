/** The tool-calling conversation of process_query, shared by the
    multi-server chatbot and the single-server client: the model's replies
    are given as a finite sequence, and how a tool call is answered is a
    dispatch function that may raise. */
module Conversation {
  import opened Wrappers
  import opened JsonValues
  import opened PyValues
  import opened Text

  /** One tool call of a model reply: its id, the tool's name and the
      argument text the model wrote. */
  datatype ToolCall = ToolCall(id: string, name: string, arguments: string)

  /** A model reply: its content (None or text) and its tool calls. */
  datatype Reply = Reply(content: Option<string>, calls: seq<ToolCall>)

  /** The answer to one chat-completion request: the reply, or the text of
      the exception the request raised. */
  type Response = Result<Reply, string>

  /** A response whose reply asks for tools. */
  predicate AsksTools(r: Response) {
    r.Success? && r.value.calls != []
  }

  /** A connected MCP client session, by identity. */
  type Session = nat

  /** A tool as a server lists it: name, description and input schema. */
  datatype ToolInfo = ToolInfo(name: string, description: Option<string>, inputSchema: Json)

  /** The descriptor offered to the model:
      {"type": "function", "function": {"name", "description", "parameters"}}. */
  datatype ToolDescriptor = ToolDescriptor(name: string, description: Option<string>, parameters: Json)

  /** One descriptor per listed tool, in listing order, copying the tool's
      name, description and input schema. */
  function Descriptors(tools: seq<ToolInfo>): (ds: seq<ToolDescriptor>)
    ensures |ds| == |tools|
    ensures forall i :: 0 <= i < |tools| ==>
              && ds[i].name == tools[i].name
              && ds[i].description == tools[i].description
              && ds[i].parameters == tools[i].inputSchema
  {
    seq(|tools|, i requires 0 <= i < |tools| => ToolDescriptor(tools[i].name, tools[i].description, tools[i].inputSchema))
  }

  /** The messages of a chat-completion transcript. */
  datatype Message =
    | System(text: string)
    | User(text: string)
    | Assistant(content: Option<string>, calls: seq<ToolCall>)
    | ToolMsg(callId: string, result: Value)

  /** `if assistant_content:` */
  predicate Shown(content: Option<string>) {
    content.Some? && content.value != ""
  }

  /** json.loads(arguments), with a text that does not decode replaced by {}. */
  function ArgsOf(parse: string -> Option<Json>, text: string): Json {
    parse(text).GetOr(EmptyObject)
  }

  /** How a tool call is answered: from the number of calls made before it in
      this query, the tool's name and its arguments, either the content of
      the tool message or the text of the exception raised. */
  type Dispatch = (nat, string, Json) -> Result<Value, string>

  /** The answer to call i of a round whose first call has ordinal n. */
  function CallAt(calls: seq<ToolCall>, n: nat, parse: string -> Option<Json>, dispatch: Dispatch, i: nat): Result<Value, string>
    requires i < |calls|
  {
    dispatch(n + i, calls[i].name, ArgsOf(parse, calls[i].arguments))
  }

  /** The first call from position `from` on whose dispatch raises, or |calls|. */
  function FirstFailing(calls: seq<ToolCall>, n: nat, parse: string -> Option<Json>, dispatch: Dispatch, from: nat): (k: nat)
    requires from <= |calls|
    ensures from <= k <= |calls|
    ensures k < |calls| ==> CallAt(calls, n, parse, dispatch, k).Failure?
    ensures forall i :: from <= i < k ==> CallAt(calls, n, parse, dispatch, i).Success?
    decreases |calls| - from
  {
    if from == |calls| then from
    else if CallAt(calls, n, parse, dispatch, from).Failure? then from
    else FirstFailing(calls, n, parse, dispatch, from + 1)
  }

  lemma {:induction false} FirstFailingIs(calls: seq<ToolCall>, n: nat, parse: string -> Option<Json>, dispatch: Dispatch, from: nat, k: nat)
    requires from <= k <= |calls|
    requires k < |calls| ==> CallAt(calls, n, parse, dispatch, k).Failure?
    requires forall i :: from <= i < k ==> CallAt(calls, n, parse, dispatch, i).Success?
    ensures FirstFailing(calls, n, parse, dispatch, from) == k
    decreases k - from
  {
    if from < k {
      FirstFailingIs(calls, n, parse, dispatch, from + 1, k);
    }
  }

  /** The tool messages of the first i calls of a round, when none of them
      raised. */
  function Answers(calls: seq<ToolCall>, n: nat, parse: string -> Option<Json>, dispatch: Dispatch, i: nat): (ms: seq<Message>)
    requires i <= |calls|
    requires forall t :: 0 <= t < i ==> CallAt(calls, n, parse, dispatch, t).Success?
    ensures |ms| == i
  {
    seq(i, t requires 0 <= t < i => ToolMsg(calls[t].id, CallAt(calls, n, parse, dispatch, t).value))
  }

  /** Answering one more call appends its tool message. */
  lemma AnswersSnoc(calls: seq<ToolCall>, n: nat, parse: string -> Option<Json>, dispatch: Dispatch, i: nat)
    requires i < |calls|
    requires forall t :: 0 <= t <= i ==> CallAt(calls, n, parse, dispatch, t).Success?
    ensures Answers(calls, n, parse, dispatch, i + 1)
            == Answers(calls, n, parse, dispatch, i) + [ToolMsg(calls[i].id, CallAt(calls, n, parse, dispatch, i).value)]
  {
    assert Answers(calls, n, parse, dispatch, i + 1)[..i] == Answers(calls, n, parse, dispatch, i);
  }

  /** One tool round: each call of the reply in order is dispatched and
      answered by one tool message carrying its id; the first call that
      raises ends the round with its exception. */
  function ToolRound(calls: seq<ToolCall>, n: nat, parse: string -> Option<Json>, dispatch: Dispatch): Result<seq<Message>, string> {
    var k := FirstFailing(calls, n, parse, dispatch, 0);
    if k < |calls| then Failure(CallAt(calls, n, parse, dispatch, k).error)
    else Success(Answers(calls, n, parse, dispatch, |calls|))
  }

  /** How a query ends. Answered: the loop stopped, with the transcript, the
      content it printed last and the number of replies it used. Spins: the
      first reply had neither content nor tool calls, and the loop goes on
      forever with the same reply. OutOfReplies: the given replies ran out
      (the model's end). Raised: a request to the model or a tool call
      raised, which ends the query. */
  datatype Outcome =
    | Answered(transcript: seq<Message>, shown: Option<string>, used: nat)
    | Spins
    | OutOfReplies
    | Raised(error: string)

  /** The transcript once a reply's content alone has been appended, which
      happens when the content is shown. */
  function Opening(ms: seq<Message>, r: Reply): seq<Message> {
    if Shown(r.content) then ms + [Assistant(r.content, [])] else ms
  }

  /** The transcript after a tool round: the opening, the reply with its
      calls, and the tool messages. */
  function AfterRound(ms: seq<Message>, r: Reply, answers: seq<Message>): seq<Message> {
    Opening(ms, r) + ([Assistant(r.content, r.calls)] + answers)
  }

  /** The loop of process_query from the transcript ms, the response at
      position j and n tool calls made so far. A request that raised ends
      the query with its exception, the first one and the one after a tool
      round alike. */
  function Drive(ms: seq<Message>, replies: seq<Response>, j: nat, n: nat, parse: string -> Option<Json>, dispatch: Dispatch): Outcome
    requires j < |replies|
    decreases |replies| - j
  {
    match replies[j]
    case Failure(e) => Raised(e)
    case Success(r) =>
      if Shown(r.content) && r.calls == [] then Answered(Opening(ms, r), r.content, j + 1)
      else if r.calls == [] then Spins
      else
        match ToolRound(r.calls, n, parse, dispatch)
        case Failure(e) => Raised(e)
        case Success(answers) =>
          if j + 1 == |replies| then OutOfReplies
          else if replies[j + 1].Failure? then Raised(replies[j + 1].error)
          else if replies[j + 1].value.calls == [] then Answered(AfterRound(ms, r, answers), replies[j + 1].value.content, j + 2)
          else Drive(AfterRound(ms, r, answers), replies, j + 1, n + |r.calls|, parse, dispatch)
  }

  /** process_query from the starting transcript. */
  function Query(start: seq<Message>, replies: seq<Response>, parse: string -> Option<Json>, dispatch: Dispatch): Outcome {
    if replies == [] then OutOfReplies else Drive(start, replies, 0, 0, parse, dispatch)
  }

  /** Every tool message answers a call of the assistant message it follows:
      an assistant message with k tool calls is followed by k tool messages
      carrying the calls' ids in order, and no tool message stands anywhere
      else. */
  predicate WellPaired(ms: seq<Message>)
    decreases |ms|
  {
    ms == [] ||
    (&& !ms[0].ToolMsg?
     && BlockSize(ms[0]) <= |ms|
     && (forall t :: 1 <= t < BlockSize(ms[0]) ==> ms[t].ToolMsg? && ms[t].callId == ms[0].calls[t - 1].id)
     && WellPaired(ms[BlockSize(ms[0])..]))
  }

  /** A message with the tool messages that must follow it. */
  function BlockSize(m: Message): (k: nat)
    ensures k >= 1
    ensures m.Assistant? ==> k == 1 + |m.calls|
  {
    if m.Assistant? then 1 + |m.calls| else 1
  }

  lemma {:induction false} WellPairedAppend(a: seq<Message>, b: seq<Message>)
    requires WellPaired(a) && WellPaired(b)
    ensures WellPaired(a + b)
    decreases |a|
  {
    if a == [] {
      assert a + b == b;
    } else {
      var k := BlockSize(a[0]);
      WellPairedAppend(a[k..], b);
      var ab := a + b;
      assert ab[k..] == a[k..] + b;
      HeadBlockKept(a, b);
    }
  }

  /** Appending keeps the first block of a transcript intact. */
  lemma HeadBlockKept(a: seq<Message>, b: seq<Message>)
    requires a != [] && BlockSize(a[0]) <= |a|
    requires forall t :: 1 <= t < BlockSize(a[0]) ==> a[t].ToolMsg? && a[t].callId == a[0].calls[t - 1].id
    ensures (a + b)[0] == a[0] && BlockSize((a + b)[0]) <= |a + b|
    ensures forall t :: 1 <= t < BlockSize(a[0]) ==> (a + b)[t].ToolMsg? && (a + b)[t].callId == (a + b)[0].calls[t - 1].id
  {
    forall t | 1 <= t < BlockSize(a[0])
      ensures (a + b)[t] == a[t]
    {
    }
  }

  /** An assistant message followed by one tool message per call, carrying
      the calls' ids in order, is well paired. */
  lemma CallBlockWellPaired(content: Option<string>, calls: seq<ToolCall>, answers: seq<Message>)
    requires |answers| == |calls|
    requires forall t :: 0 <= t < |answers| ==> answers[t].ToolMsg? && answers[t].callId == calls[t].id
    ensures WellPaired([Assistant(content, calls)] + answers)
  {
    var block := [Assistant(content, calls)] + answers;
    assert block[1 + |calls|..] == [];
    forall t | 1 <= t < 1 + |calls|
      ensures block[t].ToolMsg? && block[t].callId == calls[t - 1].id
    {
      assert block[t] == answers[t - 1];
    }
  }

  /** Appending a reply's content alone keeps a transcript well paired. */
  lemma OpeningWellPaired(ms: seq<Message>, r: Reply)
    requires WellPaired(ms)
    ensures WellPaired(Opening(ms, r))
    ensures |ms| <= |Opening(ms, r)| && Opening(ms, r)[..|ms|] == ms
  {
    if Shown(r.content) {
      var one: seq<Message> := [Assistant(r.content, [])];
      assert WellPaired(one) by {
        assert one[1..] == [];
      }
      WellPairedAppend(ms, one);
      assert (ms + one)[..|ms|] == ms;
    }
  }

  /** A reply's messages: its content alone when shown, the reply with its
      calls, and one tool message per call. */
  lemma RoundWellPaired(ms: seq<Message>, r: Reply, answers: seq<Message>)
    requires WellPaired(ms)
    requires |answers| == |r.calls|
    requires forall t :: 0 <= t < |answers| ==> answers[t].ToolMsg? && answers[t].callId == r.calls[t].id
    ensures WellPaired(AfterRound(ms, r, answers))
    ensures |ms| <= |AfterRound(ms, r, answers)| && AfterRound(ms, r, answers)[..|ms|] == ms
  {
    var ms1 := Opening(ms, r);
    var block := [Assistant(r.content, r.calls)] + answers;
    OpeningWellPaired(ms, r);
    CallBlockWellPaired(r.content, r.calls, answers);
    WellPairedAppend(ms1, block);
    assert (ms1 + block)[..|ms|] == ms1[..|ms|];
  }

  /** A reply without tool calls answers or spins; one whose tool round
      raises ends the loop with that exception. */
  lemma DriveAtReply(ms: seq<Message>, replies: seq<Response>, j: nat, n: nat, parse: string -> Option<Json>, dispatch: Dispatch)
    requires j < |replies| && replies[j].Success?
    ensures var r := replies[j].value;
            r.calls == [] ==>
              Drive(ms, replies, j, n, parse, dispatch)
              == if Shown(r.content) then Answered(Opening(ms, r), r.content, j + 1) else Spins
    ensures var r := replies[j].value;
            r.calls != [] && ToolRound(r.calls, n, parse, dispatch).Failure? ==>
              Drive(ms, replies, j, n, parse, dispatch) == Raised(ToolRound(r.calls, n, parse, dispatch).error)
  {
  }

  /** After a reply's tool round succeeds, the loop looks at the next
      response: none left, a raised request, an answer, or another round. */
  lemma DriveAfterRound(ms: seq<Message>, replies: seq<Response>, j: nat, n: nat, parse: string -> Option<Json>, dispatch: Dispatch)
    requires j < |replies| && AsksTools(replies[j])
    requires ToolRound(replies[j].value.calls, n, parse, dispatch).Success?
    ensures var r := replies[j].value;
            var ms' := AfterRound(ms, r, ToolRound(r.calls, n, parse, dispatch).value);
            Drive(ms, replies, j, n, parse, dispatch)
            == if j + 1 == |replies| then OutOfReplies
               else if replies[j + 1].Failure? then Raised(replies[j + 1].error)
               else if replies[j + 1].value.calls == [] then Answered(ms', replies[j + 1].value.content, j + 2)
               else Drive(ms', replies, j + 1, n + |r.calls|, parse, dispatch)
  {
  }

  /** The loop from position j either answers right there, or answers after
      a tool round whose tool messages carry the calls' ids, or goes on from
      the next reply with the transcript after the round. */
  lemma DriveStep(ms: seq<Message>, replies: seq<Response>, j: nat, n: nat, parse: string -> Option<Json>, dispatch: Dispatch)
    requires j < |replies|
    requires Drive(ms, replies, j, n, parse, dispatch).Answered?
    ensures replies[j].Success?
    ensures var r := replies[j].value;
            var o := Drive(ms, replies, j, n, parse, dispatch);
            || (Shown(r.content) && r.calls == [] && o == Answered(Opening(ms, r), r.content, j + 1))
            || (&& r.calls != []
                && ToolRound(r.calls, n, parse, dispatch).Success?
                && j + 1 < |replies|
                && replies[j + 1].Success?
                && var answers := ToolRound(r.calls, n, parse, dispatch).value;
                && |answers| == |r.calls|
                && (forall t :: 0 <= t < |answers| ==> answers[t].ToolMsg? && answers[t].callId == r.calls[t].id)
                && ((replies[j + 1].value.calls == [] && o == Answered(AfterRound(ms, r, answers), replies[j + 1].value.content, j + 2))
                    || (replies[j + 1].value.calls != [] && o == Drive(AfterRound(ms, r, answers), replies, j + 1, n + |r.calls|, parse, dispatch))))
  {
    var r := replies[j].value;
    if r.calls != [] {
      ToolRoundIds(r.calls, n, parse, dispatch);
    }
  }

  /** An answered query keeps the transcript it started from as a prefix and
      stays well paired. */
  lemma {:induction false} DriveTranscript(ms: seq<Message>, replies: seq<Response>, j: nat, n: nat, parse: string -> Option<Json>, dispatch: Dispatch)
    requires j < |replies|
    requires WellPaired(ms)
    requires Drive(ms, replies, j, n, parse, dispatch).Answered?
    ensures var o := Drive(ms, replies, j, n, parse, dispatch);
            && |ms| <= |o.transcript| && o.transcript[..|ms|] == ms
            && WellPaired(o.transcript)
    decreases |replies| - j
  {
    var r := replies[j].value;
    if Shown(r.content) && r.calls == [] {
      OpeningWellPaired(ms, r);
    } else {
      ToolRoundIds(r.calls, n, parse, dispatch);
      var answers := ToolRound(r.calls, n, parse, dispatch).value;
      var ms3 := AfterRound(ms, r, answers);
      RoundWellPaired(ms, r, answers);
      if replies[j + 1].value.calls != [] {
        DriveTranscript(ms3, replies, j + 1, n + |r.calls|, parse, dispatch);
        var o := Drive(ms3, replies, j + 1, n + |r.calls|, parse, dispatch);
        assert o.transcript[..|ms|] == o.transcript[..|ms3|][..|ms|];
      }
    }
  }

  /** A message the loop appends: an assistant reply or a tool answer. */
  predicate FromLoop(m: Message) {
    m.Assistant? || m.ToolMsg?
  }

  /** t is ms followed by assistant and tool messages only. */
  ghost predicate AppendsReplies(ms: seq<Message>, t: seq<Message>) {
    && |ms| <= |t| && t[..|ms|] == ms
    && forall i :: |ms| <= i < |t| ==> FromLoop(t[i])
  }

  lemma AppendsRepliesTrans(a: seq<Message>, b: seq<Message>, c: seq<Message>)
    requires AppendsReplies(a, b) && AppendsReplies(b, c)
    ensures AppendsReplies(a, c)
  {
    assert c[..|a|] == c[..|b|][..|a|];
    forall i | |a| <= i < |c|
      ensures FromLoop(c[i])
    {
      if i < |b| {
        assert c[i] == c[..|b|][i];
      }
    }
  }

  /** The opening and a tool round of tool messages append replies only. */
  lemma RoundAppendsReplies(ms: seq<Message>, r: Reply, answers: seq<Message>)
    requires forall t :: 0 <= t < |answers| ==> answers[t].ToolMsg?
    ensures AppendsReplies(ms, Opening(ms, r))
    ensures AppendsReplies(ms, AfterRound(ms, r, answers))
  {
    var ms1 := Opening(ms, r);
    var ms3 := AfterRound(ms, r, answers);
    assert ms1[..|ms|] == ms;
    assert ms3[..|ms|] == ms1[..|ms|];
    forall i | |ms| <= i < |ms3|
      ensures FromLoop(ms3[i])
    {
      if i >= |ms1| + 1 {
        assert ms3[i] == answers[i - |ms1| - 1];
      }
    }
  }

  /** An answered query appends only assistant and tool messages to the
      transcript it started from. */
  lemma {:induction false} DriveAppendsOnlyReplies(ms: seq<Message>, replies: seq<Response>, j: nat, n: nat, parse: string -> Option<Json>, dispatch: Dispatch)
    requires j < |replies|
    requires Drive(ms, replies, j, n, parse, dispatch).Answered?
    ensures var t := Drive(ms, replies, j, n, parse, dispatch).transcript;
            && |ms| <= |t| && t[..|ms|] == ms
            && forall i :: |ms| <= i < |t| ==> FromLoop(t[i])
    decreases |replies| - j
  {
    var r := replies[j].value;
    if Shown(r.content) && r.calls == [] {
      RoundAppendsReplies(ms, r, []);
    } else {
      ToolRoundIds(r.calls, n, parse, dispatch);
      var answers := ToolRound(r.calls, n, parse, dispatch).value;
      var ms3 := AfterRound(ms, r, answers);
      RoundAppendsReplies(ms, r, answers);
      if replies[j + 1].value.calls != [] {
        DriveAppendsOnlyReplies(ms3, replies, j + 1, n + |r.calls|, parse, dispatch);
        var t := Drive(ms3, replies, j + 1, n + |r.calls|, parse, dispatch).transcript;
        AppendsRepliesTrans(ms, ms3, t);
      }
    }
  }

  /** An answered query stopped on a reply without tool calls, printing that
      reply's content; every earlier reply had tool calls; and when it
      stopped on the reply it started with, that reply's content was shown. */
  lemma {:induction false} DriveStops(ms: seq<Message>, replies: seq<Response>, j: nat, n: nat, parse: string -> Option<Json>, dispatch: Dispatch)
    requires j < |replies|
    requires Drive(ms, replies, j, n, parse, dispatch).Answered?
    ensures var o := Drive(ms, replies, j, n, parse, dispatch);
            && j < o.used <= |replies|
            && replies[o.used - 1].Success?
            && replies[o.used - 1].value.calls == []
            && o.shown == replies[o.used - 1].value.content
            && (forall i :: j <= i < o.used - 1 ==> AsksTools(replies[i]))
            && (o.used == j + 1 ==> Shown(replies[j].value.content))
    decreases |replies| - j
  {
    DriveStep(ms, replies, j, n, parse, dispatch);
    var r := replies[j].value;
    if r.calls != [] && replies[j + 1].value.calls != [] {
      var answers := ToolRound(r.calls, n, parse, dispatch).value;
      DriveStops(AfterRound(ms, r, answers), replies, j + 1, n + |r.calls|, parse, dispatch);
    }
  }

  /** The loop spins only on the reply it started with, when that reply has
      neither content nor tool calls. */
  lemma {:induction false} DriveSpins(ms: seq<Message>, replies: seq<Response>, j: nat, n: nat, parse: string -> Option<Json>, dispatch: Dispatch)
    requires j < |replies|
    ensures Drive(ms, replies, j, n, parse, dispatch).Spins?
            <==> replies[j].Success? && !Shown(replies[j].value.content) && replies[j].value.calls == []
    decreases |replies| - j
  {
    if replies[j].Success? {
      var r := replies[j].value;
      if r.calls != [] && ToolRound(r.calls, n, parse, dispatch).Success? && j + 1 < |replies| && AsksTools(replies[j + 1]) {
        DriveSpins(AfterRound(ms, r, ToolRound(r.calls, n, parse, dispatch).value), replies, j + 1, n + |r.calls|, parse, dispatch);
      }
    }
  }

  /** The replies run out only when every reply has tool calls. */
  lemma {:induction false} DriveOutOfReplies(ms: seq<Message>, replies: seq<Response>, j: nat, n: nat, parse: string -> Option<Json>, dispatch: Dispatch)
    requires j < |replies|
    requires Drive(ms, replies, j, n, parse, dispatch).OutOfReplies?
    ensures forall i :: j <= i < |replies| ==> AsksTools(replies[i])
    decreases |replies| - j
  {
    var r := replies[j].value;
    if j + 1 < |replies| {
      DriveOutOfReplies(AfterRound(ms, r, ToolRound(r.calls, n, parse, dispatch).value), replies, j + 1, n + |r.calls|, parse, dispatch);
    }
  }

  /** An answered query keeps its starting transcript as a prefix, stays
      well paired, and stopped on the first reply without tool calls,
      printing that reply's content; a query answered by its first reply
      showed that reply's content. */
  lemma QueryAnswered(start: seq<Message>, replies: seq<Response>, parse: string -> Option<Json>, dispatch: Dispatch)
    requires WellPaired(start)
    requires Query(start, replies, parse, dispatch).Answered?
    ensures var o := Query(start, replies, parse, dispatch);
            && |start| <= |o.transcript| && o.transcript[..|start|] == start
            && WellPaired(o.transcript)
            && 0 < o.used <= |replies|
            && replies[o.used - 1].Success?
            && replies[o.used - 1].value.calls == []
            && o.shown == replies[o.used - 1].value.content
            && (forall i :: 0 <= i < o.used - 1 ==> AsksTools(replies[i]))
            && (o.used == 1 ==> Shown(replies[0].value.content))
  {
    DriveTranscript(start, replies, 0, 0, parse, dispatch);
    DriveStops(start, replies, 0, 0, parse, dispatch);
  }

  /** A query spins exactly when its first reply has neither content nor
      tool calls. */
  lemma QuerySpins(start: seq<Message>, replies: seq<Response>, parse: string -> Option<Json>, dispatch: Dispatch)
    ensures Query(start, replies, parse, dispatch).Spins?
            <==> replies != [] && replies[0].Success? && !Shown(replies[0].value.content) && replies[0].value.calls == []
  {
    if replies != [] {
      DriveSpins(start, replies, 0, 0, parse, dispatch);
    }
  }

  /** A query runs out of replies only when every reply has tool calls. */
  lemma QueryOutOfReplies(start: seq<Message>, replies: seq<Response>, parse: string -> Option<Json>, dispatch: Dispatch)
    requires Query(start, replies, parse, dispatch).OutOfReplies?
    ensures forall i :: 0 <= i < |replies| ==> AsksTools(replies[i])
  {
    if replies != [] {
      DriveOutOfReplies(start, replies, 0, 0, parse, dispatch);
    }
  }

  /** Whenever the loop handles a reply with both content and tool calls,
      at the first request or after any tool round, it appends two
      assistant messages: the content alone, then the content with the
      calls. */
  lemma ContentAndCallsTwice(ms: seq<Message>, replies: seq<Response>, j: nat, n: nat, parse: string -> Option<Json>, dispatch: Dispatch)
    requires j < |replies| && replies[j].Success?
    requires Shown(replies[j].value.content) && replies[j].value.calls != []
    requires Drive(ms, replies, j, n, parse, dispatch).Answered?
    ensures var r := replies[j].value;
            var t := Drive(ms, replies, j, n, parse, dispatch).transcript;
            && |ms| + 2 <= |t|
            && t[|ms|] == Assistant(r.content, [])
            && t[|ms| + 1] == Assistant(r.content, r.calls)
  {
    var r := replies[j].value;
    var answers := ToolRound(r.calls, n, parse, dispatch).value;
    var ms3 := AfterRound(ms, r, answers);
    assert ms3[|ms|] == Assistant(r.content, []) && ms3[|ms| + 1] == Assistant(r.content, r.calls);
    if replies[j + 1].value.calls != [] {
      DriveAppendsOnlyReplies(ms3, replies, j + 1, n + |r.calls|, parse, dispatch);
      var t := Drive(ms3, replies, j + 1, n + |r.calls|, parse, dispatch).transcript;
      assert t[|ms|] == t[..|ms3|][|ms|];
      assert t[|ms| + 1] == t[..|ms3|][|ms| + 1];
    }
  }

  /** A request that raises ends the query with its exception: the first
      request, or the one after a tool round that raised nothing. */
  lemma RequestRaises(ms: seq<Message>, replies: seq<Response>, j: nat, n: nat, parse: string -> Option<Json>, dispatch: Dispatch)
    requires j < |replies|
    ensures replies[j].Failure? ==> Drive(ms, replies, j, n, parse, dispatch) == Raised(replies[j].error)
    ensures AsksTools(replies[j]) && ToolRound(replies[j].value.calls, n, parse, dispatch).Success?
            && j + 1 < |replies| && replies[j + 1].Failure?
            ==> Drive(ms, replies, j, n, parse, dispatch) == Raised(replies[j + 1].error)
  {
  }

  /** The tool messages of a round carry the calls' ids in order. */
  lemma ToolRoundIds(calls: seq<ToolCall>, n: nat, parse: string -> Option<Json>, dispatch: Dispatch)
    requires ToolRound(calls, n, parse, dispatch).Success?
    ensures var ms := ToolRound(calls, n, parse, dispatch).value;
            && |ms| == |calls|
            && forall t :: 0 <= t < |ms| ==> ms[t].ToolMsg? && ms[t].callId == calls[t].id
  {
  }

  /** A tool round sends every call, in order, its own arguments, or {} when
      they do not decode, and answers it with one tool message carrying its
      id; the round raises exactly when some call raises, with the first
      such call's exception. */
  lemma ToolRoundAnswers(calls: seq<ToolCall>, n: nat, parse: string -> Option<Json>, dispatch: Dispatch)
    ensures ToolRound(calls, n, parse, dispatch).Success?
            <==> forall i :: 0 <= i < |calls| ==> dispatch(n + i, calls[i].name, ArgsOf(parse, calls[i].arguments)).Success?
    ensures ToolRound(calls, n, parse, dispatch).Success? ==>
              var ms := ToolRound(calls, n, parse, dispatch).value;
              && |ms| == |calls|
              && forall i :: 0 <= i < |calls| ==>
                   && ms[i].ToolMsg? && ms[i].callId == calls[i].id
                   && (parse(calls[i].arguments).None? ==> ms[i].result == dispatch(n + i, calls[i].name, EmptyObject).value)
                   && (parse(calls[i].arguments).Some? ==> ms[i].result == dispatch(n + i, calls[i].name, parse(calls[i].arguments).value).value)
    ensures ToolRound(calls, n, parse, dispatch).Failure? ==>
              exists k :: 0 <= k < |calls|
                && (forall i :: 0 <= i < k ==> dispatch(n + i, calls[i].name, ArgsOf(parse, calls[i].arguments)).Success?)
                && dispatch(n + k, calls[k].name, ArgsOf(parse, calls[k].arguments)) == Failure(ToolRound(calls, n, parse, dispatch).error)
  {
    var k := FirstFailing(calls, n, parse, dispatch, 0);
    assert forall i :: 0 <= i < |calls| ==>
      CallAt(calls, n, parse, dispatch, i) == dispatch(n + i, calls[i].name, ArgsOf(parse, calls[i].arguments));
    if k < |calls| {
      assert CallAt(calls, n, parse, dispatch, k).Failure?;
      assert forall i :: 0 <= i < k ==> dispatch(n + i, calls[i].name, ArgsOf(parse, calls[i].arguments)).Success?;
      assert dispatch(n + k, calls[k].name, ArgsOf(parse, calls[k].arguments)) == Failure(ToolRound(calls, n, parse, dispatch).error);
    }
  }

  /** When no request to the model raises, every tool the replies call is
      known, and a known tool's dispatch never raises, no query raises. */
  lemma {:induction false} KnownToolsNeverRaise(ms: seq<Message>, replies: seq<Response>, j: nat, n: nat, parse: string -> Option<Json>, dispatch: Dispatch, known: string -> bool)
    requires j < |replies|
    requires forall i :: 0 <= i < |replies| ==> replies[i].Success?
    requires forall i, t :: 0 <= i < |replies| && replies[i].Success? && 0 <= t < |replies[i].value.calls| ==> known(replies[i].value.calls[t].name)
    requires forall m, name, args :: known(name) ==> dispatch(m, name, args).Success?
    ensures !Drive(ms, replies, j, n, parse, dispatch).Raised?
    decreases |replies| - j
  {
    var r := replies[j].value;
    if r.calls != [] {
      ToolRoundAnswers(r.calls, n, parse, dispatch);
      var round := ToolRound(r.calls, n, parse, dispatch);
      assert forall t :: 0 <= t < |r.calls| ==> known(r.calls[t].name);
      assert round.Success?;
      if j + 1 < |replies| && replies[j + 1].value.calls != [] {
        KnownToolsNeverRaise(AfterRound(ms, r, round.value), replies, j + 1, n + |r.calls|, parse, dispatch, known);
      }
    }
  }

  /** The input that ends the chat loop of both chatbots: one that,
      stripped, is "quit" in any case. */
  predicate IsQuit(line: string) {
    Lower(Strip(line)) == "quit"
  }

  /** The index of the first input the test calls a quit input, or
      |inputs|. */
  function QuitAt(inputs: seq<string>, isQuit: string -> bool): (k: nat)
    ensures k <= |inputs|
    decreases |inputs|
  {
    if inputs == [] then 0
    else if isQuit(inputs[0]) then 0
    else 1 + QuitAt(inputs[1..], isQuit)
  }

  /** QuitAt is the first quit input: past inputs that are not quit, it
      is the next one exactly when that one is quit. */
  lemma {:induction false} QuitAtFirst(inputs: seq<string>, isQuit: string -> bool, i: nat)
    requires i <= |inputs|
    requires forall k :: 0 <= k < i ==> !isQuit(inputs[k])
    ensures i <= QuitAt(inputs, isQuit)
    ensures i < |inputs| ==> (isQuit(inputs[i]) <==> QuitAt(inputs, isQuit) == i)
    decreases i
  {
    if i > 0 {
      QuitAtFirst(inputs[1..], isQuit, i - 1);
    }
  }

  /** What a chat loop does with its inputs from position i on: the
      outcome of each query it ran, and whether it stopped on a quit input. */
  datatype Chat = Chat(outcomes: seq<Outcome>, quit: bool)

  /** The chat loop of both chatbots from input i, given the quit test and
      how the query read as input k ends (run is given the line as typed):
      a quit input ends the loop; any other input is a query, the empty one
      included; a query that spins never returns, so nothing after it is
      read; any other outcome, an exception included, goes on to the next
      input. */
  function ChatFrom(inputs: seq<string>, isQuit: string -> bool, run: (nat, string) -> Outcome, i: nat): Chat
    requires i <= |inputs|
    decreases |inputs| - i
  {
    if i == |inputs| then Chat([], false)
    else if isQuit(inputs[i]) then Chat([], true)
    else
      var o := run(i, inputs[i]);
      if o.Spins? then Chat([o], false)
      else
        var rest := ChatFrom(inputs, isQuit, run, i + 1);
        Chat([o] + rest.outcomes, rest.quit)
  }

  /** The outcomes are those of the inputs from i on, in order, and none
      but the last spins. */
  lemma {:induction false} ChatFromRuns(inputs: seq<string>, isQuit: string -> bool, run: (nat, string) -> Outcome, i: nat)
    requires i <= |inputs|
    ensures var c := ChatFrom(inputs, isQuit, run, i);
            && i + |c.outcomes| <= |inputs|
            && (forall k :: 0 <= k < |c.outcomes| ==> c.outcomes[k] == run(i + k, inputs[i + k]))
            && (forall k :: 0 <= k < |c.outcomes| - 1 ==> !c.outcomes[k].Spins?)
    decreases |inputs| - i
  {
    if i < |inputs| && !isQuit(inputs[i]) && !run(i, inputs[i]).Spins? {
      ChatFromRuns(inputs, isQuit, run, i + 1);
      var rest := ChatFrom(inputs, isQuit, run, i + 1);
      var c := ChatFrom(inputs, isQuit, run, i);
      assert forall k :: 1 <= k < |c.outcomes| ==> c.outcomes[k] == rest.outcomes[k - 1];
    }
  }

  /** The loop stops at the first quit input, reporting that it quit, or
      right after a query that spins, or when the inputs run out. */
  lemma {:induction false} ChatFromStops(inputs: seq<string>, isQuit: string -> bool, run: (nat, string) -> Outcome, i: nat)
    requires i <= |inputs|
    requires forall k :: 0 <= k < i ==> !isQuit(inputs[k])
    ensures var c := ChatFrom(inputs, isQuit, run, i);
            && i + |c.outcomes| <= QuitAt(inputs, isQuit)
            && (i + |c.outcomes| < QuitAt(inputs, isQuit) ==> |c.outcomes| > 0 && c.outcomes[|c.outcomes| - 1].Spins?)
            && (c.quit <==> QuitAt(inputs, isQuit) < |inputs| && i + |c.outcomes| == QuitAt(inputs, isQuit)
                            && (|c.outcomes| == 0 || !c.outcomes[|c.outcomes| - 1].Spins?))
    decreases |inputs| - i
  {
    QuitAtFirst(inputs, isQuit, i);
    if i < |inputs| && !isQuit(inputs[i]) && !run(i, inputs[i]).Spins? {
      ChatFromStops(inputs, isQuit, run, i + 1);
      var rest := ChatFrom(inputs, isQuit, run, i + 1);
      var c := ChatFrom(inputs, isQuit, run, i);
      if rest.outcomes != [] {
        assert c.outcomes[|c.outcomes| - 1] == rest.outcomes[|rest.outcomes| - 1];
      }
    }
  }

  /** The whole chat loop: it runs the inputs before the first quit input,
      in order, and stops early only after a query that spins; it reports
      quitting exactly when it reached the quit input. */
  lemma ChatShape(inputs: seq<string>, isQuit: string -> bool, run: (nat, string) -> Outcome)
    ensures var c := ChatFrom(inputs, isQuit, run, 0);
            && |c.outcomes| <= QuitAt(inputs, isQuit)
            && (forall k :: 0 <= k < |c.outcomes| ==> c.outcomes[k] == run(k, inputs[k]))
            && (forall k :: 0 <= k < |c.outcomes| - 1 ==> !c.outcomes[k].Spins?)
            && (|c.outcomes| < QuitAt(inputs, isQuit) ==> |c.outcomes| > 0 && c.outcomes[|c.outcomes| - 1].Spins?)
            && (c.quit <==> QuitAt(inputs, isQuit) < |inputs| && |c.outcomes| == QuitAt(inputs, isQuit)
                            && (|c.outcomes| == 0 || !c.outcomes[|c.outcomes| - 1].Spins?))
  {
    ChatFromRuns(inputs, isQuit, run, 0);
    ChatFromStops(inputs, isQuit, run, 0);
  }

  /** Past inputs that are neither quit nor spin, the loop has run each of
      them in order and goes on from there. */
  lemma {:induction false} ChatFromPrefix(inputs: seq<string>, isQuit: string -> bool, run: (nat, string) -> Outcome, outcomes: seq<Outcome>)
    requires |outcomes| <= |inputs|
    requires forall k :: 0 <= k < |outcomes| ==> !isQuit(inputs[k]) && outcomes[k] == run(k, inputs[k]) && !outcomes[k].Spins?
    ensures var rest := ChatFrom(inputs, isQuit, run, |outcomes|);
            ChatFrom(inputs, isQuit, run, 0) == Chat(outcomes + rest.outcomes, rest.quit)
    decreases |outcomes|
  {
    if outcomes != [] {
      var i := |outcomes| - 1;
      ChatFromPrefix(inputs, isQuit, run, outcomes[..i]);
      assert outcomes[..i] + ChatFrom(inputs, isQuit, run, i).outcomes == outcomes + ChatFrom(inputs, isQuit, run, i + 1).outcomes;
    }
  }
}
