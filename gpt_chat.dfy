/** chat_with_gpt of the chatbot with sources and prompts: the system
    instruction and the question, then as long as the model asks for tools,
    one round of direct tool calls through call_tool and the next response;
    any exception ends the question with an apology. Then the chat loop. */
module GptChat {
  import opened Wrappers
  import opened Text
  import opened JsonValues
  import opened PyValues
  import opened PaperStore
  import opened Conversation
  import opened ResearchApp

  /** The system message every question opens with. */
  const AppInstruction: string :=
    "You are a helpful research assistant that can search for and analyze research papers from arXiv. \n" +
    "                You have access to tools that can:\n" +
    "                1. Search for papers on specific topics\n" +
    "                2. Extract detailed information about papers\n" +
    "                3. List available research topics\n" +
    "                4. Get paper counts by topic\n" +
    "                \n" +
    "                Use these tools to help users find and understand research papers. Be conversational and helpful.\n" +
    "                When you find papers, provide a summary of the key findings and suggest what might be interesting to explore further."
  /** What a question answers when anything raised on the way. */
  const ApologyPrefix: string := "Sorry, I encountered an error: "

  /** What call_tool can reach outside the model: the arXiv search, and the
      TypeError text of arguments that do not bind to a tool's
      parameters. */
  datatype Services = Services(arxiv: Arxiv, typeError: (string, Json) -> string)

  /** call_tool(name, args) as the n-th tool call of a question, given the
      folder: its str() result or exception, and the folder afterwards. */
  type ToolCaller = (nat, string, Json, Store) -> Called

  /** What chat_with_gpt works with: the system instruction, json.loads
      and call_tool. */
  datatype Env = Env(instruction: string, loads: string -> Result<Json, string>, call: ToolCaller)

  /** call_tool of this variant. A topic that does not name one directory of
      papers/ is outside the model; such a call raises the TypeError text. */
  function Router(sv: Services): ToolCaller {
    (n: nat, name: string, args: Json, store: Store) =>
      if InModel(name, args) then CallTool(name, args, store, sv.arxiv, sv.typeError, n)
      else Called(Failure(sv.typeError(name, args)), store)
  }

  /** The loop of this variant: json.loads and the router. */
  function AppEnv(loads: string -> Result<Json, string>, sv: Services): Env {
    Env(AppInstruction, loads, Router(sv))
  }

  /** Only search_papers changes the folder. */
  ghost predicate ReadOnlyButSearch(call: ToolCaller) {
    forall n, name, args, store :: name != "search_papers" ==> call(n, name, args, store).store == store
  }

  lemma RouterReadOnlyButSearch(sv: Services)
    ensures ReadOnlyButSearch(Router(sv))
  {
    forall n: nat, name: string, args: Json, store: Store | name != "search_papers"
      ensures Router(sv)(n, name, args, store).store == store
    {
      if InModel(name, args) {
        OnlySearchWrites(name, args, store, sv.arxiv, sv.typeError, n);
      }
    }
  }

  /** A round of tool calls from call i on: the tool messages, the folder
      afterwards, and the exception that ended the round, if any. */
  datatype Round = Round(answers: seq<Message>, store: Store, error: Option<string>)

  /** The for loop over a reply's tool calls from call i on, n calls having
      been made in earlier rounds: the arguments are decoded, call_tool runs,
      and str() of its result becomes a tool message with the call's id. A
      call whose arguments do not decode, or whose tool raises, ends the
      round, keeping what the earlier calls wrote to the folder. */
  function RunFrom(calls: seq<ToolCall>, i: nat, n: nat, store: Store, env: Env): Round
    requires i <= |calls|
    decreases |calls| - i
  {
    if i == |calls| then Round([], store, None)
    else
      match env.loads(calls[i].arguments)
      case Failure(e) => Round([], store, Some(e))
      case Success(args) =>
        var c := env.call(n + i, calls[i].name, args, store);
        match c.result
        case Failure(e) => Round([], c.store, Some(e))
        case Success(text) =>
          var rest := RunFrom(calls, i + 1, n, c.store, env);
          Round([ToolMsg(calls[i].id, VStr(text))] + rest.answers, rest.store, rest.error)
  }

  function Prefixed(answers: seq<Message>, r: Round): Round {
    Round(answers + r.answers, r.store, r.error)
  }

  /** The folder call k of a round sees, the round having started at call i
      with the given folder: each earlier call whose arguments decode has
      run on the folder the one before it left. */
  function StoreBefore(calls: seq<ToolCall>, i: nat, n: nat, store: Store, env: Env, k: nat): Store
    requires i <= k <= |calls|
    decreases k - i
  {
    if k == i then store
    else
      match env.loads(calls[i].arguments)
      case Failure(_) => store
      case Success(args) => StoreBefore(calls, i + 1, n, env.call(n + i, calls[i].name, args, store).store, env, k)
  }

  /** A round that raised nothing answers every call, in order, with one
      tool message carrying the call's id and str() of what call_tool
      returned for the call's decoded arguments on the folder the earlier
      calls left; the round leaves the folder the last call left. */
  lemma {:induction false} RoundAnswers(calls: seq<ToolCall>, i: nat, n: nat, store: Store, env: Env)
    requires i <= |calls|
    ensures var r := RunFrom(calls, i, n, store, env);
            r.error.None? ==>
              && |r.answers| == |calls| - i
              && r.store == StoreBefore(calls, i, n, store, env, |calls|)
              && forall t :: 0 <= t < |r.answers| ==>
                   && r.answers[t].ToolMsg? && r.answers[t].callId == calls[i + t].id
                   && env.loads(calls[i + t].arguments).Success?
                   && var c := env.call(n + i + t, calls[i + t].name, env.loads(calls[i + t].arguments).value,
                                        StoreBefore(calls, i, n, store, env, i + t));
                   && c.result.Success?
                   && r.answers[t] == ToolMsg(calls[i + t].id, VStr(c.result.value))
    decreases |calls| - i
  {
    if i < |calls| && env.loads(calls[i].arguments).Success? {
      var c := env.call(n + i, calls[i].name, env.loads(calls[i].arguments).value, store);
      if c.result.Success? {
        RoundAnswers(calls, i + 1, n, c.store, env);
        forall k | i + 1 <= k <= |calls|
          ensures StoreBefore(calls, i, n, store, env, k) == StoreBefore(calls, i + 1, n, c.store, env, k)
        {
        }
        var r := RunFrom(calls, i, n, store, env);
        var rest := RunFrom(calls, i + 1, n, c.store, env);
        forall t | 1 <= t < |r.answers|
          ensures r.answers[t] == rest.answers[t - 1]
        {
        }
      }
    }
  }

  predicate NoSearch(calls: seq<ToolCall>) {
    forall t :: 0 <= t < |calls| ==> calls[t].name != "search_papers"
  }

  /** A round without a search_papers call leaves the folder as it was. */
  lemma {:induction false} RoundKeepsStore(calls: seq<ToolCall>, i: nat, n: nat, store: Store, env: Env)
    requires i <= |calls|
    requires NoSearch(calls)
    requires ReadOnlyButSearch(env.call)
    ensures RunFrom(calls, i, n, store, env).store == store
    decreases |calls| - i
  {
    if i < |calls| && env.loads(calls[i].arguments).Success? {
      var args := env.loads(calls[i].arguments).value;
      var c := env.call(n + i, calls[i].name, args, store);
      if c.result.Success? {
        RoundKeepsStore(calls, i + 1, n, c.store, env);
      }
    }
  }

  method RunTools(calls: seq<ToolCall>, n: nat, store: Store, env: Env) returns (round: Round)
    ensures round == RunFrom(calls, 0, n, store, env)
  {
    var answers: seq<Message> := [];
    var st := store;
    var i := 0;
    while i < |calls|
      invariant 0 <= i <= |calls|
      invariant RunFrom(calls, 0, n, store, env) == Prefixed(answers, RunFrom(calls, i, n, st, env))
    {
      var call := calls[i];
      var loaded := env.loads(call.arguments);
      if loaded.Failure? {
        assert answers + [] == answers;
        return Round(answers, st, Some(loaded.error));
      }
      var c := env.call(n + i, call.name, loaded.value, st);
      if c.result.Failure? {
        assert answers + [] == answers;
        return Round(answers, c.store, Some(c.result.error));
      }
      var msg := ToolMsg(call.id, VStr(c.result.value));
      assert answers + ([msg] + RunFrom(calls, i + 1, n, c.store, env).answers)
          == (answers + [msg]) + RunFrom(calls, i + 1, n, c.store, env).answers;
      answers := answers + [msg];
      st := c.store;
      i := i + 1;
    }
    assert answers + [] == answers;
    return Round(answers, st, None);
  }

  /** How a question ends: with the model's last content (None when it sent
      none), the transcript and the number of responses used; with an
      apology; or, in the model only, when the given responses run out. The
      folder as the question left it is part of each. */
  datatype GptOutcome =
    | Said(transcript: seq<Message>, content: Option<string>, used: nat, store: Store)
    | Apology(text: string, store: Store)
    | RepliesRanOut(store: Store)

  function AssistantOf(r: Reply): Message {
    Assistant(r.content, r.calls)
  }

  /** The transcript every question starts from: the system instruction,
      then the question. */
  function ChatStart(instruction: string, question: string): seq<Message> {
    [System(instruction), User(question)]
  }

  /** The while loop of chat_with_gpt: ms ends with the reply of response j,
      and n tool calls were made before it. */
  function GptFrom(ms: seq<Message>, responses: seq<Response>, j: nat, n: nat, store: Store, env: Env): GptOutcome
    requires j < |responses| && responses[j].Success?
    decreases |responses| - j
  {
    var r := responses[j].value;
    if r.calls == [] then Said(ms, r.content, j + 1, store)
    else
      var round := RunFrom(r.calls, 0, n, store, env);
      if round.error.Some? then Apology(ApologyPrefix + round.error.value, round.store)
      else if j + 1 == |responses| then RepliesRanOut(round.store)
      else
        match responses[j + 1]
        case Failure(e) => Apology(ApologyPrefix + e, round.store)
        case Success(next) =>
          GptFrom(ms + round.answers + [AssistantOf(next)], responses, j + 1, n + |r.calls|, round.store, env)
  }

  /** chat_with_gpt(question), the responses being those of its requests in
      turn. */
  function GptQuery(question: string, responses: seq<Response>, store: Store, env: Env): GptOutcome
  {
    if responses == [] then RepliesRanOut(store)
    else
      match responses[0]
      case Failure(e) => Apology(ApologyPrefix + e, store)
      case Success(r) => GptFrom(ChatStart(env.instruction, question) + [AssistantOf(r)], responses, 0, 0, store, env)
  }

  method ChatWithGpt(question: string, responses: seq<Response>, store: Store, env: Env) returns (o: GptOutcome)
    ensures o == GptQuery(question, responses, store, env)
  {
    if responses == [] {
      return RepliesRanOut(store);
    }
    if responses[0].Failure? {
      return Apology(ApologyPrefix + responses[0].error, store);
    }
    var reply := responses[0].value;
    var messages := ChatStart(env.instruction, question) + [AssistantOf(reply)];
    var j: nat := 0;
    var n: nat := 0;
    var st := store;
    while reply.calls != []
      invariant 0 <= j < |responses| && responses[j] == Success(reply)
      invariant GptFrom(messages, responses, j, n, st, env) == GptQuery(question, responses, store, env)
      decreases |responses| - j
    {
      var round := RunTools(reply.calls, n, st, env);
      if round.error.Some? {
        return Apology(ApologyPrefix + round.error.value, round.store);
      }
      if j + 1 == |responses| {
        return RepliesRanOut(round.store);
      }
      if responses[j + 1].Failure? {
        return Apology(ApologyPrefix + responses[j + 1].error, round.store);
      }
      messages := messages + round.answers;
      n := n + |reply.calls|;
      j := j + 1;
      reply := responses[j].value;
      st := round.store;
      messages := messages + [AssistantOf(reply)];
    }
    return Said(messages, reply.content, j + 1, st);
  }

  /** A transcript under construction: well paired up to its last message,
      which is the reply of response j. */
  predicate Pending(ms: seq<Message>, r: Reply) {
    |ms| >= 1 && ms[|ms| - 1] == AssistantOf(r) && WellPaired(ms[..|ms| - 1])
  }

  /** A pending reply that asks for no tool completes a well-paired
      transcript. */
  lemma PendingDone(ms: seq<Message>, r: Reply)
    requires Pending(ms, r) && r.calls == []
    ensures WellPaired(ms)
  {
    var front := ms[..|ms| - 1];
    var one: seq<Message> := [AssistantOf(r)];
    assert ms == front + one;
    assert WellPaired(one) by {
      assert one[1..] == [];
    }
    WellPairedAppend(front, one);
  }

  /** Answering a pending reply's calls in order and appending the next
      reply leaves that reply pending. */
  lemma PendingStep(ms: seq<Message>, r: Reply, answers: seq<Message>, next: Reply)
    requires Pending(ms, r)
    requires |answers| == |r.calls|
    requires forall t :: 0 <= t < |answers| ==> answers[t].ToolMsg? && answers[t].callId == r.calls[t].id
    ensures Pending(ms + answers + [AssistantOf(next)], next)
  {
    var front := ms[..|ms| - 1];
    var ms' := ms + answers + [AssistantOf(next)];
    assert ms == front + [AssistantOf(r)];
    CallBlockWellPaired(r.content, r.calls, answers);
    WellPairedAppend(front, [AssistantOf(r)] + answers);
    assert ms'[..|ms'| - 1] == front + ([AssistantOf(r)] + answers);
  }

  /** The transcript of an answered question extends the one the loop
      started from. */
  lemma {:induction false} GptFromExtends(ms: seq<Message>, responses: seq<Response>, j: nat, n: nat, store: Store, env: Env)
    requires j < |responses| && responses[j].Success?
    ensures var o := GptFrom(ms, responses, j, n, store, env);
            o.Said? ==> |ms| <= |o.transcript| && o.transcript[..|ms|] == ms
    decreases |responses| - j
  {
    var r := responses[j].value;
    if r.calls != [] {
      var round := RunFrom(r.calls, 0, n, store, env);
      if round.error.None? && j + 1 < |responses| && responses[j + 1].Success? {
        var next := responses[j + 1].value;
        var ms' := ms + round.answers + [AssistantOf(next)];
        GptFromExtends(ms', responses, j + 1, n + |r.calls|, round.store, env);
        var o := GptFrom(ms', responses, j + 1, n + |r.calls|, round.store, env);
        assert GptFrom(ms, responses, j, n, store, env) == o;
        if o.Said? {
          assert ms'[..|ms|] == ms;
          assert o.transcript[..|ms|] == o.transcript[..|ms'|][..|ms|];
        }
      }
    }
  }

  /** The transcript of an answered question is well paired. */
  lemma {:induction false} GptFromPaired(ms: seq<Message>, responses: seq<Response>, j: nat, n: nat, store: Store, env: Env)
    requires j < |responses| && responses[j].Success?
    requires Pending(ms, responses[j].value)
    ensures var o := GptFrom(ms, responses, j, n, store, env);
            o.Said? ==> WellPaired(o.transcript)
    decreases |responses| - j
  {
    var r := responses[j].value;
    if r.calls == [] {
      PendingDone(ms, r);
    } else {
      var round := RunFrom(r.calls, 0, n, store, env);
      if round.error.None? && j + 1 < |responses| && responses[j + 1].Success? {
        var next := responses[j + 1].value;
        var ms' := ms + round.answers + [AssistantOf(next)];
        RoundAnswers(r.calls, 0, n, store, env);
        PendingStep(ms, r, round.answers, next);
        GptFromPaired(ms', responses, j + 1, n + |r.calls|, round.store, env);
        assert GptFrom(ms, responses, j, n, store, env) == GptFrom(ms', responses, j + 1, n + |r.calls|, round.store, env);
      }
    }
  }

  /** An answered question ends on the first response whose reply asks for
      no tool; every earlier response was a reply asking for tools, and the
      content comes from that last reply, which ends the transcript. */
  lemma {:induction false} GptFromStops(ms: seq<Message>, responses: seq<Response>, j: nat, n: nat, store: Store, env: Env)
    requires j < |responses| && responses[j].Success?
    requires |ms| >= 1 && ms[|ms| - 1] == AssistantOf(responses[j].value)
    ensures var o := GptFrom(ms, responses, j, n, store, env);
            o.Said? ==>
              && j < o.used <= |responses|
              && responses[o.used - 1].Success?
              && responses[o.used - 1].value.calls == []
              && o.content == responses[o.used - 1].value.content
              && |o.transcript| >= 1
              && o.transcript[|o.transcript| - 1] == AssistantOf(responses[o.used - 1].value)
              && (forall k :: j <= k < o.used - 1 ==> responses[k].Success? && responses[k].value.calls != [])
    decreases |responses| - j
  {
    var r := responses[j].value;
    if r.calls != [] {
      var round := RunFrom(r.calls, 0, n, store, env);
      if round.error.None? && j + 1 < |responses| && responses[j + 1].Success? {
        var next := responses[j + 1].value;
        GptFromStops(ms + round.answers + [AssistantOf(next)], responses, j + 1, n + |r.calls|, round.store, env);
      }
    }
  }

  /** An apology carries the text of the exception after its fixed opening. */
  lemma {:induction false} GptFromApology(ms: seq<Message>, responses: seq<Response>, j: nat, n: nat, store: Store, env: Env)
    requires j < |responses| && responses[j].Success?
    ensures var o := GptFrom(ms, responses, j, n, store, env);
            o.Apology? ==> |ApologyPrefix| <= |o.text| && o.text[..|ApologyPrefix|] == ApologyPrefix
    decreases |responses| - j
  {
    var r := responses[j].value;
    if r.calls != [] {
      var round := RunFrom(r.calls, 0, n, store, env);
      if round.error.None? && j + 1 < |responses| && responses[j + 1].Success? {
        var next := responses[j + 1].value;
        GptFromApology(ms + round.answers + [AssistantOf(next)], responses, j + 1, n + |r.calls|, round.store, env);
      }
    }
  }

  /** The responses run out only when every one of them was a reply asking
      for tools. */
  lemma {:induction false} GptFromRanOut(ms: seq<Message>, responses: seq<Response>, j: nat, n: nat, store: Store, env: Env)
    requires j < |responses| && responses[j].Success?
    ensures GptFrom(ms, responses, j, n, store, env).RepliesRanOut? ==>
              forall k :: j <= k < |responses| ==> responses[k].Success? && responses[k].value.calls != []
    decreases |responses| - j
  {
    var r := responses[j].value;
    if r.calls != [] {
      var round := RunFrom(r.calls, 0, n, store, env);
      if round.error.None? && j + 1 < |responses| && responses[j + 1].Success? {
        var next := responses[j + 1].value;
        GptFromRanOut(ms + round.answers + [AssistantOf(next)], responses, j + 1, n + |r.calls|, round.store, env);
      }
    }
  }

  predicate NeverSearches(responses: seq<Response>) {
    forall j :: 0 <= j < |responses| && responses[j].Success? ==> NoSearch(responses[j].value.calls)
  }

  function StoreAfter(o: GptOutcome): Store {
    o.store
  }

  /** A question whose replies never call search_papers leaves the folder as
      it was, however it ends. */
  lemma {:induction false} GptFromKeepsStore(ms: seq<Message>, responses: seq<Response>, j: nat, n: nat, store: Store, env: Env)
    requires j < |responses| && responses[j].Success?
    requires NeverSearches(responses)
    requires ReadOnlyButSearch(env.call)
    ensures GptFrom(ms, responses, j, n, store, env).store == store
    decreases |responses| - j
  {
    var r := responses[j].value;
    if r.calls != [] {
      RoundKeepsStore(r.calls, 0, n, store, env);
      var round := RunFrom(r.calls, 0, n, store, env);
      if round.error.None? && j + 1 < |responses| && responses[j + 1].Success? {
        var next := responses[j + 1].value;
        GptFromKeepsStore(ms + round.answers + [AssistantOf(next)], responses, j + 1, n + |r.calls|, round.store, env);
      }
    }
  }

  /** The assistant messages of a transcript, in order. */
  function AssistantsIn(ms: seq<Message>): seq<Message>
    decreases |ms|
  {
    if ms == [] then []
    else AssistantsIn(ms[..|ms| - 1]) + (if ms[|ms| - 1].Assistant? then [ms[|ms| - 1]] else [])
  }

  /** Tool messages add no assistant message. */
  lemma {:induction false} AssistantsInTools(a: seq<Message>, b: seq<Message>)
    requires forall t :: 0 <= t < |b| ==> b[t].ToolMsg?
    ensures AssistantsIn(a + b) == AssistantsIn(a)
    decreases |b|
  {
    if b == [] {
      assert a + b == a;
    } else {
      var b' := b[..|b| - 1];
      assert (a + b)[..|a + b| - 1] == a + b';
      AssistantsInTools(a, b');
    }
  }

  /** The assistant messages of ms are the replies of the first k
      responses, in order. */
  ghost predicate RepliesSoFar(ms: seq<Message>, responses: seq<Response>, k: nat) {
    && k <= |responses|
    && |AssistantsIn(ms)| == k
    && forall i :: 0 <= i < k ==> responses[i].Success? && AssistantsIn(ms)[i] == AssistantOf(responses[i].value)
  }

  /** A round's tool answers and the next reply extend the replies so far
      by that reply. */
  lemma RepliesStep(ms: seq<Message>, answers: seq<Message>, next: Reply, responses: seq<Response>, j: nat)
    requires j + 1 < |responses| && responses[j + 1] == Success(next)
    requires forall t :: 0 <= t < |answers| ==> answers[t].ToolMsg?
    requires RepliesSoFar(ms, responses, j + 1)
    ensures RepliesSoFar(ms + answers + [AssistantOf(next)], responses, j + 2)
  {
    var ms' := ms + answers + [AssistantOf(next)];
    AssistantsInTools(ms, answers);
    assert ms'[..|ms'| - 1] == ms + answers;
    assert AssistantsIn(ms') == AssistantsIn(ms) + [AssistantOf(next)];
  }

  /** A round that raises nothing answers with tool messages only. */
  lemma RoundToolMsgs(calls: seq<ToolCall>, n: nat, store: Store, env: Env)
    ensures var r := RunFrom(calls, 0, n, store, env);
            r.error.None? ==> forall t :: 0 <= t < |r.answers| ==> r.answers[t].ToolMsg?
  {
    RoundAnswers(calls, 0, n, store, env);
  }

  /** Every reply the loop receives is appended, in order: the transcript
      of an answered question holds one assistant message per response
      used. */
  lemma {:induction false} GptFromReplies(ms: seq<Message>, responses: seq<Response>, j: nat, n: nat, store: Store, env: Env)
    requires j < |responses| && responses[j].Success?
    requires RepliesSoFar(ms, responses, j + 1)
    ensures var o := GptFrom(ms, responses, j, n, store, env);
            o.Said? ==> RepliesSoFar(o.transcript, responses, o.used)
    decreases |responses| - j
  {
    var r := responses[j].value;
    if r.calls != [] {
      var round := RunFrom(r.calls, 0, n, store, env);
      if round.error.None? && j + 1 < |responses| && responses[j + 1].Success? {
        var next := responses[j + 1].value;
        RoundToolMsgs(r.calls, n, store, env);
        RepliesStep(ms, round.answers, next, responses, j);
        GptFromReplies(ms + round.answers + [AssistantOf(next)], responses, j + 1, n + |r.calls|, round.store, env);
      }
    }
  }

  /** The first reply is pending on the opening messages. */
  lemma StartPending(instruction: string, question: string, r: Reply)
    ensures Pending(ChatStart(instruction, question) + [AssistantOf(r)], r)
  {
    var start := ChatStart(instruction, question);
    var ms := start + [AssistantOf(r)];
    assert ms[..|ms| - 1] == start;
    assert WellPaired(start) by {
      assert start[1..][1..] == [];
    }
  }

  /** An answered question: its transcript opens with the system
      instruction and the question, is well paired, and ends with the first
      reply that asks for no tool, whose content is the answer; every
      earlier response was a reply asking for tools; and every reply used
      is in the transcript, in order, as its assistant messages. */
  lemma GptSaid(question: string, responses: seq<Response>, store: Store, env: Env)
    ensures var o := GptQuery(question, responses, store, env);
            o.Said? ==>
              && |o.transcript| >= 3
              && o.transcript[..2] == ChatStart(env.instruction, question)
              && WellPaired(o.transcript)
              && 0 < o.used <= |responses|
              && responses[o.used - 1].Success?
              && responses[o.used - 1].value.calls == []
              && o.content == responses[o.used - 1].value.content
              && o.transcript[|o.transcript| - 1] == AssistantOf(responses[o.used - 1].value)
              && (forall k :: 0 <= k < o.used - 1 ==> responses[k].Success? && responses[k].value.calls != [])
              && |AssistantsIn(o.transcript)| == o.used
              && (forall k :: 0 <= k < o.used ==> AssistantsIn(o.transcript)[k] == AssistantOf(responses[k].value))
  {
    if responses != [] && responses[0].Success? {
      var r := responses[0].value;
      var start := ChatStart(env.instruction, question);
      var ms := start + [AssistantOf(r)];
      StartPending(env.instruction, question, r);
      assert AssistantsIn(start) == [] by {
        var first := [System(env.instruction)];
        assert first[..0] == [];
        assert AssistantsIn(first) == [];
        assert start[..1] == first;
      }
      assert ms[..|ms| - 1] == start;
      GptFromReplies(ms, responses, 0, 0, store, env);
      GptFromExtends(ms, responses, 0, 0, store, env);
      GptFromPaired(ms, responses, 0, 0, store, env);
      GptFromStops(ms, responses, 0, 0, store, env);
      var o := GptQuery(question, responses, store, env);
      if o.Said? {
        assert o.transcript[..2] == o.transcript[..|ms|][..2];
      }
    }
  }

  /** Any other ending: an apology opens with the fixed text; running out of
      responses means every response was a reply asking for tools; and
      without search_papers calls the folder is unchanged. */
  lemma GptOtherEndings(question: string, responses: seq<Response>, store: Store, env: Env)
    ensures var o := GptQuery(question, responses, store, env);
            && (o.Apology? ==> |ApologyPrefix| <= |o.text| && o.text[..|ApologyPrefix|] == ApologyPrefix)
            && (o.RepliesRanOut? ==> forall k :: 0 <= k < |responses| ==> responses[k].Success? && responses[k].value.calls != [])
            && (NeverSearches(responses) && ReadOnlyButSearch(env.call) ==> o.store == store)
  {
    if responses != [] && responses[0].Success? {
      var ms := ChatStart(env.instruction, question) + [AssistantOf(responses[0].value)];
      GptFromApology(ms, responses, 0, 0, store, env);
      GptFromRanOut(ms, responses, 0, 0, store, env);
      if NeverSearches(responses) && ReadOnlyButSearch(env.call) {
        GptFromKeepsStore(ms, responses, 0, 0, store, env);
      }
    }
  }

  // ---------------------------------------------------------------------
  // The chat loop

  /** What the chat loop does with a line. */
  datatype Command = Quit | Skip | Ask(question: string)

  /** The line is stripped; "quit", "exit" or "q" in any case ends the loop,
      an empty line is skipped, anything else is asked. */
  function Classify(line: string): Command {
    var s := Strip(line);
    if Lower(s) in ["quit", "exit", "q"] then Quit
    else if s == "" then Skip
    else Ask(s)
  }

  /** A question is the line without its surrounding whitespace: a
      non-empty slice of it that neither starts nor ends with whitespace,
      with only whitespace around it. */
  lemma AskedIsStripped(line: string)
    requires Classify(line).Ask?
    ensures var q := Classify(line).question;
            var k := |line| - |TrimStart(line)|;
            && q != []
            && !IsSpace(q[0]) && !IsSpace(q[|q| - 1])
            && 0 <= k && k + |q| <= |line| && q == line[k..k + |q|]
            && (forall i :: 0 <= i < k ==> IsSpace(line[i]))
            && (forall i :: k + |q| <= i < |line| ==> IsSpace(line[i]))
  {
    StripKeepsMiddle(line);
  }

  /** What the chat loop did: the answers of the questions it asked, in
      order, the folder afterwards, and whether it stopped on a quit line. */
  datatype AppChat = AppChat(answers: seq<GptOutcome>, store: Store, quit: bool)

  /** The chat loop from line i on, m questions having been asked: quit
      stops, an empty line is skipped, any other line is asked with the
      folder the previous question left. */
  function AppChatFrom(inputs: seq<string>, i: nat, m: nat, store: Store, classify: string -> Command, ask: (nat, string, Store) -> GptOutcome): AppChat
    requires i <= |inputs|
    decreases |inputs| - i
  {
    if i == |inputs| then AppChat([], store, false)
    else
      match classify(inputs[i])
      case Quit => AppChat([], store, true)
      case Skip => AppChatFrom(inputs, i + 1, m, store, classify, ask)
      case Ask(q) =>
        var o := ask(m, q, store);
        var rest := AppChatFrom(inputs, i + 1, m + 1, o.store, classify, ask);
        AppChat([o] + rest.answers, rest.store, rest.quit)
  }

  function Joined(answers: seq<GptOutcome>, c: AppChat): AppChat {
    AppChat(answers + c.answers, c.store, c.quit)
  }

  /** One line of the chat loop. */
  lemma AppChatStep(inputs: seq<string>, i: nat, m: nat, store: Store, classify: string -> Command, ask: (nat, string, Store) -> GptOutcome)
    requires i < |inputs|
    ensures var c := AppChatFrom(inputs, i, m, store, classify, ask);
            && (classify(inputs[i]).Quit? ==> c == AppChat([], store, true))
            && (classify(inputs[i]).Skip? ==> c == AppChatFrom(inputs, i + 1, m, store, classify, ask))
            && (classify(inputs[i]).Ask? ==>
                  var o := ask(m, classify(inputs[i]).question, store);
                  c == Joined([o], AppChatFrom(inputs, i + 1, m + 1, o.store, classify, ask)))
  {
  }

  /** The questions among the lines from i on, up to the first quit line. */
  function Questions(inputs: seq<string>, i: nat, classify: string -> Command): seq<string>
    requires i <= |inputs|
    decreases |inputs| - i
  {
    if i == |inputs| then []
    else
      match classify(inputs[i])
      case Quit => []
      case Skip => Questions(inputs, i + 1, classify)
      case Ask(q) => [q] + Questions(inputs, i + 1, classify)
  }

  /** The loop answers each question before the first quit line exactly
      once, reports quitting exactly when there is a quit line, and leaves
      the folder alone when it asked nothing. */
  lemma {:induction false} AppChatShape(inputs: seq<string>, i: nat, m: nat, store: Store, classify: string -> Command, ask: (nat, string, Store) -> GptOutcome)
    requires i <= |inputs|
    ensures var c := AppChatFrom(inputs, i, m, store, classify, ask);
            && |c.answers| == |Questions(inputs, i, classify)|
            && (c.quit <==> exists k :: i <= k < |inputs| && classify(inputs[k]).Quit?)
            && (Questions(inputs, i, classify) == [] ==> c.store == store)
    decreases |inputs| - i
  {
    if i < |inputs| {
      match classify(inputs[i])
      case Quit =>
      case Skip =>
        AppChatShape(inputs, i + 1, m, store, classify, ask);
        assert forall k :: i <= k < |inputs| && classify(inputs[k]).Quit? ==> i + 1 <= k;
      case Ask(q) =>
        var o := ask(m, q, store);
        AppChatShape(inputs, i + 1, m + 1, o.store, classify, ask);
        assert forall k :: i <= k < |inputs| && classify(inputs[k]).Quit? ==> i + 1 <= k;
    }
  }

  /** answers are the answers to the questions qs, asked in order from
      question number m on: each is asked with the folder the one before it
      left, the first with store. */
  ghost predicate AnsweredInOrder(answers: seq<GptOutcome>, qs: seq<string>, m: nat, store: Store, ask: (nat, string, Store) -> GptOutcome) {
    && |answers| == |qs|
    && (qs != [] ==> answers[0] == ask(m, qs[0], store))
    && (forall k :: 0 < k < |qs| ==> answers[k] == ask(m + k, qs[k], answers[k - 1].store))
  }

  /** Asking q first, then the questions after it in order, asks [q] + qs
      in order. */
  lemma AnsweredInOrderCons(o: GptOutcome, rest: seq<GptOutcome>, q: string, qs: seq<string>, m: nat, store: Store, ask: (nat, string, Store) -> GptOutcome)
    requires o == ask(m, q, store)
    requires AnsweredInOrder(rest, qs, m + 1, o.store, ask)
    ensures AnsweredInOrder([o] + rest, [q] + qs, m, store, ask)
  {
    var a := [o] + rest;
    var b := [q] + qs;
    forall k | 0 < k < |b|
      ensures a[k] == ask(m + k, b[k], a[k - 1].store)
    {
      assert a[k] == rest[k - 1];
      assert b[k] == qs[k - 1];
      if k > 1 {
        assert a[k - 1] == rest[k - 2];
      }
    }
  }

  /** The loop asks its questions in order, each with the number of
      questions before it: the k-th answer is the answer to the k-th
      question, given the folder as the questions before it left it. */
  lemma {:induction false} AppChatAsks(inputs: seq<string>, i: nat, m: nat, store: Store, classify: string -> Command, ask: (nat, string, Store) -> GptOutcome)
    requires i <= |inputs|
    ensures AnsweredInOrder(AppChatFrom(inputs, i, m, store, classify, ask).answers, Questions(inputs, i, classify), m, store, ask)
    decreases |inputs| - i
  {
    if i < |inputs| {
      match classify(inputs[i])
      case Quit =>
      case Skip =>
        AppChatAsks(inputs, i + 1, m, store, classify, ask);
      case Ask(q) =>
        var o := ask(m, q, store);
        AppChatAsks(inputs, i + 1, m + 1, o.store, classify, ask);
        var rest := AppChatFrom(inputs, i + 1, m + 1, o.store, classify, ask);
        AnsweredInOrderCons(o, rest.answers, q, Questions(inputs, i + 1, classify), m, store, ask);
    }
  }

  /** The m-th question of the loop, with its responses and what its loop
      calls. */
  function AskGpt(responsesFor: nat -> seq<Response>, envFor: nat -> Env): (nat, string, Store) -> GptOutcome {
    (m: nat, q: string, st: Store) => GptQuery(q, responsesFor(m), st, envFor(m))
  }

  /** This variant's loop for every question: json.loads and the router over
      the m-th question's services. */
  function AppEnvs(loads: string -> Result<Json, string>, servicesFor: nat -> Services): nat -> Env {
    (m: nat) => AppEnv(loads, servicesFor(m))
  }

  /** The chat loop of run_chatbot over the lines typed: the m-th question
      gets the m-th list of responses, and its loop runs with this
      variant's instruction, json.loads and the router over the m-th
      question's services. */
  method ChatLoop(inputs: seq<string>, store: Store, responsesFor: nat -> seq<Response>,
                  loads: string -> Result<Json, string>, servicesFor: nat -> Services)
    returns (answers: seq<GptOutcome>, final: Store, quit: bool)
    ensures AppChat(answers, final, quit)
            == AppChatFrom(inputs, 0, 0, store, Classify, AskGpt(responsesFor, AppEnvs(loads, servicesFor)))
  {
    answers, final, quit := ChatLines(inputs, store, responsesFor, AppEnvs(loads, servicesFor), Classify);
  }

  /** The loop of ChatLoop, for any way of reading a line. */
  method ChatLines(inputs: seq<string>, store: Store, responsesFor: nat -> seq<Response>, envFor: nat -> Env, classify: string -> Command)
    returns (answers: seq<GptOutcome>, final: Store, quit: bool)
    ensures AppChat(answers, final, quit) == AppChatFrom(inputs, 0, 0, store, classify, AskGpt(responsesFor, envFor))
  {
    ghost var ask := AskGpt(responsesFor, envFor);
    answers := [];
    final := store;
    var i := 0;
    while i < |inputs|
      invariant 0 <= i <= |inputs|
      invariant AppChatFrom(inputs, 0, 0, store, classify, ask) == Joined(answers, AppChatFrom(inputs, i, |answers|, final, classify, ask))
    {
      var stop;
      answers, final, stop := ChatLine(inputs, i, answers, final, responsesFor, envFor, classify);
      if stop {
        return answers, final, true;
      }
      i := i + 1;
    }
    assert answers + [] == answers;
    quit := false;
  }

  /** One pass of the chat loop: line i is read; a quit line stops the
      loop, an empty one is skipped, any other is asked as question number
      |answers| and its answer is appended. */
  method ChatLine(inputs: seq<string>, i: nat, answers: seq<GptOutcome>, final: Store, responsesFor: nat -> seq<Response>, envFor: nat -> Env, classify: string -> Command)
    returns (answers': seq<GptOutcome>, final': Store, stop: bool)
    requires i < |inputs|
    ensures var ask := AskGpt(responsesFor, envFor);
            Joined(answers, AppChatFrom(inputs, i, |answers|, final, classify, ask)) ==
              if stop then AppChat(answers', final', true)
              else Joined(answers', AppChatFrom(inputs, i + 1, |answers'|, final', classify, ask))
  {
    ghost var ask := AskGpt(responsesFor, envFor);
    var command := classify(inputs[i]);
    AppChatStep(inputs, i, |answers|, final, classify, ask);
    answers', final', stop := answers, final, false;
    if command.Quit? {
      assert answers + [] == answers;
      stop := true;
    } else if command.Ask? {
      var m := |answers|;
      var o := ChatWithGpt(command.question, responsesFor(m), final, envFor(m));
      assert o == ask(m, command.question, final);
      ghost var rest := AppChatFrom(inputs, i + 1, m + 1, o.store, classify, ask);
      assert answers + ([o] + rest.answers) == (answers + [o]) + rest.answers;
      answers' := answers + [o];
      final' := o.store;
    }
  }
}
