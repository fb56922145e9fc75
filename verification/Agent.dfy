/** The bounded LLM and tool loop, against a model and tools that may answer anything. */
module Agent {
  import opened Types
  import opened Answers

  datatype ToolCall = ToolCall(id: string, name: string, arguments: string)

  datatype ChatMessage = ChatMessage(role: string, content: string, calls: seq<ToolCall>, callId: string)

  /** What the endpoint replies to the request of a turn; None is a failed call. */
  type Chat = (nat, seq<ChatMessage>) -> Option<ChatMessage>

  /** What call number i of a turn's reply yields; tool errors are results too. */
  type Tools = (nat, nat, ToolCall) -> string

  const MAX_AGENT_TURNS: nat := 8

  // ---------- What a conversation must look like ----------

  function ToolMessage(call: ToolCall, content: string): ChatMessage {
    ChatMessage("tool", content, [], call.id)
  }

  /** One message per call, in order, each with that call's ID. */
  predicate Answer(calls: seq<ToolCall>, ms: seq<ChatMessage>) {
    && |ms| == |calls|
    && forall i :: 0 <= i < |calls| ==> ms[i].role == "tool" && ms[i].callId == calls[i].id && ms[i].calls == []
  }

  /** Blocks of one tool-calling reply, followed by the answers to exactly its calls. */
  predicate Blocks(ms: seq<ChatMessage>) {
    if ms == [] then true
    else
      var n := |ms[0].calls|;
      0 < n < |ms| && Answer(ms[0].calls, ms[1..n + 1]) && Blocks(ms[n + 1..])
  }

  function CountBlocks(ms: seq<ChatMessage>): nat
    requires Blocks(ms)
  {
    if ms == [] then 0 else 1 + CountBlocks(ms[|ms[0].calls| + 1..])
  }

  predicate WellFormedTranscript(ms: seq<ChatMessage>) {
    |ms| >= 2 && ms[0].role == "system" && ms[1].role == "user" && Blocks(ms[2..])
  }

  lemma FirstBlockStays(a: seq<ChatMessage>, b: seq<ChatMessage>, n: nat)
    requires n < |a|
    ensures (a + b)[0] == a[0] && (a + b)[1..n + 1] == a[1..n + 1] && (a + b)[n + 1..] == a[n + 1..] + b
  {
  }

  lemma {:induction false} BlocksConcat(a: seq<ChatMessage>, b: seq<ChatMessage>)
    requires Blocks(a) && Blocks(b)
    ensures Blocks(a + b) && CountBlocks(a + b) == CountBlocks(a) + CountBlocks(b)
  {
    if a == [] {
      assert a + b == b;
    } else {
      BlocksConcat(a[|a[0].calls| + 1..], b);
      FirstBlockStays(a, b, |a[0].calls|);
    }
  }

  lemma SingleBlock(reply: ChatMessage, answers: seq<ChatMessage>)
    requires reply.calls != [] && Answer(reply.calls, answers)
    ensures Blocks([reply] + answers) && CountBlocks([reply] + answers) == 1
  {
    var ms := [reply] + answers;
    assert ms[1..|reply.calls| + 1] == answers && ms[|reply.calls| + 1..] == [];
  }

  lemma OneMoreBlock(ms: seq<ChatMessage>, reply: ChatMessage, answers: seq<ChatMessage>)
    requires Blocks(ms) && reply.calls != [] && Answer(reply.calls, answers)
    ensures Blocks(ms + [reply] + answers) && CountBlocks(ms + [reply] + answers) == CountBlocks(ms) + 1
  {
    SingleBlock(reply, answers);
    BlocksConcat(ms, [reply] + answers);
    assert ms + [reply] + answers == ms + ([reply] + answers);
  }

  // ---------- The conversation a model and its tools produce ----------

  function Results(tools: Tools, turn: nat, calls: seq<ToolCall>): seq<ChatMessage> {
    seq(|calls|, i requires 0 <= i < |calls| => ToolMessage(calls[i], tools(turn, i, calls[i])))
  }

  lemma ResultsAnswer(tools: Tools, turn: nat, calls: seq<ToolCall>)
    ensures Answer(calls, Results(tools, turn, calls))
  {
    var ms := Results(tools, turn, calls);
    assert forall i :: 0 <= i < |calls| ==> ms[i] == ToolMessage(calls[i], tools(turn, i, calls[i]));
  }

  /** The request of a turn, if every reply before it asked for tools. */
  function Request(chat: Chat, tools: Tools, opening: seq<ChatMessage>, turn: nat): seq<ChatMessage> {
    if turn == 0 then opening
    else
      var before := Request(chat, tools, opening, turn - 1);
      match chat(turn - 1, before)
      case None => before
      case Some(reply) => before + [reply] + Results(tools, turn - 1, reply.calls)
  }

  predicate Calling(chat: Chat, tools: Tools, opening: seq<ChatMessage>, turn: nat) {
    var reply := chat(turn, Request(chat, tools, opening, turn));
    reply.Some? && reply.value.calls != []
  }

  predicate Final(chat: Chat, tools: Tools, opening: seq<ChatMessage>, turn: nat) {
    var reply := chat(turn, Request(chat, tools, opening, turn));
    reply.Some? && reply.value.calls == []
  }

  predicate CallingUpTo(chat: Chat, tools: Tools, opening: seq<ChatMessage>, turn: nat) {
    forall k :: 0 <= k < turn ==> Calling(chat, tools, opening, k)
  }

  /** Within the cap the model gives a final answer on this turn, having asked for tools on all before. */
  predicate FinishesAt(chat: Chat, tools: Tools, opening: seq<ChatMessage>, turn: nat) {
    turn < MAX_AGENT_TURNS && CallingUpTo(chat, tools, opening, turn) && Final(chat, tools, opening, turn)
  }

  predicate IsOpening(opening: seq<ChatMessage>) {
    |opening| == 2 && opening[0].role == "system" && opening[1].role == "user"
  }

  /** Every request the loop can send is well-formed, with one block for each turn before it. */
  lemma {:induction false} RequestIsWellFormed(chat: Chat, tools: Tools, opening: seq<ChatMessage>, turn: nat)
    requires IsOpening(opening) && CallingUpTo(chat, tools, opening, turn)
    ensures var request := Request(chat, tools, opening, turn);
            WellFormedTranscript(request) && opening <= request && CountBlocks(request[2..]) == turn
  {
    if turn > 0 {
      RequestIsWellFormed(chat, tools, opening, turn - 1);
      assert Calling(chat, tools, opening, turn - 1);
      var before := Request(chat, tools, opening, turn - 1);
      var reply := chat(turn - 1, before).value;
      ResultsAnswer(tools, turn - 1, reply.calls);
      ExtendTranscript(before, reply, Results(tools, turn - 1, reply.calls));
    }
  }

  lemma ExtendTranscript(before: seq<ChatMessage>, reply: ChatMessage, answers: seq<ChatMessage>)
    requires WellFormedTranscript(before) && reply.calls != [] && Answer(reply.calls, answers)
    ensures var after := before + [reply] + answers;
            WellFormedTranscript(after) && before <= after && CountBlocks(after[2..]) == CountBlocks(before[2..]) + 1
  {
    OneMoreBlock(before[2..], reply, answers);
    assert (before + [reply] + answers)[2..] == before[2..] + [reply] + answers;
  }

  /** The model finishes on at most one turn. */
  lemma FinishIsUnique(chat: Chat, tools: Tools, opening: seq<ChatMessage>, s: nat, t: nat)
    requires FinishesAt(chat, tools, opening, s) && FinishesAt(chat, tools, opening, t)
    ensures s == t
  {
    assert s < t ==> Calling(chat, tools, opening, s);
    assert t < s ==> Calling(chat, tools, opening, t);
  }

  // ---------- What is said, message by message ----------

  /** From one request to the next: the model's reply as it came, then what each of its calls yielded, in order. */
  ghost predicate Turn(chat: Chat, tools: Tools, turn: nat, before: seq<ChatMessage>, after: seq<ChatMessage>) {
    var reply := chat(turn, before);
    && reply.Some? && reply.value.calls != [] && |after| == |before| + 1 + |reply.value.calls|
    && before <= after && after[|before|] == reply.value
    && forall j :: 0 <= j < |reply.value.calls| ==>
         after[|before| + 1 + j] ==
         ChatMessage("tool", tools(turn, j, reply.value.calls[j]), [], reply.value.calls[j].id)
  }

  /** The first request is the instructions as system and the task as user; each later one adds a turn. */
  ghost predicate Dialogue(chat: Chat, tools: Tools, prompt: string, task: string, requests: seq<seq<ChatMessage>>) {
    && (requests != [] ==> requests[0] == [ChatMessage("system", prompt, [], ""), ChatMessage("user", task, [], "")])
    && forall k :: 0 <= k < |requests| - 1 ==> Turn(chat, tools, k, requests[k], requests[k + 1])
  }

  /** So every request opens with the instructions and the task. */
  lemma {:induction false} EveryRequestOpens(chat: Chat, tools: Tools, prompt: string, task: string,
                                             requests: seq<seq<ChatMessage>>, k: nat)
    requires Dialogue(chat, tools, prompt, task, requests) && k < |requests|
    ensures |requests[k]| >= 2 && requests[k][0] == ChatMessage("system", prompt, [], "")
    ensures requests[k][1] == ChatMessage("user", task, [], "")
  {
    if k > 0 {
      EveryRequestOpens(chat, tools, prompt, task, requests, k - 1);
      assert Turn(chat, tools, k - 1, requests[k - 1], requests[k - 1 + 1]);
    }
  }

  lemma RequestIsTurn(chat: Chat, tools: Tools, opening: seq<ChatMessage>, turn: nat)
    requires Calling(chat, tools, opening, turn)
    ensures Turn(chat, tools, turn, Request(chat, tools, opening, turn), Request(chat, tools, opening, turn + 1))
  {
    var before, after := Request(chat, tools, opening, turn), Request(chat, tools, opening, turn + 1);
    var reply := chat(turn, before).value;
    var results := Results(tools, turn, reply.calls);
    assert after == before + [reply] + results;
    forall j | 0 <= j < |reply.calls|
      ensures after[|before| + 1 + j] == ChatMessage("tool", tools(turn, j, reply.calls[j]), [], reply.calls[j].id)
    {
      assert after[|before| + 1 + j] == results[j];
    }
  }

  lemma ConversationIsDialogue(chat: Chat, tools: Tools, prompt: string, task: string,
                               requests: seq<seq<ChatMessage>>)
    requires Conversation(chat, tools, Opening(prompt, task), requests)
    requires |requests| > 0 ==> CallingUpTo(chat, tools, Opening(prompt, task), |requests| - 1)
    ensures Dialogue(chat, tools, prompt, task, requests)
  {
    var opening := Opening(prompt, task);
    assert forall k :: 0 <= k < |requests| ==> Sent(chat, tools, opening, k, requests[k]);
    forall k | 0 <= k < |requests| - 1 ensures Turn(chat, tools, k, requests[k], requests[k + 1]) {
      assert Calling(chat, tools, opening, k);
      RequestIsTurn(chat, tools, opening, k);
    }
  }

  // ---------- The loop ----------

  function Opening(prompt: string, task: string): seq<ChatMessage> {
    [ChatMessage("system", prompt, [], ""), ChatMessage("user", task, [], "")]
  }

  /** The requests of the first turns, in order, each a well-formed transcript with a block per earlier turn. */
  ghost predicate Conversation(chat: Chat, tools: Tools, opening: seq<ChatMessage>, requests: seq<seq<ChatMessage>>) {
    forall k :: 0 <= k < |requests| ==> Sent(chat, tools, opening, k, requests[k])
  }

  ghost predicate Sent(chat: Chat, tools: Tools, opening: seq<ChatMessage>, turn: nat, request: seq<ChatMessage>) {
    request == Request(chat, tools, opening, turn) && WellFormedTranscript(request) && CountBlocks(request[2..]) == turn
  }

  lemma OneMoreSent(chat: Chat, tools: Tools, opening: seq<ChatMessage>, requests: seq<seq<ChatMessage>>,
                    next: seq<ChatMessage>)
    requires Conversation(chat, tools, opening, requests) && Sent(chat, tools, opening, |requests|, next)
    ensures Conversation(chat, tools, opening, requests + [next])
  {
  }

  lemma NextRequest(chat: Chat, tools: Tools, opening: seq<ChatMessage>, requests: seq<seq<ChatMessage>>)
    requires IsOpening(opening) && Conversation(chat, tools, opening, requests)
             && CallingUpTo(chat, tools, opening, |requests|)
    ensures Conversation(chat, tools, opening, requests + [Request(chat, tools, opening, |requests|)])
  {
    var n := |requests|;
    RequestIsWellFormed(chat, tools, opening, n);
    OneMoreSent(chat, tools, opening, requests, Request(chat, tools, opening, n));
  }

  /** If a turn neither calls nor finishes, or the cap is reached, the model never finishes. */
  lemma NeverFinishes(chat: Chat, tools: Tools, opening: seq<ChatMessage>, turn: nat)
    requires CallingUpTo(chat, tools, opening, turn)
    requires turn == MAX_AGENT_TURNS || chat(turn, Request(chat, tools, opening, turn)).None?
    ensures forall t :: !FinishesAt(chat, tools, opening, t)
  {
    forall t: nat ensures !FinishesAt(chat, tools, opening, t) {
      assert t < turn ==> Calling(chat, tools, opening, t);
      assert turn < t && CallingUpTo(chat, tools, opening, t) ==> Calling(chat, tools, opening, turn);
    }
  }

  /** Answers every call of the reply, in order. */
  method CallTools(tools: Tools, turn: nat, calls: seq<ToolCall>, before: seq<ChatMessage>)
    returns (messages: seq<ChatMessage>)
    ensures messages == before + Results(tools, turn, calls)
  {
    messages := before;
    for i := 0 to |calls|
      invariant messages == before + Results(tools, turn, calls)[..i]
    {
      messages := messages + [ToolMessage(calls[i], tools(turn, i, calls[i]))];
    }
    assert Results(tools, turn, calls)[..|calls|] == Results(tools, turn, calls);
  }

  /** The last request got a final answer, and the outgoing data is that answer folded into the incoming data. */
  ghost predicate Answered(chat: Chat, parse: Parser, data: Data, requests: seq<seq<ChatMessage>>, out: Data) {
    && 0 < |requests| && data.Keys <= out.Keys
    && var last := chat(|requests| - 1, requests[|requests| - 1]);
       last.Some? && last.value.calls == [] && Folded(parse, data, last.value.content, out)
  }

  /** The reply on which the model finished, folded into the data, is what goes out. */
  ghost predicate AnswersWith(chat: Chat, tools: Tools, opening: seq<ChatMessage>, parse: Parser, data: Data, out: Data)
  {
    exists t: nat :: FinishesWith(chat, tools, opening, parse, data, out, t)
  }

  ghost predicate FinishesWith(chat: Chat, tools: Tools, opening: seq<ChatMessage>, parse: Parser, data: Data,
                               out: Data, turn: nat)
  {
    && FinishesAt(chat, tools, opening, turn)
    && Folded(parse, data, chat(turn, Request(chat, tools, opening, turn)).value.content, out)
  }

  /**
   Runs the conversation. It succeeds exactly when the model finishes within the cap; `requests` lists what was
   sent, never more than the cap.
   */
  method AgentLoop(configured: bool, marshal: Data -> Option<string>, prompt: string, chat: Chat, tools: Tools,
                   parse: Parser, data: Data)
      returns (out: Data, ok: bool, ghost requests: seq<seq<ChatMessage>>)
    ensures ok <==>
            && configured && marshal(data).Some?
            && exists t :: FinishesAt(chat, tools, Opening(prompt, marshal(data).value), t)
    ensures ok ==> Answered(chat, parse, data, requests, out)
    ensures ok ==> AnswersWith(chat, tools, Opening(prompt, marshal(data).value), parse, data, out)
    ensures |requests| <= 8
    ensures !ok && configured && marshal(data).Some? ==>
              |requests| == 8 || (0 < |requests| && chat(|requests| - 1, requests[|requests| - 1]).None?)
    ensures marshal(data).Some? ==> Dialogue(chat, tools, prompt, marshal(data).value, requests)
    ensures !configured || marshal(data).None? ==> requests == []
    ensures marshal(data).Some? ==> Conversation(chat, tools, Opening(prompt, marshal(data).value), requests)
  {
    requests := [];
    if !configured || marshal(data).None? {
      return map[], false, [];
    }
    var messages := Opening(prompt, marshal(data).value);
    ghost var opening := messages;
    for turn := 0 to MAX_AGENT_TURNS
      invariant |requests| == turn && messages == Request(chat, tools, opening, turn)
                && CallingUpTo(chat, tools, opening, turn)
      invariant Conversation(chat, tools, opening, requests)
      invariant Dialogue(chat, tools, prompt, marshal(data).value, requests)
    {
      NextRequest(chat, tools, opening, requests);
      requests := requests + [messages];
      var reply := chat(turn, messages);
      ConversationIsDialogue(chat, tools, prompt, marshal(data).value, requests);
      if reply.None? {
        NeverFinishes(chat, tools, opening, turn);
        return map[], false, requests;
      }
      if reply.value.calls == [] {
        out := MergeFinalAnswer(parse, data, reply.value.content);
        assert FinishesWith(chat, tools, opening, parse, data, out, turn);
        return out, true, requests;
      }
      messages := CallTools(tools, turn, reply.value.calls, messages + [reply.value]);
      assert Calling(chat, tools, opening, turn);
    }
    NeverFinishes(chat, tools, opening, MAX_AGENT_TURNS);
    return map[], false, requests;
  }

  // ---------- One agent over its whole life ----------

  /** Everything an agent's answers depend on; the model and the tools may answer each task in their own way. */
  datatype Brain = Brain(
    configured: bool, prompt: string, marshal: Data -> Option<string>, parse: Parser, chat: nat -> Chat,
    tools: nat -> Tools)

  /** On task number k, the agent turns this data into that. */
  ghost predicate Outcome(brain: Brain, k: nat, data: Data, out: Data) {
    && brain.configured && brain.marshal(data).Some?
    && var opening := Opening(brain.prompt, brain.marshal(data).value);
       AnswersWith(brain.chat(k), brain.tools(k), opening, brain.parse, data, out)
  }

  /** On task number k, the model finishes within the cap. */
  ghost predicate Finishes(brain: Brain, k: nat, data: Data) {
    && brain.configured && brain.marshal(data).Some?
    && exists t :: FinishesAt(brain.chat(k), brain.tools(k), Opening(brain.prompt, brain.marshal(data).value), t)
  }
}
