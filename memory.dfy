/** The session memory (`MemoryClass` in src/Memory.py).

    The Redis server is a map from session id to its list of messages; a
    `RedisChatMessageHistory` is a handle on one session of it. `GetMemory`
    reads the session's history and, when it holds more than 80 messages,
    flattens it into one string, asks the chat model for one summary, clears
    the stored list and appends the summary. Every exception inside it makes
    it return `None`. The failures of the store and of the chat model are
    inputs (`StoreFaults`, the model's answer function). */
module Memory {
  import opened Common
  import Prompt

  /** The concrete message classes of the history. */
  datatype MessageType = HumanMessage | AIMessage | SystemMessage

  datatype Message = Message(kind: MessageType, content: string)

  /** `type(message).__name__`. */
  function TypeName(k: MessageType): string
  {
    match k
    case HumanMessage => "HumanMessage"
    case AIMessage => "AIMessage"
    case SystemMessage => "SystemMessage"
  }

  /** How one message is written into the summariser's input. */
  function Line(m: Message): string
  {
    TypeName(m.kind) + ": " + m.content
  }

  /** The whole history as one string: the lines of the messages in stored
      order, with no separator between them. */
  function Flattened(ms: seq<Message>): string
  {
    if ms == [] then "" else Flattened(ms[..|ms| - 1]) + Line(ms[|ms| - 1])
  }

  /** Flattening distributes over concatenation of histories. */
  lemma {:induction false} FlattenedAppend(a: seq<Message>, b: seq<Message>)
    ensures Flattened(a + b) == Flattened(a) + Flattened(b)
    decreases |b|
  {
    if b != [] {
      var b' := b[..|b| - 1];
      assert (a + b)[..|a + b| - 1] == a + b';
      FlattenedAppend(a, b');
    } else {
      assert a + b == a;
    }
  }

  /** Message `i` is written, whole, right after the lines of the messages
      before it. */
  lemma LineAt(ms: seq<Message>, i: nat)
    requires i < |ms|
    ensures var pre := |Flattened(ms[..i])|;
            pre + |Line(ms[i])| <= |Flattened(ms)| &&
            Flattened(ms)[pre..pre + |Line(ms[i])|] == Line(ms[i])
  {
    assert ms == ms[..i] + [ms[i]] + ms[i + 1..];
    FlattenedAppend(ms[..i] + [ms[i]], ms[i + 1..]);
    FlattenedAppend(ms[..i], [ms[i]]);
    assert Flattened([ms[i]]) == Line(ms[i]) by {
      assert [ms[i]][..0] == [];
    }
  }

  /** Histories longer than this are summarised. */
  const Threshold: nat := 80

  const SummaryInstruction: string := "\n这是一段你和用户的对话记忆，对其进行总结摘要，摘要使用第一人称'我'，并且提取其中的关键信息，以如下格式返回：\n 总结摘要 | 过去对话关键信息\n例如 用户张三问候我好，我礼貌回复，然后他问我langchain的向量库信息，我回答了他今年的问题，然后他又问了比特币价格。|Langchain, 向量库,比特币价格"

  /** The bindings `SystemPrompt.format(feelScore=5, who_you_are="")`. */
  const SummaryBindings: map<string, Prompt.Value> :=
    map[Prompt.FeelScoreSlot := Prompt.Int(5), Prompt.WhoYouAreSlot := Prompt.Text("")]

  /** The system text of the summarisation prompt: the persona rendered with
      score 5 and no directive, then the summarisation instruction. */
  function SummarySystemText(): string
  {
    Prompt.RenderTwoSlots(Prompt.PersonaHead, Prompt.FeelScoreSlot, Prompt.PersonaMiddle,
                          Prompt.WhoYouAreSlot, Prompt.PersonaTail, SummaryBindings);
    Prompt.Render(Prompt.SystemPrompt, SummaryBindings) + SummaryInstruction
  }

  /** The summariser is told the same persona as a conversation whose
      feeling is the default one. */
  lemma SummaryPersonaIsDefaultPersona(memorykey: Option<string>)
    ensures var r := Prompt.PromptStructure(Prompt.PromptClass(memorykey, Prompt.DefaultFeeling));
            r.Ok? && Prompt.SlotsOf(Prompt.SystemPrompt) <= r.value.partials.Keys &&
            SummarySystemText() == Prompt.Render(Prompt.SystemPrompt, r.value.partials) + SummaryInstruction
  {
    var p := Prompt.PromptClass(memorykey, Prompt.DefaultFeeling);
    Prompt.PersonaFullyBound(p);
    assert Prompt.MOODS["default"].roloSet == "";
    assert Prompt.PromptStructure(p).value.partials == SummaryBindings;
  }

  /** One request to the summarising chat model. */
  datatype SummaryRequest = SummaryRequest(system: string, input: string)

  /** What the chat model's chain does with a request. */
  datatype ModelOutcome = Summarised(text: string) | KeyErrorRaised | OtherErrorRaised(error: string)

  /** What `summary_chain` gives its caller: a value (the summary message, or
      `None` after a KeyError), or an exception that it lets through. */
  datatype ChainOutcome = Returned(summary: Option<Message>) | Propagated(error: string)

  /** `summary_chain`: only a KeyError is caught (and gives `None`); any other
      exception reaches the caller. */
  function SummaryChain(answer: ModelOutcome): (r: ChainOutcome)
    ensures r == Returned(None) <==> answer.KeyErrorRaised?
    ensures r.Propagated? <==> answer.OtherErrorRaised?
    ensures answer.Summarised? ==> r == Returned(Some(Message(AIMessage, answer.text)))
  {
    match answer
    case Summarised(t) => Returned(Some(Message(AIMessage, t)))
    case KeyErrorRaised => Returned(None)
    case OtherErrorRaised(e) => Propagated(e)
  }

  /** Which store operations fail during one `get_memory`. */
  datatype StoreFaults = StoreFaults(readFails: bool, clearFails: bool, addFails: bool)

  /** The outcome of one `get_memory` on a history: whether a history object
      is returned, what the session then stores, and the summariser calls made. */
  datatype Compacted = Compacted(returned: bool, stored: seq<Message>, calls: seq<SummaryRequest>)

  /** `get_memory` as a function of the stored history. */
  function Compaction(h: seq<Message>, answer: SummaryRequest -> ModelOutcome, faults: StoreFaults): (c: Compacted)
    // A failed read changes nothing and returns None.
    ensures faults.readFails ==> c == Compacted(false, h, [])
    // At most 80 messages: returned unchanged, summariser not called.
    ensures !faults.readFails && |h| <= Threshold ==> c == Compacted(true, h, [])
    // More than 80: exactly one summariser call, on the flattened history.
    ensures !faults.readFails && |h| > Threshold ==>
              c.calls == [SummaryRequest(SummarySystemText(), Flattened(h))]
    // A returned compacted history has length 1: the summary.
    ensures c.returned && |h| > Threshold ==>
              |c.stored| == 1 && c.stored[0].kind == AIMessage
    // The session is never left partly rewritten.
    ensures c.stored == h || c.stored == [] || (|h| > Threshold && |c.stored| == 1)
    // A summariser exception (other than KeyError) or a failed clear keeps the history.
    ensures (!faults.readFails && |h| > Threshold &&
             (answer(c.calls[0]).OtherErrorRaised? || faults.clearFails))
            ==> c == Compacted(false, h, c.calls)
    // Success: the session holds exactly the model's summary, as an AI message.
    ensures (!faults.readFails && |h| > Threshold && answer(c.calls[0]).Summarised? &&
             !faults.clearFails && !faults.addFails)
            ==> c == Compacted(true, [Message(AIMessage, answer(c.calls[0]).text)], c.calls)
    // A failure after the clear leaves the session empty.
    ensures (!faults.readFails && |h| > Threshold && !faults.clearFails &&
             (answer(c.calls[0]).KeyErrorRaised? || (answer(c.calls[0]).Summarised? && faults.addFails)))
            ==> c == Compacted(false, [], c.calls)
  {
    if faults.readFails then Compacted(false, h, [])
    else if |h| <= Threshold then Compacted(true, h, [])
    else
      var req := SummaryRequest(SummarySystemText(), Flattened(h));
      match SummaryChain(answer(req))
      case Propagated(_) => Compacted(false, h, [req])
      case Returned(summary) =>
        if faults.clearFails then Compacted(false, h, [req])
        else if summary.None? || faults.addFails then Compacted(false, [], [req])
        else Compacted(true, [summary.value], [req])
  }

  /** Compaction settles: after a successful one the session holds a single
      message, so the next `get_memory` returns it as it is and asks the
      summariser nothing. */
  lemma CompactionSettles(h: seq<Message>, answer: SummaryRequest -> ModelOutcome, faults: StoreFaults,
                          next: StoreFaults)
    requires |h| > Threshold && Compaction(h, answer, faults).returned
    requires !next.readFails
    ensures var c := Compaction(h, answer, faults);
            Compaction(c.stored, answer, next) == Compacted(true, c.stored, [])
  {
  }

  /** The Redis server: the message list of every session. A session that was
      never written reads as empty. */
  class RedisServer {
    var lists: map<string, seq<Message>>

    constructor(lists: map<string, seq<Message>>)
      ensures this.lists == lists
    {
      this.lists := lists;
    }

    function History(sessionId: string): seq<Message>
      reads this
    {
      if sessionId in lists then lists[sessionId] else []
    }
  }

  /** A handle on one session of the server (`RedisChatMessageHistory`). */
  class RedisChatMessageHistory {
    const server: RedisServer
    const sessionId: string

    constructor(server: RedisServer, sessionId: string)
      ensures this.server == server && this.sessionId == sessionId
    {
      this.server := server;
      this.sessionId := sessionId;
    }

    /** `.messages`: the stored list, or `None` when the read fails. */
    method Messages(fails: bool) returns (r: Option<seq<Message>>)
      ensures r == if fails then None else Some(server.History(sessionId))
    {
      r := if fails then None else Some(server.History(sessionId));
    }

    /** `.clear()`: empties this session and no other. */
    method Clear(fails: bool) returns (ok: bool)
      modifies server
      ensures ok == !fails
      ensures server.lists == if ok then old(server.lists)[sessionId := []] else old(server.lists)
    {
      ok := !fails;
      if ok {
        server.lists := server.lists[sessionId := []];
      }
    }

    /** `.add_message(m)`: appends `m` to this session; `None` is not a message
        and fails. */
    method AddMessage(m: Option<Message>, fails: bool) returns (ok: bool)
      modifies server
      ensures ok == (m.Some? && !fails)
      ensures server.lists == if ok then old(server.lists)[sessionId := old(server.History(sessionId)) + [m.value]]
                              else old(server.lists)
    {
      ok := m.Some? && !fails;
      if ok {
        server.lists := server.lists[sessionId := server.History(sessionId) + [m.value]];
      }
    }
  }

  /** The chat model behind the summariser; it records every request it gets. */
  class ChatModel {
    const answer: SummaryRequest -> ModelOutcome
    var requests: seq<SummaryRequest>

    constructor(answer: SummaryRequest -> ModelOutcome)
      ensures this.answer == answer && requests == []
    {
      this.answer := answer;
      requests := [];
    }

    method Invoke(req: SummaryRequest) returns (r: ModelOutcome)
      modifies this
      ensures r == answer(req) && requests == old(requests) + [req]
    {
      r := answer(req);
      requests := requests + [req];
    }
  }

  /** The `ConversationBufferMemory` that `set_memory` builds. */
  datatype BufferMemory = BufferMemory(
    memoryKey: string,
    outputKey: string,
    humanPrefix: string,
    aiPrefix: string,
    returnMessages: bool,
    maxTokenLimit: nat,
    chatMemory: RedisChatMessageHistory)

  /** `self.memory`: an empty list until `set_memory` runs. */
  datatype MemoryField = EmptyList | Buffer(buffer: BufferMemory)

  class MemoryClass {
    const memorykey: string
    const chatmodel: ChatModel
    var memory: MemoryField

    constructor(memorykey: string, chatmodel: ChatModel)
      ensures this.memorykey == memorykey && this.chatmodel == chatmodel && memory == EmptyList
    {
      this.memorykey := memorykey;
      this.chatmodel := chatmodel;
      memory := EmptyList;
    }

    /** `get_memory`: the session's history object, compacted to one summary
        when it is longer than 80 messages; `None` after any failure. */
    method GetMemory(server: RedisServer, sessionId: string, faults: StoreFaults)
      returns (r: Option<RedisChatMessageHistory>)
      modifies server, chatmodel
      ensures var c := Compaction(old(server.History(sessionId)), chatmodel.answer, faults);
              && (r.Some? <==> c.returned)
              && server.History(sessionId) == c.stored
              && chatmodel.requests == old(chatmodel.requests) + c.calls
      ensures forall s :: s != sessionId ==> server.History(s) == old(server.History(s))
      ensures r.Some? ==> fresh(r.value) && r.value.server == server && r.value.sessionId == sessionId
    {
      var history := new RedisChatMessageHistory(server, sessionId);
      var stored := history.Messages(faults.readFails);
      if stored.None? {
        return None;
      }
      var ms := stored.value;
      if |ms| > Threshold {
        var strMessage := "";
        for i := 0 to |ms|
          invariant strMessage == Flattened(ms[..i])
        {
          assert ms[..i + 1][..i] == ms[..i];
          strMessage := strMessage + Line(ms[i]);
        }
        assert ms[..|ms|] == ms;
        var answer := chatmodel.Invoke(SummaryRequest(SummarySystemText(), strMessage));
        var summary := SummaryChain(answer);
        if summary.Propagated? {
          return None;
        }
        var cleared := history.Clear(faults.clearFails);
        if !cleared {
          return None;
        }
        var added := history.AddMessage(summary.summary, faults.addFails);
        if !added {
          return None;
        }
        return Some(history);
      } else {
        return Some(history);
      }
    }

    /** `set_memory`: always ends with a buffer memory over a history of the
        requested session, keyed by this instance's memory key. */
    method SetMemory(server: RedisServer, sessionId: string, faults: StoreFaults)
      returns (b: BufferMemory)
      modifies this, server, chatmodel
      ensures memory == Buffer(b)
      ensures b.memoryKey == memorykey && b.outputKey == "output"
      ensures b.humanPrefix == "user" && b.aiPrefix == "小浪助手"
      ensures b.returnMessages && b.maxTokenLimit == 1000
      ensures fresh(b.chatMemory) && b.chatMemory.server == server && b.chatMemory.sessionId == sessionId
      ensures var c := Compaction(old(server.History(sessionId)), chatmodel.answer, faults);
              server.History(sessionId) == c.stored && chatmodel.requests == old(chatmodel.requests) + c.calls
      ensures forall s :: s != sessionId ==> server.History(s) == old(server.History(s))
    {
      var chatMemory := GetMemory(server, sessionId, faults);
      var history: RedisChatMessageHistory;
      if chatMemory.None? {
        history := new RedisChatMessageHistory(server, sessionId);
      } else {
        history := chatMemory.value;
      }
      b := BufferMemory(memorykey, "output", "user", "小浪助手", true, 1000, history);
      memory := Buffer(b);
    }
  }
}
