/** The inbound event pipeline (src/FeishuWebHook.py).

    `Decide` is the chain of guards in `MessageEventHandler.do`: it turns one
    message event into at most one dispatch (text, user id, message id, chat
    id). `ProcessMessageAsync` is the dispatched task: it records the user id,
    runs the agent and sends the reply. Decoding the JSON content and running
    the agent are inputs (`loads`, `runAgent`). */
module FeishuWebHook {
  import opened Common
  import Storage

  /** `str.isspace` for one character: the characters `str.strip()` removes. */
  predicate IsSpace(c: char)
  {
    var n := c as int;
    n == 0x20 || 0x09 <= n <= 0x0D || 0x1C <= n <= 0x1F || n == 0x85 || n == 0xA0 ||
    n == 0x1680 || 0x2000 <= n <= 0x200A || n == 0x2028 || n == 0x2029 || n == 0x202F ||
    n == 0x205F || n == 0x3000
  }

  /** Index of the first non-whitespace character (or `|s|`). */
  function StripStart(s: string): (i: nat)
    ensures i <= |s|
    ensures forall k :: 0 <= k < i ==> IsSpace(s[k])
    ensures i < |s| ==> !IsSpace(s[i])
  {
    if s == [] || !IsSpace(s[0]) then 0 else 1 + StripStart(s[1..])
  }

  /** Index just after the last non-whitespace character at or after `lo`
      (or `lo`). */
  function StripEnd(s: string, lo: nat): (j: nat)
    requires lo <= |s|
    ensures lo <= j <= |s|
    ensures forall k :: j <= k < |s| ==> IsSpace(s[k])
    ensures j > lo ==> !IsSpace(s[j - 1])
    decreases |s|
  {
    if |s| == lo || !IsSpace(s[|s| - 1]) then |s| else StripEnd(s[..|s| - 1], lo)
  }

  /** `str.strip()`: the string without its leading and trailing whitespace. */
  function Strip(s: string): string
  {
    s[StripStart(s)..StripEnd(s, StripStart(s))]
  }

  /** The stripped text neither starts nor ends with whitespace, and it is
      empty exactly when the text is all whitespace. */
  lemma StripShape(s: string)
    ensures var r := Strip(s);
            r == [] || (!IsSpace(r[0]) && !IsSpace(r[|r| - 1]))
    ensures Strip(s) == [] <==> forall k :: 0 <= k < |s| ==> IsSpace(s[k])
  {
    var i := StripStart(s);
    var j := StripEnd(s, i);
    if Strip(s) == [] {
      assert i == j;
      assert i == |s|;
    } else {
      assert s[i..j][0] == s[i];
      assert s[i..j][j - i - 1] == s[j - 1];
    }
  }

  /** Stripping twice is stripping once. */
  lemma StripIdempotent(s: string)
    ensures Strip(Strip(s)) == Strip(s)
  {
    StripShape(s);
    var r := Strip(s);
    if r != [] {
      assert !IsSpace(r[0]) && !IsSpace(r[|r| - 1]);
      assert StripStart(r) == 0;
      assert StripEnd(r, 0) == |r|;
    }
  }

  /** `event.sender.sender_id`: its `user_id` may be missing. */
  datatype SenderId = SenderId(userId: Option<string>)

  datatype Sender = Sender(senderType: string, senderId: Option<SenderId>)

  datatype EventMessage = EventMessage(messageType: string, chatId: string, messageId: string, content: string)

  /** `event.event`; a missing sender or message makes the attribute access
      raise, which the handler catches. */
  datatype EventData = EventData(sender: Option<Sender>, message: Option<EventMessage>)

  /** A decoded JSON value, as far as the pipeline looks into it. */
  datatype Json = JString(s: string) | JObject(fields: map<string, Json>) | JOther

  /** The result of `json.loads`. */
  datatype Decoded = Decoded(value: Json) | DecodeError

  /** The arguments of one `process_message_async` task. */
  datatype Dispatch = Dispatch(messageText: string, userId: string, messageId: string, chatId: string)

  /** `content.get("text", "")` before `.strip()`, when that does not raise:
      the content must decode to an object whose "text" is a string or absent. */
  function RawText(content: string, loads: string -> Decoded): Option<string>
  {
    match loads(content)
    case DecodeError => None
    case Decoded(v) =>
      if !v.JObject? then None
      else if "text" !in v.fields then Some("")
      else if v.fields["text"].JString? then Some(v.fields["text"].s)
      else None
  }

  /** `user_id = sender.sender_id.user_id if sender.sender_id else None`. */
  function UserIdOf(s: Sender): Option<string>
  {
    if s.senderId.Some? then s.senderId.value.userId else None
  }

  /** The guards of `MessageEventHandler.do`. */
  function Decide(e: EventData, loads: string -> Decoded): (r: Option<Dispatch>)
    // Messages sent by an app (the bot itself) are ignored.
    ensures e.sender.Some? && e.sender.value.senderType == "app" ==> r.None?
    // Only text messages are dispatched.
    ensures e.message.Some? && e.message.value.messageType != "text" ==> r.None?
    // Content that is not JSON dispatches nothing.
    ensures e.message.Some? && loads(e.message.value.content).DecodeError? ==> r.None?
    // A missing sender id dispatches nothing.
    ensures e.sender.Some? && e.sender.value.senderId.None? ==> r.None?
    // What is dispatched: the stripped "text", non-empty, for a present user id.
    ensures r.Some? ==>
              && e.sender.Some? && e.message.Some?
              && RawText(e.message.value.content, loads).Some?
              && r.value.messageText == Strip(RawText(e.message.value.content, loads).value)
              && r.value.messageText != ""
              && UserIdOf(e.sender.value) == Some(r.value.userId) && r.value.userId != ""
              && r.value.chatId == e.message.value.chatId
              && r.value.messageId == e.message.value.messageId
    // Every text event from a user with a present id and non-blank text is dispatched.
    ensures (&& e.sender.Some? && e.sender.value.senderType != "app"
             && e.message.Some? && e.message.value.messageType == "text"
             && RawText(e.message.value.content, loads).Some?
             && Strip(RawText(e.message.value.content, loads).value) != ""
             && Truthy(UserIdOf(e.sender.value)))
            ==> r.Some?
  {
    if e.sender.None? then None
    else
      var sender := e.sender.value;
      if sender.senderType == "app" then None
      else if e.message.None? then None
      else
        var message := e.message.value;
        var userId := UserIdOf(sender);
        if message.messageType != "text" then None
        else
          var raw := RawText(message.content, loads);
          if raw.None? then None
          else
            var messageText := Strip(raw.value);
            if messageText != "" && Truthy(userId) then
              Some(Dispatch(messageText, userId.value, message.messageId, message.chatId))
            else None
  }

  /** Tasks that `asyncio.create_task` has scheduled, in order. */
  class TaskQueue {
    var tasks: seq<Dispatch>

    constructor()
      ensures tasks == []
    {
      tasks := [];
    }

    method CreateTask(d: Dispatch)
      modifies this
      ensures tasks == old(tasks) + [d]
    {
      tasks := tasks + [d];
    }
  }

  class MessageEventHandler {
    constructor()
    {
    }

    /** `do`: schedules at most one task per event, the one `Decide` picks. */
    method Do(e: EventData, loads: string -> Decoded, loop: TaskQueue)
      modifies loop
      ensures |loop.tasks| <= |old(loop.tasks)| + 1
      ensures loop.tasks == old(loop.tasks) + (if Decide(e, loads).Some? then [Decide(e, loads).value] else [])
    {
      var d := Decide(e, loads);
      if d.Some? {
        loop.CreateTask(d.value);
      }
    }
  }

  /** The outbound message request built for a reply. */
  datatype CreateMessageRequest = CreateMessageRequest(
    receiveIdType: string,
    receiveId: string,
    msgType: string,
    content: Json,
    replyInThread: bool,
    uuid: string)

  const ReplyPrefix: string := "reply_"

  /** The reply to `messageId` in `chatId`: a text message whose content is
      `{"text": reply}`, not threaded, keyed by "reply_" + message id. */
  function ReplyRequest(chatId: string, messageId: string, reply: string): (r: CreateMessageRequest)
    ensures r.receiveIdType == "chat_id" && r.receiveId == chatId && r.msgType == "text"
    ensures r.content.JObject? && r.content.fields.Keys == {"text"} && r.content.fields["text"] == JString(reply)
    ensures !r.replyInThread
    ensures r.uuid == ReplyPrefix + messageId
    ensures |r.uuid| == |ReplyPrefix| + |messageId| && r.uuid[|ReplyPrefix|..] == messageId
  {
    CreateMessageRequest("chat_id", chatId, "text", JObject(map["text" := JString(reply)]), false,
                         ReplyPrefix + messageId)
  }

  /** The idempotency key depends on the message id alone: the same message
      always gets the same key, and different messages get different keys. */
  lemma ReplyKeyIdentifiesMessage(c1: string, m1: string, r1: string, c2: string, m2: string, r2: string)
    ensures ReplyRequest(c1, m1, r1).uuid == ReplyRequest(c2, m2, r2).uuid <==> m1 == m2
  {
    var u1 := ReplyRequest(c1, m1, r1).uuid;
    var u2 := ReplyRequest(c2, m2, r2).uuid;
    if u1 == u2 {
      assert m1 == u1[|ReplyPrefix|..] == u2[|ReplyPrefix|..] == m2;
    }
  }

  /** What running the agent gives: a response with an "output", a response
      without one (the lookup raises KeyError), or an exception. */
  datatype AgentOutcome = AgentOutput(output: string) | NoOutputKey | AgentRaised(error: string)

  /** The messaging client; it keeps every request it is asked to send. */
  class ImClient {
    var sent: seq<CreateMessageRequest>

    constructor()
      ensures sent == []
    {
      sent := [];
    }

    method Create(req: CreateMessageRequest)
      modifies this
      ensures sent == old(sent) + [req]
    {
      sent := sent + [req];
    }
  }

  /** `process_message_async`: records the user id under "userid" before the
      agent runs (the agent reads its session id back from there), sends one
      reply when the agent produced an output, and swallows every failure. */
  method ProcessMessageAsync(messageText: string, userId: string, messageId: string, chatId: string,
                             storage: Storage.UserStorage, runAgent: (Option<string>, string) -> AgentOutcome,
                             client: ImClient)
    modifies storage, client
    ensures storage.users == old(storage.users)["userid" := userId]
    ensures client.sent == old(client.sent) +
              (match runAgent(Some(userId), messageText)
               case AgentOutput(reply) => [ReplyRequest(chatId, messageId, reply)]
               case _ => [])
  {
    storage.AddUser("userid", userId);
    var session := storage.GetUser("userid");
    var response := runAgent(session, messageText);
    if response.AgentOutput? {
      client.Create(ReplyRequest(chatId, messageId, response.output));
    }
  }
}
