# Feishu agent: decision logic in Dafny

This project models the decision logic of a Feishu (Lark) chat assistant:

- how it assembles its mood-conditioned system prompt;
- how it compacts a long session history into one summary;
- which inbound message events it dispatches, and what reply it sends;
- what its calendar and todo tools send to the Feishu API and answer to the agent;
- the process-wide user map.

Every model call (the summariser, the `FindPreciseOrder` picker, the agent
itself), every Feishu SDK call and `json.loads` is a function-typed input.
A Feishu answer is `Success`, `Failure(code, msg)` or an exception (`Raised`).
The calendar tools return the list of API calls they made, so that "this path
deletes nothing" and "this path does not ask the model" can be stated and proved.

Modules:

- `Common` (common.dfy) holds `Option`/`Result`, Python truthiness, and `str()` of an integer with its parse-back.
- `Prompt` (prompt.dfy) holds the mood table, the persona template and `Prompt_Structure`.
- `Memory` (memory.dfy) holds the Redis-backed history as classes, and `get_memory`/`set_memory` as methods. `Compaction` is the function that specifies them.
- `Storage` (storage.dfy) holds the user map, as a class over a `map`.
- `FeishuWebHook` (webhook.dfy) holds the event guards, a task queue, the reply request and `process_message_async`.
- `Tools` (tools.dfy) holds the environment check, the Feishu client check and the seven todo and calendar operations (`create_todo`, `checkSchedule`, `SetSchedule`, `SearchSchedule`, `ModifySchedule`, `DelSchedule`, `ConfirmDelSchedule`).

Two behaviours of the code are worth knowing before reading the contracts:

- **History on failure.** A failed compaction does not always keep the history. The list is cleared (src/Memory.py:49) before the summary is added (src/Memory.py:50). So a summariser that raises `KeyError` loses the history, because `summary_chain` then gives `None` and adding `None` fails. A failed add after the clear loses it too. `Compaction` states both outcomes.
- **No per-user serialization.** The `user_storage` at src/FeishuWebHook.py:16 is unused, and every task overwrites the single `"userid"` key (`ProcessMessageAsync`).

## Model

| member | source | states |
|---|---|---|
| Common.NatToString | src/Tools.py:210 | The decimal rendering is non-empty, all digits, has no leading zero, and is "0" exactly for zero. |
| Common.IntToString | src/Tools.py:210 | `str()` of an integer is an optional minus sign and digits; the sign is there exactly for a negative number. |
| Common.ParseNatToString | src/Tools.py:210 | A rendered natural number reads back as itself. |
| Common.ParseIntToString | src/Tools.py:210 | A rendered integer (the due timestamp of a todo) reads back as itself, so the timestamp loses nothing. |
| Common.IntToStringInjective | src/Tools.py:243 | Different error codes render differently, in both directions of the equivalence. |
| Prompt.NewDefault | src/Prompt.py:4 | The default memory key is "chat_history" and the default feeling is {default, 5}. |
| Prompt.MoodTable | src/Prompt.py:9-56 | The table has exactly the six labels. Default, upbeat and cheerful have their own voice style; angry, depressed and friendly use "friendly". Only the default directive is empty. |
| Prompt.PromptStructure | src/Prompt.py:75-92 | An unknown label is replaced by {default, 5}; a known one passes through with its score. It succeeds exactly when the label is present and is either unknown or has a score; a missing "feeling" or "score" key gives KeyError. An empty or missing memory key becomes "chat_history". The prompt has the four parts in order, and exactly the two persona slots are bound. |
| Prompt.PersonaFullyBound | src/Prompt.py:57-73 | The persona's slots are exactly the two bound ones. |
| Prompt.RemainingVariables | src/Prompt.py:79-92 | After binding, the prompt asks its caller for the history key, "input" and "agent_scratchpad", and nothing else. |
| Prompt.RenderTwoSlots | src/Prompt.py:57-73 | Formatting a text–slot–text–slot–text template puts each bound value at its slot. |
| Prompt.RenderedPersona | src/Prompt.py:66-72 | The rendered persona has the score at `{feelScore}` and the directive at `{who_you_are}`. |
| Memory.FlattenedAppend | src/Memory.py:45-47 | Flattening a history distributes over concatenation. |
| Memory.LineAt | src/Memory.py:45-47 | Each message appears whole, as "TypeName: content", right after the lines of the messages stored before it. |
| Memory.SummaryPersonaIsDefaultPersona | src/Memory.py:22-25 | The summariser's system text is the persona exactly as a default-feeling prompt binds it, followed by the summary instruction. |
| Memory.SummaryChain | src/Memory.py:20-33 | Only a KeyError is caught, and it gives None; every other exception reaches the caller; a summary is an AI message holding exactly the model's text. |
| Memory.Compaction | src/Memory.py:35-58 | At most 80 messages: returned unchanged and no summariser call. More than 80: exactly one call, on the flattened history, and after full success the session holds exactly the model's summary as one AI message. A failed read, a summariser error or a failed clear keeps the history. A KeyError, or a failed add after the clear, leaves it empty. The history is never left partly rewritten. |
| Memory.CompactionSettles | src/Memory.py:44 | After a successful compaction, the next `get_memory` changes nothing and calls no summariser. |
| Memory.RedisChatMessageHistory.Messages | src/Memory.py:43 | Reads this session's list, or fails. |
| Memory.RedisChatMessageHistory.Clear | src/Memory.py:49 | Empties this session and no other. |
| Memory.RedisChatMessageHistory.AddMessage | src/Memory.py:50 | Appends to this session; adding `None` fails and changes nothing. |
| Memory.ChatModel.Invoke | src/Memory.py:28-29 | Answers the request as the model does, and records it. |
| Memory.MemoryClass.constructor | src/Memory.py:15-18 | Keeps the key and the model; the memory starts as an empty list. |
| Memory.MemoryClass.GetMemory | src/Memory.py:35-58 | The new stored history, the returned handle and the summariser requests are exactly those of `Compaction` on the old history. Other sessions are untouched. |
| Memory.MemoryClass.SetMemory | src/Memory.py:60-77 | Always ends with a buffer memory over a fresh or compacted history of the requested session. It is keyed by the instance's key, with output key "output" and the fixed prefixes and limits. |
| Storage.Lookup | src/Storage.py:10 | `dict.get`: the value exactly when the key is present. |
| Storage.UserStorage.constructor | src/Storage.py:3 | The map starts empty. |
| Storage.UserStorage.AddUser | src/Storage.py:6-7 | Stores the value under the key, overwriting; nothing else changes. |
| Storage.UserStorage.GetUser | src/Storage.py:9-10 | Reads the key's value or None, and changes nothing. |
| Storage.UserStorage.GetAllUsers | src/Storage.py:12-13 | Returns the live storage itself, not a copy. |
| Storage.UserStorage.DeleteUser | src/Storage.py:15-19 | Returns true and removes the key exactly when it was present; otherwise the map is unchanged. |
| Storage.LookupAfterAdd | src/Storage.py:6-10 | After an add, the key reads as the new value and every other key reads as before. |
| Storage.LookupAfterDelete | src/Storage.py:10-19 | After a delete, the key reads as None and every other key reads as before. |
| Storage.StorageScenario | src/Storage.py:3-19 | A run of all four helpers (add, overwrite, read, list, delete, delete again) leaves the map as it was minus "userid". The program itself only calls `add_user` (src/FeishuWebHook.py:47) and `get_user`. |
| FeishuWebHook.StripStart | src/FeishuWebHook.py:109 | The index of the first non-whitespace character. |
| FeishuWebHook.StripEnd | src/FeishuWebHook.py:109 | The index just after the last non-whitespace character. |
| FeishuWebHook.StripShape | src/FeishuWebHook.py:109 | The stripped text neither starts nor ends with whitespace. It is empty exactly when the text is all whitespace. |
| FeishuWebHook.StripIdempotent | src/FeishuWebHook.py:109 | Stripping twice is stripping once. |
| FeishuWebHook.Decide | src/FeishuWebHook.py:84-122 | App senders, non-text messages, content that is not JSON and a missing sender id dispatch nothing. A dispatch carries the stripped, non-empty "text", a present user id, and the chat and message ids. Conversely, every such event is dispatched. |
| FeishuWebHook.TaskQueue.CreateTask | src/FeishuWebHook.py:115-117 | Schedules one task after the earlier ones. |
| FeishuWebHook.MessageEventHandler.Do | src/FeishuWebHook.py:84-122 | Schedules at most one task per event: the one `Decide` picks. |
| FeishuWebHook.ReplyRequest | src/FeishuWebHook.py:56-65 | The reply goes to the chat id as a text message with content {"text": reply}, not in a thread. Its uuid is exactly "reply_" followed by the message id. |
| FeishuWebHook.ReplyKeyIdentifiesMessage | src/FeishuWebHook.py:63 | Two replies share an idempotency key exactly when they answer the same message. |
| FeishuWebHook.ImClient.Create | src/FeishuWebHook.py:67 | Sends one request after the earlier ones. |
| FeishuWebHook.ProcessMessageAsync | src/FeishuWebHook.py:41-75 | Stores the user id under "userid" before the agent runs. Sends exactly one reply when the agent gives an output, and none otherwise; nothing escapes. |
| Tools.SetupEnvironment | src/Tools.py:27-44 | Succeeds exactly when all five variables are set and non-empty, leaving the environment as it was. Otherwise it names the first one missing. |
| Tools.NewFeishuClient | src/Tools.py:52-57 | Succeeds exactly when both credentials are set; otherwise it fails with "飞书配置信息不完整". |
| Tools.FeishuPriority | src/Tools.py:219-227 | A non-zero priority maps into 1..4. |
| Tools.PriorityBands | src/Tools.py:219-227 | ≤10 maps to 1, ≤20 to 2, ≤30 to 3, and anything higher to 4. |
| Tools.PriorityMonotone | src/Tools.py:220-227 | A higher priority never maps to a lower level. |
| Tools.CreateTodo | src/Tools.py:192-246 | One task-create call. Description only when truthy; due timestamp only when non-zero, and it reads back as the due time; priority extra only when non-zero, with the mapped level. The answer depends on the response; a missing configuration makes no call. |
| Tools.CheckSchedule | src/Tools.py:249-294 | One free/busy call with the given bounds. One BUSY item per busy time, in order, with start and end copied. No data gives an empty item list; a failure gives the prefixed message. |
| Tools.SetSchedule | src/Tools.py:297-339 | One create call. An all-day event sends only the dates; a timed one sends only the date-times with their timezones. |
| Tools.SearchRequestOf | src/Tools.py:356-359 | A bound is sent exactly when it is non-empty. |
| Tools.ShapeEvent | src/Tools.py:372-389 | Copies the id, summary and description, and the timestamp and date of the start and of the end (none when absent). `isAllDay` holds exactly when a start with a non-empty date is present. The status is "confirmed". |
| Tools.SearchOutcome | src/Tools.py:342-396 | One search call. No events give "您的日程空空如也"; otherwise one record per event, in order. A failure gives the prefixed message. The result is never an empty event list. |
| Tools.SearchSchedule | src/Tools.py:342-396 | The append loop builds exactly `SearchOutcome`. |
| Tools.SelectTarget | src/Tools.py:465-476 | One event is taken with its own id and `isAllDay`; among several, the model's pick decides. An empty or missing id selects nothing. |
| Tools.PatchTime | src/Tools.py:490-508 | The date only when the target is all-day and a date is given; otherwise the date-time, with the timezone only when given. Never both forms. |
| Tools.PatchBody | src/Tools.py:485-508 | Summary and description are patched only when non-empty; start and end only when given. |
| Tools.ModifySchedule | src/Tools.py:433-525 | The whole call trace is fixed: the search, the model's pick only among several events, then at most one patch, of exactly the target; it never deletes. Any text from the search (including the empty calendar) gives "查询日程失败". One event: the model is not asked. Several: it is asked once, about all of them. No target: "您的日程似乎不存在，是否输入有误？" and no patch. A target: one patch of exactly that event. |
| Tools.ModifyOnEmptyCalendar | src/Tools.py:453-455 | On an empty calendar (the text at src/Tools.py:369), `ModifySchedule` answers "查询日程失败" after the single search call: no pick, no patch, no delete. |
| Tools.DelSchedule | src/Tools.py:527-555 | As written: never deletes; the calls are the search, then the model's pick only among several events. Raises when the search answers with a text, or when the pick fails. A single event is proposed with its id; among several, a non-empty pick is proposed and an empty one is "not found"; any confirmation names one of these ids. |
| Tools.DelScheduleRaisesOnEmptyCalendar | src/Tools.py:541-544 | As written, an empty calendar raises instead of answering "您的日程空空如也". |
| Tools.DelScheduleRaisesWhenNoPick | src/Tools.py:545-549 | As written, a failed model pick raises instead of answering "not found". |
| Tools.DelScheduleChecked | src/Tools.py:541-555 | Never raises and never deletes; the same call trace as `DelSchedule`. An empty calendar gives "您的日程空空如也", a failed search "查询日程失败", a failed or empty pick "not found". A single event, or a non-empty pick, is proposed with its id, and any confirmation names one of these. |
| Tools.ConfirmDelSchedule | src/Tools.py:558-586 | Exactly one delete call, of exactly the given id, when configured; the answer depends on the response. |
| Tools.TwoPhaseDelete | src/Tools.py:541-578 | Proposing deletes nothing; confirming deletes only the confirmed id. |

## Left out

- `src/Agents.py` (the agent executor and its fallback), `src/AddDoc.py` and `src/Server.py` are not part of this model. Running the agent is the `runAgent` input of `ProcessMessageAsync`.
- The mood estimator is not part of this model: the feeling is an input of `PromptStructure`.
- The `search` tool (SerpAPI) is a library wrapper and is not modelled.
- `get_info_from_local` is not modelled. It reads `get_user("userid")` and uses the session history only when a user id is stored (src/Tools.py:143-147). It reads `.messages` of `get_memory`'s result, so a failed `get_memory` (which gives `None`) makes the tool raise. Its retrieval chain is a library call.
- Model calls are inputs: the summariser (`ChatModel.answer`), `FindPreciseOrder` (`Services.findPreciseOrder`, whose `None` stands for its caught exception) and the agent. The prompt text sent to `FindPreciseOrder` is modelled as a structured query, not as the Python rendering of the request.
- Feishu task, calendar and message calls, Redis transport and `json.loads` are inputs. A Redis failure is a flag per operation (`StoreFaults`).
- `json.dumps` of the reply content is modelled as a structured JSON value. The priority extra is written out as the text `json.dumps` gives.
- Concurrency (`asyncio.create_task`, the websocket client) is left out. The model covers the decision and its task queue, not interleavings.
- Logging and the time-dependent field descriptions are left out.
- Memory.MemoryClass.GetMemory: the read-back of the list in the log line at src/Memory.py:51 is not modelled. A failure of the `RedisChatMessageHistory` constructor is not modelled either.
- Memory.MemoryClass.constructor: the memory key is a string; a `None` key passed on to the buffer memory is not modelled.
- Tools.CreateTodo: the read of `response.data.task` after a success is not modelled, so an empty success body does not turn into the failure message.
- Tools.SetSchedule: the read of `response.data.event` after a success is not modelled, for the same reason.
- Tools.CheckSchedule: a `busy_times` attribute that is present but `None` is not modelled. Only its absence (`None` here) and a list are.
- Tools.ModifySchedule: the second client check at src/Tools.py:479 is not modelled. It reads the same environment as the search's check, which has already succeeded by then. The empty-events check at src/Tools.py:458-459 is unreachable, because an empty calendar reaches it as a text.
- Tools.SetupEnvironment: `load_dotenv` is not modelled; the environment is an input.

## Findings

| source | as written | input that shows it | evidently intended | confidence | as-written member | corrected member |
|---|---|---|---|---|---|---|
| src/Tools.py:541-544 | `searchResult.get('events', [])` is called on the search answer, which is a text for an empty calendar (src/Tools.py:369) or a failed search, so the tool raises `AttributeError`. The check at 543-544 is never reached. | The search answers with no events | Answer "您的日程空空如也" for an empty calendar, and a failed-search text otherwise, as `ModifySchedule` does at 453-455 | not executed | Tools.DelScheduleRaisesOnEmptyCalendar | Tools.DelScheduleChecked |
| src/Tools.py:545-551 | `returnID.id` is read without checking `returnID`, which is `None` when `FindPreciseOrder` fails (src/Tools.py:426-428), so the tool raises. | Two events found and the model's pick fails | Answer "您的日程似乎不存在，是否输入有误？", as `ModifySchedule` does at 468-476 | not executed | Tools.DelScheduleRaisesWhenNoPick | Tools.DelScheduleChecked |
