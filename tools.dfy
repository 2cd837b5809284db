/** The calendar and todo tools (src/Tools.py).

    Every Feishu API call and the `FindPreciseOrder` language-model call is an
    input (`Services`); a tool returns its result together with the list of
    calls it made, in order, so that "this path deletes nothing" and "this
    path asks the model nothing" can be stated. An API call answers
    `Success`, `Failure(code, msg)`, or raises. */
module Tools {
  import opened Common

  // ---------------------------------------------------------------------
  // Configuration

  /** The process environment. */
  type Env = map<string, string>

  /** `os.getenv(name)` is truthy. */
  predicate EnvSet(env: Env, name: string)
  {
    name in env && env[name] != ""
  }

  const RequiredVars: seq<string> :=
    ["SERPAPI_API_KEY", "OPENAI_API_KEY", "OPENAI_API_BASE", "FEISHU_APP_ID", "FEISHU_APP_SECRET"]

  const MissingVarPrefix: string := "Missing required environment variable: "

  /** `Config.setup_environment`: fails on the first required variable that
      is unset or empty, naming it; otherwise re-exports three of them, which
      leaves the environment as it was. */
  method SetupEnvironment(env: Env) returns (r: Result<Env, string>)
    ensures r.Ok? <==> forall i :: 0 <= i < |RequiredVars| ==> EnvSet(env, RequiredVars[i])
    ensures r.Ok? ==> r.value == env
    ensures r.Err? ==> exists i :: 0 <= i < |RequiredVars| && !EnvSet(env, RequiredVars[i]) &&
                                   (forall j :: 0 <= j < i ==> EnvSet(env, RequiredVars[j])) &&
                                   r.error == MissingVarPrefix + RequiredVars[i]
  {
    for i := 0 to |RequiredVars|
      invariant forall j :: 0 <= j < i ==> EnvSet(env, RequiredVars[j])
    {
      if !EnvSet(env, RequiredVars[i]) {
        return Err(MissingVarPrefix + RequiredVars[i]);
      }
    }
    assert EnvSet(env, RequiredVars[0]) && EnvSet(env, RequiredVars[1]) && EnvSet(env, RequiredVars[2]);
    var updated := env["SERPAPI_API_KEY" := env["SERPAPI_API_KEY"]]
                      ["OPENAI_API_KEY" := env["OPENAI_API_KEY"]]
                      ["OPENAI_API_BASE" := env["OPENAI_API_BASE"]];
    return Ok(updated);
  }

  const IncompleteConfig: string := "飞书配置信息不完整"

  /** The credentials a `FeishuClient` is built from. */
  datatype FeishuClient = FeishuClient(appId: string, appSecret: string)

  /** `FeishuClient()`: raises ValueError unless both credentials are set. */
  function NewFeishuClient(env: Env): (r: Result<FeishuClient, string>)
    ensures r.Ok? <==> EnvSet(env, "FEISHU_APP_ID") && EnvSet(env, "FEISHU_APP_SECRET")
    ensures r.Err? ==> r.error == IncompleteConfig
  {
    if EnvSet(env, "FEISHU_APP_ID") && EnvSet(env, "FEISHU_APP_SECRET") then
      Ok(FeishuClient(env["FEISHU_APP_ID"], env["FEISHU_APP_SECRET"]))
    else Err(IncompleteConfig)
  }

  // ---------------------------------------------------------------------
  // Requests, responses and the services

  /** The answer of one SDK call. */
  datatype Response<T> = Success(data: T) | Failure(code: int, msg: string) | Raised(error: string)

  /** `CalendarEventTimeInfo`: a date (all-day), or a timestamp and a timezone. */
  datatype TimeInfo = TimeInfo(date: Option<string>, timestamp: Option<string>, timezone: Option<string>)

  /** `CalendarEvent` as built for a create or a patch; `None` is a field the
      builder was never given. */
  datatype CalendarEvent = CalendarEvent(
    summary: Option<string>,
    description: Option<string>,
    startTime: Option<TimeInfo>,
    endTime: Option<TimeInfo>)

  /** `InputTask`: the todo sent to the Feishu task API. */
  datatype InputTask = InputTask(
    summary: string,
    description: Option<string>,
    dueTimestamp: Option<string>,
    extra: Option<string>)

  datatype FreeBusyRequest = FreeBusyRequest(timeMin: Option<string>, timeMax: Option<string>)
  datatype BusyTime = BusyTime(startTime: string, endTime: string)
  /** The free/busy answer; `None` for a body without a `busy_times` attribute. */
  datatype FreeBusyData = FreeBusyData(busyTimes: Option<seq<BusyTime>>)

  datatype SearchRequest = SearchRequest(startTime: Option<string>, endTime: Option<string>)
  /** One event of a search answer. */
  datatype ApiEvent = ApiEvent(
    eventId: Option<string>,
    summary: Option<string>,
    description: Option<string>,
    startTime: Option<TimeInfo>,
    endTime: Option<TimeInfo>)
  datatype SearchData = SearchData(items: Option<seq<ApiEvent>>)

  /** One busy slot of `checkSchedule`'s answer:
      `{"start": {"dateTime": ..}, "end": {"dateTime": ..}, "status": ..}`. */
  datatype ScheduleItem = ScheduleItem(start: string, end: string, status: string)

  /** The `{"dateTime": .., "date": ..}` pair of a shaped event. */
  datatype RecordTime = RecordTime(dateTime: Option<string>, date: Option<string>)

  /** One event of `SearchSchedule`'s answer. */
  datatype EventRecord = EventRecord(
    id: Option<string>,
    summary: Option<string>,
    description: Option<string>,
    start: RecordTime,
    end: RecordTime,
    isAllDay: bool,
    status: string)

  /** `ScheduleSchemaSet_data`: the date, date-time and timezone the model fills in. */
  datatype TimeSpec = TimeSpec(date: string, dateTime: string, timeZone: string)

  /** What `FindPreciseOrder` is told about the user's request. */
  datatype PreciseQuery =
    | ModifyQuery(description: Option<string>, start: Option<TimeSpec>, end: Option<TimeSpec>, summary: Option<string>)
    | DeleteQuery(description: Option<string>, title: string)

  /** The structured answer of `FindPreciseOrder`. */
  datatype EventsId = EventsId(id: string, isAllDay: bool)

  /** The Feishu SDK calls and the `FindPreciseOrder` model call (which
      answers `None` when its chain raises). */
  datatype Services = Services(
    createTask: InputTask -> Response<()>,
    freeBusy: FreeBusyRequest -> Response<Option<FreeBusyData>>,
    createEvent: CalendarEvent -> Response<()>,
    searchEvents: SearchRequest -> Response<Option<SearchData>>,
    patchEvent: (string, CalendarEvent) -> Response<()>,
    deleteEvent: string -> Response<()>,
    findPreciseOrder: (PreciseQuery, seq<EventRecord>) -> Option<EventsId>)

  /** One call a tool made. */
  datatype ApiCall =
    | CreateTaskCall(task: InputTask)
    | FreeBusyCall(freeBusy: FreeBusyRequest)
    | CreateEventCall(event: CalendarEvent)
    | SearchCall(search: SearchRequest)
    | FindPreciseCall(query: PreciseQuery, candidates: seq<EventRecord>)
    | PatchCall(eventId: string, patch: CalendarEvent)
    | DeleteCall(eventId: string)

  /** What a tool hands back to the agent: a text, one of the two dictionaries,
      or an exception that escapes the tool. */
  datatype ToolResult =
    | Text(s: string)
    | ScheduleInformation(items: seq<ScheduleItem>)
    | Events(events: seq<EventRecord>)
    | ToolRaised(error: string)

  datatype Outcome = Outcome(result: ToolResult, calls: seq<ApiCall>)

  predicate NoDelete(calls: seq<ApiCall>)
  {
    forall i :: 0 <= i < |calls| ==> !calls[i].DeleteCall?
  }

  predicate NoPatch(calls: seq<ApiCall>)
  {
    forall i :: 0 <= i < |calls| ==> !calls[i].PatchCall?
  }

  predicate NoFindPrecise(calls: seq<ApiCall>)
  {
    forall i :: 0 <= i < |calls| ==> !calls[i].FindPreciseCall?
  }

  /** The message for an SDK answer: the success text, or the failure prefix
      followed by "code: msg" or by the exception's text. */
  function ResponseText<T>(r: Response<T>, success: string, failPrefix: string): string
  {
    match r
    case Success(_) => success
    case Failure(code, msg) => failPrefix + IntToString(code) + ": " + msg
    case Raised(e) => failPrefix + e
  }

  // ---------------------------------------------------------------------
  // create_todo

  const TodoCreated: string := "成功创建待办事项: "
  const TodoFailed: string := "创建待办事项失败: "

  /** `TodoInput`; `None` for a field the model left out. */
  datatype TodoInput = TodoInput(subject: string, dueTime: Option<int>, description: Option<string>, priority: int)

  /** The priority ladder from the 10/20/30/40 scale to Feishu's 1..4, for a
      non-zero priority (zero sets no priority at all). */
  function FeishuPriority(p: int): (level: nat)
    requires p != 0
    ensures 1 <= level <= 4
  {
    if p <= 10 then 1 else if p <= 20 then 2 else if p <= 30 then 3 else 4
  }

  /** The ladder's bands. */
  lemma PriorityBands(p: int)
    requires p != 0
    ensures p <= 10 ==> FeishuPriority(p) == 1
    ensures 10 < p <= 20 ==> FeishuPriority(p) == 2
    ensures 20 < p <= 30 ==> FeishuPriority(p) == 3
    ensures 30 < p ==> FeishuPriority(p) == 4
  {
  }

  /** A higher priority never maps to a lower level. */
  lemma PriorityMonotone(p: int, q: int)
    requires p != 0 && q != 0 && p <= q
    ensures FeishuPriority(p) <= FeishuPriority(q)
  {
  }

  /** `json.dumps({"priority": level})`. */
  function PriorityExtra(level: nat): string
  {
    "{\"priority\": " + NatToString(level) + "}"
  }

  /** `create_todo`: the new todo carries the subject, the description and the due
      time only when they are truthy, and a priority only when it is non-zero. */
  method CreateTodo(todo: TodoInput, env: Env, services: Services) returns (o: Outcome)
    ensures NewFeishuClient(env).Err? ==> o == Outcome(Text(TodoFailed + IncompleteConfig), [])
    ensures NewFeishuClient(env).Ok? ==> |o.calls| == 1 && o.calls[0].CreateTaskCall?
    ensures NewFeishuClient(env).Ok? ==>
              var t := o.calls[0].task;
              && t.summary == todo.subject
              && (t.description.Some? <==> Truthy(todo.description))
              && (t.description.Some? ==> t.description == todo.description)
              && (t.dueTimestamp.Some? <==> todo.dueTime.Some? && todo.dueTime.value != 0)
              && (t.dueTimestamp.Some? ==> IntString(t.dueTimestamp.value) && ParseInt(t.dueTimestamp.value) == todo.dueTime.value)
              && (t.extra.Some? <==> todo.priority != 0)
              && (t.extra.Some? ==> t.extra.value == PriorityExtra(FeishuPriority(todo.priority)))
              && o.result == Text(ResponseText(services.createTask(t), TodoCreated + todo.subject, TodoFailed))
  {
    var client := NewFeishuClient(env);
    if client.Err? {
      return Outcome(Text(TodoFailed + client.error), []);
    }
    var task := InputTask(todo.subject, None, None, None);
    if Truthy(todo.description) {
      task := task.(description := todo.description);
    }
    if todo.dueTime.Some? && todo.dueTime.value != 0 {
      var stamp := IntToString(todo.dueTime.value);
      ParseIntToString(todo.dueTime.value);
      task := task.(dueTimestamp := Some(stamp));
    }
    if todo.priority != 0 {
      var priority := FeishuPriority(todo.priority);
      task := task.(extra := Some(PriorityExtra(priority)));
    }
    var response := services.createTask(task);
    o := Outcome(Text(ResponseText(response, TodoCreated + todo.subject, TodoFailed)), [CreateTaskCall(task)]);
  }

  // ---------------------------------------------------------------------
  // checkSchedule

  const FreeBusyFailed: string := "查询忙闲状态失败: "

  /** `ScheduleSchema`; the user ids are not sent to the API. */
  datatype ScheduleSchema = ScheduleSchema(userIds: string, startTime: Option<string>, endTime: Option<string>)

  /** `checkSchedule`: one BUSY item per busy time, in order, with its start
      and end copied; no data gives a single entry with no items. */
  method CheckSchedule(schedule: ScheduleSchema, env: Env, services: Services) returns (o: Outcome)
    ensures NewFeishuClient(env).Err? ==> o == Outcome(Text(FreeBusyFailed + IncompleteConfig), [])
    ensures NewFeishuClient(env).Ok? ==>
              o.calls == [FreeBusyCall(FreeBusyRequest(schedule.startTime, schedule.endTime))]
    ensures NewFeishuClient(env).Ok? ==>
              var response := services.freeBusy(FreeBusyRequest(schedule.startTime, schedule.endTime));
              && ((response.Success? && (response.data.None? || response.data.value.busyTimes.None?))
                    ==> o.result == ScheduleInformation([]))
              && (response.Success? && response.data.Some? && response.data.value.busyTimes.Some? ==>
                    var busy := response.data.value.busyTimes.value;
                    && o.result.ScheduleInformation?
                    && |o.result.items| == |busy|
                    && forall i :: 0 <= i < |busy| ==>
                         o.result.items[i] == ScheduleItem(busy[i].startTime, busy[i].endTime, "BUSY"))
              && (!response.Success? ==> o.result == Text(ResponseText(response, "", FreeBusyFailed)))
  {
    var client := NewFeishuClient(env);
    if client.Err? {
      return Outcome(Text(FreeBusyFailed + client.error), []);
    }
    var request := FreeBusyRequest(schedule.startTime, schedule.endTime);
    var response := services.freeBusy(request);
    if !response.Success? {
      return Outcome(Text(ResponseText(response, "", FreeBusyFailed)), [FreeBusyCall(request)]);
    }
    if response.data.None? {
      return Outcome(ScheduleInformation([]), [FreeBusyCall(request)]);
    }
    var items: seq<ScheduleItem> := [];
    if response.data.value.busyTimes.Some? {
      var busy := response.data.value.busyTimes.value;
      for i := 0 to |busy|
        invariant |items| == i
        invariant forall k :: 0 <= k < i ==> items[k] == ScheduleItem(busy[k].startTime, busy[k].endTime, "BUSY")
      {
        items := items + [ScheduleItem(busy[i].startTime, busy[i].endTime, "BUSY")];
      }
    }
    o := Outcome(ScheduleInformation(items), [FreeBusyCall(request)]);
  }

  // ---------------------------------------------------------------------
  // SetSchedule

  const EventCreated: string := "成功创建日程: "
  const EventCreateFailed: string := "创建日程失败: "

  /** `ScheduleSchemaSet`. */
  datatype ScheduleSchemaSet = ScheduleSchemaSet(
    summary: string,
    start: TimeSpec,
    end: TimeSpec,
    isAllDay: bool,
    description: string)

  /** `SetSchedule`: an all-day event sends only the dates, a timed one only
      the date-times with their timezones. */
  method SetSchedule(sets: ScheduleSchemaSet, env: Env, services: Services) returns (o: Outcome)
    ensures NewFeishuClient(env).Err? ==> o == Outcome(Text(EventCreateFailed + IncompleteConfig), [])
    ensures NewFeishuClient(env).Ok? ==> |o.calls| == 1 && o.calls[0].CreateEventCall?
    ensures NewFeishuClient(env).Ok? ==>
              var ev := o.calls[0].event;
              && ev.summary == Some(sets.summary) && ev.description == Some(sets.description)
              && ev.startTime.Some? && ev.endTime.Some?
              && (sets.isAllDay ==>
                    ev.startTime.value == TimeInfo(Some(sets.start.date), None, None) &&
                    ev.endTime.value == TimeInfo(Some(sets.end.date), None, None))
              && (!sets.isAllDay ==>
                    ev.startTime.value == TimeInfo(None, Some(sets.start.dateTime), Some(sets.start.timeZone)) &&
                    ev.endTime.value == TimeInfo(None, Some(sets.end.dateTime), Some(sets.end.timeZone)))
              && o.result == Text(ResponseText(services.createEvent(ev), EventCreated + sets.summary, EventCreateFailed))
  {
    var client := NewFeishuClient(env);
    if client.Err? {
      return Outcome(Text(EventCreateFailed + client.error), []);
    }
    var eventStart := TimeInfo(None, None, None);
    var eventEnd := TimeInfo(None, None, None);
    if sets.isAllDay {
      eventStart := eventStart.(date := Some(sets.start.date));
      eventEnd := eventEnd.(date := Some(sets.end.date));
    } else {
      eventStart := eventStart.(timestamp := Some(sets.start.dateTime), timezone := Some(sets.start.timeZone));
      eventEnd := eventEnd.(timestamp := Some(sets.end.dateTime), timezone := Some(sets.end.timeZone));
    }
    var ev := CalendarEvent(Some(sets.summary), Some(sets.description), Some(eventStart), Some(eventEnd));
    var response := services.createEvent(ev);
    o := Outcome(Text(ResponseText(response, EventCreated + sets.summary, EventCreateFailed)), [CreateEventCall(ev)]);
  }

  // ---------------------------------------------------------------------
  // SearchSchedule

  const EmptyCalendar: string := "您的日程空空如也"
  const SearchFailed: string := "查询日程失败: "

  /** `ScheduleSearch`. */
  datatype ScheduleSearch = ScheduleSearch(timeMin: Option<string>, timeMax: Option<string>)

  /** The search request: a bound is sent only when it is truthy. */
  function SearchRequestOf(s: ScheduleSearch): (r: SearchRequest)
    ensures r.startTime.Some? <==> Truthy(s.timeMin)
    ensures r.endTime.Some? <==> Truthy(s.timeMax)
    ensures r.startTime.Some? ==> r.startTime == s.timeMin
    ensures r.endTime.Some? ==> r.endTime == s.timeMax
  {
    SearchRequest(if Truthy(s.timeMin) then s.timeMin else None,
                  if Truthy(s.timeMax) then s.timeMax else None)
  }

  function RecordTimeOf(t: Option<TimeInfo>): RecordTime
  {
    if t.Some? then RecordTime(t.value.timestamp, t.value.date) else RecordTime(None, None)
  }

  /** The dictionary one event becomes. */
  function ShapeEvent(e: ApiEvent): (r: EventRecord)
    ensures r.id == e.eventId && r.summary == e.summary && r.description == e.description
    ensures r.isAllDay <==> e.startTime.Some? && Truthy(e.startTime.value.date)
    ensures r.status == "confirmed"
    ensures e.startTime.None? ==> r.start == RecordTime(None, None)
    ensures e.startTime.Some? ==> r.start == RecordTime(e.startTime.value.timestamp, e.startTime.value.date)
    ensures e.endTime.None? ==> r.end == RecordTime(None, None)
    ensures e.endTime.Some? ==> r.end == RecordTime(e.endTime.value.timestamp, e.endTime.value.date)
  {
    EventRecord(e.eventId, e.summary, e.description, RecordTimeOf(e.startTime), RecordTimeOf(e.endTime),
                e.startTime.Some? && Truthy(e.startTime.value.date), "confirmed")
  }

  /** `response.data.items if response.data and response.data.items else []`. */
  function EventsOf(data: Option<SearchData>): seq<ApiEvent>
  {
    if data.Some? && data.value.items.Some? then data.value.items.value else []
  }

  /** What `SearchSchedule` returns: the empty-calendar text when there is no
      event, otherwise one record per event in the answer's order. */
  function SearchOutcome(s: ScheduleSearch, env: Env, services: Services): (o: Outcome)
    ensures NewFeishuClient(env).Err? ==> o == Outcome(Text(SearchFailed + IncompleteConfig), [])
    ensures NewFeishuClient(env).Ok? ==> o.calls == [SearchCall(SearchRequestOf(s))]
    ensures o.result.Text? || o.result.Events?
    ensures o.result.Events? ==> |o.result.events| > 0
    ensures NewFeishuClient(env).Ok? ==>
              var response := services.searchEvents(SearchRequestOf(s));
              && (response.Success? && EventsOf(response.data) == [] ==> o.result == Text(EmptyCalendar))
              && (response.Success? && EventsOf(response.data) != [] ==>
                    var events := EventsOf(response.data);
                    && o.result.Events?
                    && |o.result.events| == |events|
                    && forall i :: 0 <= i < |events| ==> o.result.events[i] == ShapeEvent(events[i]))
              && (!response.Success? ==> o.result == Text(ResponseText(response, "", SearchFailed)))
  {
    if NewFeishuClient(env).Err? then Outcome(Text(SearchFailed + IncompleteConfig), [])
    else
      var request := SearchRequestOf(s);
      var response := services.searchEvents(request);
      if !response.Success? then Outcome(Text(ResponseText(response, "", SearchFailed)), [SearchCall(request)])
      else
        var events := EventsOf(response.data);
        if events == [] then Outcome(Text(EmptyCalendar), [SearchCall(request)])
        else Outcome(Events(seq(|events|, i requires 0 <= i < |events| => ShapeEvent(events[i]))), [SearchCall(request)])
  }

  /** `SearchSchedule`, building the list of records with an append loop. */
  method SearchSchedule(s: ScheduleSearch, env: Env, services: Services) returns (o: Outcome)
    ensures o == SearchOutcome(s, env, services)
  {
    var client := NewFeishuClient(env);
    if client.Err? {
      return Outcome(Text(SearchFailed + client.error), []);
    }
    var request := SearchRequestOf(s);
    var response := services.searchEvents(request);
    if !response.Success? {
      return Outcome(Text(ResponseText(response, "", SearchFailed)), [SearchCall(request)]);
    }
    var events := EventsOf(response.data);
    if events == [] {
      return Outcome(Text(EmptyCalendar), [SearchCall(request)]);
    }
    var eventsData: seq<EventRecord> := [];
    for i := 0 to |events|
      invariant |eventsData| == i
      invariant forall k :: 0 <= k < i ==> eventsData[k] == ShapeEvent(events[k])
    {
      eventsData := eventsData + [ShapeEvent(events[i])];
    }
    o := Outcome(Events(eventsData), [SearchCall(request)]);
  }

  // ---------------------------------------------------------------------
  // ModifySchedule

  const SearchFailedShort: string := "查询日程失败"
  const NotFound: string := "您的日程似乎不存在，是否输入有误？"
  const Modified: string := "成功修改日程"
  const ModifyFailed: string := "修改日程失败: "

  /** `ScheduleModify`; every field may be left out. */
  datatype ScheduleModify = ScheduleModify(
    timeMin: Option<string>,
    timeMax: Option<string>,
    description: Option<string>,
    start: Option<TimeSpec>,
    end: Option<TimeSpec>,
    summary: Option<string>)

  /** The event a modification or deletion is aimed at. */
  datatype Target = Target(id: string, isAllDay: bool)

  /** Target selection among the searched events: a single event is taken as
      it is; among several, `chosen` (the model's pick) decides. An empty or
      missing id selects nothing. */
  function SelectTarget(events: seq<EventRecord>, chosen: Option<EventsId>): (t: Option<Target>)
    requires |events| > 0
    ensures t.Some? ==> t.value.id != ""
    ensures |events| == 1 ==> (t.Some? <==> Truthy(events[0].id))
    ensures |events| == 1 && t.Some? ==> t.value == Target(events[0].id.value, events[0].isAllDay)
    ensures |events| > 1 ==> (t.Some? <==> chosen.Some? && chosen.value.id != "")
    ensures |events| > 1 && t.Some? ==> t.value == Target(chosen.value.id, chosen.value.isAllDay)
  {
    if |events| > 1 then
      if chosen.Some? && chosen.value.id != "" then Some(Target(chosen.value.id, chosen.value.isAllDay)) else None
    else
      if Truthy(events[0].id) then Some(Target(events[0].id.value, events[0].isAllDay)) else None
  }

  /** The time info of a patch: the date when the target is all-day and a
      date is given, otherwise the date-time (with its timezone when given),
      otherwise nothing. */
  function PatchTime(t: TimeSpec, isAllDay: bool): (r: TimeInfo)
    ensures r.date.Some? <==> isAllDay && t.date != ""
    ensures r.date.Some? ==> r.date.value == t.date && r.timestamp.None? && r.timezone.None?
    ensures r.timestamp.Some? <==> r.date.None? && t.dateTime != ""
    ensures r.timestamp.Some? ==> r.timestamp.value == t.dateTime
    ensures r.timezone.Some? <==> r.timestamp.Some? && t.timeZone != ""
    ensures r.timezone.Some? ==> r.timezone.value == t.timeZone
  {
    if isAllDay && t.date != "" then TimeInfo(Some(t.date), None, None)
    else if t.dateTime != "" then TimeInfo(None, Some(t.dateTime), if t.timeZone != "" then Some(t.timeZone) else None)
    else TimeInfo(None, None, None)
  }

  /** The patch body: summary and description only when non-empty, start and
      end only when given. */
  function PatchBody(q: ScheduleModify, isAllDay: bool): (ev: CalendarEvent)
    ensures ev.summary.Some? <==> Truthy(q.summary)
    ensures ev.description.Some? <==> Truthy(q.description)
    ensures ev.summary.Some? ==> ev.summary == q.summary
    ensures ev.description.Some? ==> ev.description == q.description
    ensures ev.startTime.Some? <==> q.start.Some?
    ensures ev.endTime.Some? <==> q.end.Some?
    ensures q.start.Some? ==> ev.startTime.value == PatchTime(q.start.value, isAllDay)
    ensures q.end.Some? ==> ev.endTime.value == PatchTime(q.end.value, isAllDay)
  {
    CalendarEvent(
      if Truthy(q.summary) then q.summary else None,
      if Truthy(q.description) then q.description else None,
      if q.start.Some? then Some(PatchTime(q.start.value, isAllDay)) else None,
      if q.end.Some? then Some(PatchTime(q.end.value, isAllDay)) else None)
  }

  /** The model call a selection makes: none for a single event, one about
      all of them for several. */
  function PickCalls(query: PreciseQuery, events: seq<EventRecord>): (calls: seq<ApiCall>)
    ensures |events| <= 1 ==> calls == []
    ensures |events| > 1 ==> calls == [FindPreciseCall(query, events)]
  {
    if |events| > 1 then [FindPreciseCall(query, events)] else []
  }

  function ModifyQueryOf(q: ScheduleModify): PreciseQuery
  {
    ModifyQuery(q.description, q.start, q.end, q.summary)
  }

  /** `ModifySchedule`: searches, picks the target, and patches only that
      target; a failed search or no target patches nothing. */
  method ModifySchedule(q: ScheduleModify, env: Env, services: Services) returns (o: Outcome)
    ensures NoDelete(o.calls)
    // Any text from the search (an error, or the empty calendar) ends the tool.
    ensures var s := SearchOutcome(ScheduleSearch(q.timeMin, q.timeMax), env, services);
            s.result.Text? ==> o == Outcome(Text(SearchFailedShort), s.calls)
    ensures var s := SearchOutcome(ScheduleSearch(q.timeMin, q.timeMax), env, services);
            s.result.Events? ==>
              var events := s.result.events;
              var chosen := if |events| > 1 then services.findPreciseOrder(ModifyQueryOf(q), events) else None;
              var target := SelectTarget(events, chosen);
              // The whole trace: the search, the model's pick among several
              // events (and only then), and one patch of exactly the target.
              && o.calls == s.calls + PickCalls(ModifyQueryOf(q), events) +
                            (if target.Some? then [PatchCall(target.value.id, PatchBody(q, target.value.isAllDay))] else [])
              && (|events| == 1 ==> NoFindPrecise(o.calls))
              // No target: the not-found text and no patch.
              && (target.None? ==> o.result == Text(NotFound) && NoPatch(o.calls))
              // A target: the answer of its patch.
              && (target.Some? ==>
                    o.result == Text(ResponseText(services.patchEvent(target.value.id, PatchBody(q, target.value.isAllDay)),
                                                  Modified, ModifyFailed)))
  {
    var search := SearchSchedule(ScheduleSearch(q.timeMin, q.timeMax), env, services);
    if search.result.Text? {
      return Outcome(Text(SearchFailedShort), search.calls);
    }
    var calls := search.calls;
    var events := search.result.events;
    var chosen: Option<EventsId> := None;
    if |events| > 1 {
      chosen := services.findPreciseOrder(ModifyQueryOf(q), events);
      calls := calls + [FindPreciseCall(ModifyQueryOf(q), events)];
    }
    var target := SelectTarget(events, chosen);
    if target.None? {
      return Outcome(Text(NotFound), calls);
    }
    var patch := PatchBody(q, target.value.isAllDay);
    var response := services.patchEvent(target.value.id, patch);
    o := Outcome(Text(ResponseText(response, Modified, ModifyFailed)), calls + [PatchCall(target.value.id, patch)]);
  }

  // ---------------------------------------------------------------------
  // DelSchedule and ConfirmDelSchedule

  const ConfirmPrefix: string := "记录下日程id,然后询问用户，是否确认要删除日程 "
  const Deleted: string := "成功删除日程"
  const DeleteFailed: string := "删除日程失败: "
  const StrHasNoGet: string := "'str' object has no attribute 'get'"
  const NoneHasNoId: string := "'NoneType' object has no attribute 'id'"

  /** `DeleteSchedule`. */
  datatype DeleteSchedule = DeleteSchedule(summary: string, description: Option<string>)

  /** The search `DelSchedule` runs: no time bounds. */
  function DelSearch(env: Env, services: Services): Outcome
  {
    SearchOutcome(ScheduleSearch(None, None), env, services)
  }

  /** `DelSchedule` as written: it reads the search answer as a dictionary
      even when it is a text, and reads `.id` of the model's answer even when
      that answer is `None`; both raise out of the tool. */
  function DelSchedule(q: DeleteSchedule, env: Env, services: Services): (o: Outcome)
    ensures NoDelete(o.calls)
    ensures DelSearch(env, services).result.Text? ==> o.result == ToolRaised(StrHasNoGet)
    // The calls: the search, then the model's pick only among several events.
    ensures DelSearch(env, services).result.Text? ==> o.calls == DelSearch(env, services).calls
    ensures DelSearch(env, services).result.Events? ==>
              var events := DelSearch(env, services).result.events;
              var query := DeleteQuery(q.description, q.summary);
              var chosen := services.findPreciseOrder(query, events);
              && o.calls == DelSearch(env, services).calls + PickCalls(query, events)
              // One event is proposed as it is; among several, the model's pick.
              && (|events| == 1 ==> o.result == Text(ConfirmPrefix + PyStr(events[0].id)))
              && (|events| > 1 && chosen.Some? && chosen.value.id != "" ==>
                    o.result == Text(ConfirmPrefix + chosen.value.id))
              && (|events| > 1 && chosen.Some? && chosen.value.id == "" ==> o.result == Text(NotFound))
    ensures (&& DelSearch(env, services).result.Events? && |DelSearch(env, services).result.events| > 1
             && services.findPreciseOrder(DeleteQuery(q.description, q.summary), DelSearch(env, services).result.events).None?)
              ==> o.result == ToolRaised(NoneHasNoId)
    ensures o.result.Text? && o.result.s != NotFound ==>
              var events := DelSearch(env, services).result.events;
              && DelSearch(env, services).result.Events?
              && (|events| == 1 ==> o.result.s == ConfirmPrefix + PyStr(events[0].id))
              && (|events| > 1 ==>
                    var chosen := services.findPreciseOrder(DeleteQuery(q.description, q.summary), events);
                    chosen.Some? && o.result.s == ConfirmPrefix + chosen.value.id)
  {
    var search := DelSearch(env, services);
    if !search.result.Events? then Outcome(ToolRaised(StrHasNoGet), search.calls)
    else
      var events := search.result.events;
      if |events| > 1 then
        var query := DeleteQuery(q.description, q.summary);
        var calls := search.calls + [FindPreciseCall(query, events)];
        var returnId := services.findPreciseOrder(query, events);
        if returnId.None? then Outcome(ToolRaised(NoneHasNoId), calls)
        else if returnId.value.id == "" then Outcome(Text(NotFound), calls)
        else Outcome(Text(ConfirmPrefix + returnId.value.id), calls)
      else
        Outcome(Text(ConfirmPrefix + PyStr(events[0].id)), search.calls)
  }

  /** With an empty calendar, `DelSchedule` raises instead of answering with
      the empty-calendar text that its own check was written for. */
  lemma DelScheduleRaisesOnEmptyCalendar(q: DeleteSchedule, env: Env, services: Services)
    requires NewFeishuClient(env).Ok?
    requires services.searchEvents(SearchRequest(None, None)) == Success(None)
    ensures DelSchedule(q, env, services).result == ToolRaised(StrHasNoGet)
  {
  }

  /** When the model's pick fails, `DelSchedule` raises instead of answering
      that the event was not found. */
  lemma DelScheduleRaisesWhenNoPick(q: DeleteSchedule, env: Env, services: Services, a: ApiEvent, b: ApiEvent)
    requires NewFeishuClient(env).Ok?
    requires services.searchEvents(SearchRequest(None, None)) == Success(Some(SearchData(Some([a, b]))))
    requires services.findPreciseOrder(DeleteQuery(q.description, q.summary), [ShapeEvent(a), ShapeEvent(b)]) == None
    ensures DelSchedule(q, env, services).result == ToolRaised(NoneHasNoId)
  {
    var events := DelSearch(env, services).result.events;
    assert events == [ShapeEvent(a), ShapeEvent(b)];
  }

  /** `DelSchedule` with the two checks it evidently intends: a text from the
      search is answered (the empty-calendar text, or a failed search), and a
      failed pick is "not found". It never raises and never deletes. */
  function DelScheduleChecked(q: DeleteSchedule, env: Env, services: Services): (o: Outcome)
    ensures NoDelete(o.calls)
    ensures !o.result.ToolRaised?
    ensures o.result.Text?
    ensures DelSearch(env, services).result == Text(EmptyCalendar) ==> o.result == Text(EmptyCalendar)
    // The calls: the search, then the model's pick only among several events.
    ensures DelSearch(env, services).result.Text? ==> o.calls == DelSearch(env, services).calls
    ensures DelSearch(env, services).result.Events? ==>
              var events := DelSearch(env, services).result.events;
              var query := DeleteQuery(q.description, q.summary);
              var chosen := services.findPreciseOrder(query, events);
              && o.calls == DelSearch(env, services).calls + PickCalls(query, events)
              // One event is proposed as it is; among several, the model's pick.
              && (|events| == 1 ==> o.result == Text(ConfirmPrefix + PyStr(events[0].id)))
              && (|events| > 1 && chosen.Some? && chosen.value.id != "" ==>
                    o.result == Text(ConfirmPrefix + chosen.value.id))
              && (|events| > 1 && chosen.Some? && chosen.value.id == "" ==> o.result == Text(NotFound))
    ensures (DelSearch(env, services).result.Text? && DelSearch(env, services).result != Text(EmptyCalendar))
              ==> o.result == Text(SearchFailedShort)
    ensures (&& DelSearch(env, services).result.Events? && |DelSearch(env, services).result.events| > 1
             && services.findPreciseOrder(DeleteQuery(q.description, q.summary), DelSearch(env, services).result.events).None?)
              ==> o.result == Text(NotFound)
    ensures |o.result.s| >= |ConfirmPrefix| && o.result.s[..|ConfirmPrefix|] == ConfirmPrefix ==>
              var events := DelSearch(env, services).result.events;
              && DelSearch(env, services).result.Events?
              && (|events| == 1 ==> o.result.s == ConfirmPrefix + PyStr(events[0].id))
              && (|events| > 1 ==>
                    var chosen := services.findPreciseOrder(DeleteQuery(q.description, q.summary), events);
                    chosen.Some? && chosen.value.id != "" && o.result.s == ConfirmPrefix + chosen.value.id)
  {
    var search := DelSearch(env, services);
    if search.result.Text? then
      Outcome(Text(if search.result.s == EmptyCalendar then EmptyCalendar else SearchFailedShort), search.calls)
    else
      var events := search.result.events;
      if |events| > 1 then
        var query := DeleteQuery(q.description, q.summary);
        var calls := search.calls + [FindPreciseCall(query, events)];
        var returnId := services.findPreciseOrder(query, events);
        if returnId.None? || returnId.value.id == "" then Outcome(Text(NotFound), calls)
        else Outcome(Text(ConfirmPrefix + returnId.value.id), calls)
      else
        Outcome(Text(ConfirmPrefix + PyStr(events[0].id)), search.calls)
  }

  /** `ConfirmDelSchedule`: deletes exactly the id it is given, once. */
  function ConfirmDelSchedule(eventId: string, env: Env, services: Services): (o: Outcome)
    ensures NewFeishuClient(env).Err? ==> o == Outcome(Text(DeleteFailed + IncompleteConfig), [])
    ensures NewFeishuClient(env).Ok? ==> o.calls == [DeleteCall(eventId)]
    ensures NewFeishuClient(env).Ok? ==>
              o.result == Text(ResponseText(services.deleteEvent(eventId), Deleted, DeleteFailed))
  {
    match NewFeishuClient(env)
    case Err(e) => Outcome(Text(DeleteFailed + e), [])
    case Ok(_) => Outcome(Text(ResponseText(services.deleteEvent(eventId), Deleted, DeleteFailed)), [DeleteCall(eventId)])
  }

  /** The two-phase delete: proposing deletes nothing, whatever the calendar
      and the model say; a deletion happens only on confirmation, of exactly
      the confirmed id. */
  lemma TwoPhaseDelete(q: DeleteSchedule, eventId: string, env: Env, services: Services)
    ensures NoDelete(DelSchedule(q, env, services).calls)
    ensures NoDelete(DelScheduleChecked(q, env, services).calls)
    ensures forall c :: c in ConfirmDelSchedule(eventId, env, services).calls ==> c == DeleteCall(eventId)
  {
  }

  /** On an empty calendar `ModifySchedule` reports a failed search: the
      empty-calendar text of `SearchSchedule` reaches it as a text, so it
      asks the model nothing and patches and deletes nothing. */
  method ModifyOnEmptyCalendar(q: ScheduleModify, env: Env, services: Services) returns (o: Outcome)
    requires NewFeishuClient(env).Ok?
    requires services.searchEvents(SearchRequestOf(ScheduleSearch(q.timeMin, q.timeMax))).Success?
    requires EventsOf(services.searchEvents(SearchRequestOf(ScheduleSearch(q.timeMin, q.timeMax))).data) == []
    ensures o.result == Text(SearchFailedShort)
    ensures o.calls == [SearchCall(SearchRequestOf(ScheduleSearch(q.timeMin, q.timeMax)))]
    ensures NoPatch(o.calls) && NoDelete(o.calls) && NoFindPrecise(o.calls)
  {
    o := ModifySchedule(q, env, services);
  }
}
