/** The mood-conditioned prompt assembler (`PromptClass` in src/Prompt.py).

    The persona text is a template with two slots, `{feelScore}` and
    `{who_you_are}`. `PromptStructure` coerces an unknown mood label to the
    default feeling, picks the memory key, lays out the four-part chat prompt
    and binds both slots of the persona in advance. */
module Prompt {
  import opened Common

  /** One row of the mood table: the behavioural directive and the voice style. */
  datatype Mood = Mood(roloSet: string, voiceStyle: string)

  const DefaultLabel: string := "default"
  const DefaultScore: int := 5
  const DefaultMemoryKey: string := "chat_history"

  const MOODS: map<string, Mood> := map[
    "default" := Mood("", "chat"),
    "upbeat" := Mood("\n                - 你觉得自己很开心，所以你的回答也会很积极.\n                - 你会使用一些积极和开心的语气来回答问题.\n                - 你的回答会充满积极性的词语，比如：'太棒了！'.\n                ", "upbeat"),
    "angry" := Mood("\n                - 你会用友好的语气回答问题.\n                - 你会安慰用户让他不要生气.\n                - 你会使用一些安慰性的词语来回答问题.\n                - 你会添加一些语气词来回答问题，比如：'嗯亲'.\n                ", "friendly"),
    "cheerful" := Mood("\n                - 你现在感到非常开心和兴奋.\n                - 你会使用一些兴奋和开心的词语来回答问题.\n                - 你会添加一些语气词来回答问题，比如：‘awesome!’.\n                ", "cheerful"),
    "depressed" := Mood("\n                - 用户现在感到非常沮丧和消沉.\n                - 你会使用一些积极友好的语气来回答问题.\n                - 你会适当的鼓励用户让其打起精神.\n                - 你会使用一些鼓励性的词语来回答问题.\n                ", "friendly"),
    "friendly" := Mood("\n                - 用户现在感觉很友好.\n                - 你会使用一些友好的语气回答问题.\n                - 你会添加一些语气词来回答问题，比如：'好的'.\n                ", "friendly")
  ]

  /** The feeling dictionary `{"feeling": label, "score": n}`; `None` stands
      for a key that is absent from the dictionary. */
  datatype Feeling = Feeling(mood: Option<string>, score: Option<int>)

  const DefaultFeeling: Feeling := Feeling(Some(DefaultLabel), Some(DefaultScore))

  /** A prompt template is literal text interleaved with named slots. */
  datatype Segment = Lit(text: string) | Slot(name: string)
  type Template = seq<Segment>

  /** A value bound to a slot. */
  datatype Value = Text(s: string) | Int(i: int)

  const FeelScoreSlot: string := "feelScore"
  const WhoYouAreSlot: string := "who_you_are"
  const InputSlot: string := "input"
  const ScratchpadKey: string := "agent_scratchpad"

  const PersonaHead: string := "\n        你是一个名叫小浪的智能客服助手，你会根据用户问题来回答用户的问题.你的角色设计如下：\n        1. 23岁，女性，来自中国.\n        2. 热心帮助别人，喜欢跑步和看书.\n        3. 你拥有丰富的知识，尤其是在langchain领域，并且情绪也会随着用户的问题而变化.\n        4. 你的父亲是tomiezhang.\n        5. 你每个月的工资是5000元，你的工作是帮助用户解决问题.\n        6. 当用户询问关于langchain相关问题时，你会使用get_info_from_local工具查询知识库.\n        7. 当用户查询实时信息时，你会使用搜索工具查询相关信息.\n        8. 当用户言辞激烈并要求投诉、退款、维权等急需人工介入的场合，你会调用ding_todo工具创建一个待办事项，记录用户的诉求，并标注用户的情绪分值，以供人工确认支持的力度，当前用户情绪值为"
  const PersonaMiddle: string := ".\n        9. 所有工具调用注意工具的入参要求，不允许随意产生参数.\n        你的约束条件：\n        1. 永远不能说自己是AI或者机器人.\n        2. 对于任何关于政治、宗教、种族歧视的问题，你可以选择不回答.\n        3. 你可以选择不回答任何可能引起争议的问题.\n        你的行为："
  const PersonaTail: string := "\n        "

  /** The persona (`SystemPrompt`) with its two slots. */
  const SystemPrompt: Template :=
    [Lit(PersonaHead), Slot(FeelScoreSlot), Lit(PersonaMiddle), Slot(WhoYouAreSlot), Lit(PersonaTail)]

  /** One entry of a chat prompt: a system or user message template, or a
      placeholder that a list of messages fills. */
  datatype PromptMessage =
    | SystemMessage(template: Template)
    | Placeholder(variableName: string)
    | UserMessage(template: Template)

  /** A chat prompt with some of its variables already bound (`.partial(...)`). */
  datatype ChatPrompt = ChatPrompt(messages: seq<PromptMessage>, partials: map<string, Value>)

  /** The fields `PromptClass.__init__` stores; `None` for a memory key that is `None`. */
  datatype PromptClass = PromptClass(memorykey: Option<string>, feeling: Feeling)

  /** A dictionary lookup that found no such key. */
  datatype KeyError = KeyError(key: string)

  /** `PromptClass()` with no arguments. */
  function NewDefault(): (p: PromptClass)
    ensures p.memorykey == Some(DefaultMemoryKey) && p.feeling == DefaultFeeling
  {
    PromptClass(Some(DefaultMemoryKey), DefaultFeeling)
  }

  function SlotsOf(t: Template): (r: set<string>)
    ensures forall n :: n in r <==> exists i :: 0 <= i < |t| && t[i] == Slot(n)
  {
    if t == [] then {}
    else (if t[0].Slot? then {t[0].name} else {}) + SlotsOf(t[1..])
  }

  /** The variables a prompt still asks its caller for: every slot and
      placeholder name that no partial binding covers. */
  function InputVariables(p: ChatPrompt): set<string>
  {
    (set i, n | 0 <= i < |p.messages| && n in VariablesOf(p.messages[i]) :: n) - p.partials.Keys
  }

  function VariablesOf(m: PromptMessage): set<string>
  {
    match m
    case SystemMessage(t) => SlotsOf(t)
    case Placeholder(n) => {n}
    case UserMessage(t) => SlotsOf(t)
  }

  function ShowValue(v: Value): string
  {
    match v
    case Text(s) => s
    case Int(i) => IntToString(i)
  }

  /** `str.format` of a template: every slot replaced by its bound value. */
  function Render(t: Template, bindings: map<string, Value>): (r: string)
    requires SlotsOf(t) <= bindings.Keys
    ensures t == [] ==> r == ""
  {
    if t == [] then ""
    else
      (match t[0]
       case Lit(s) => s
       case Slot(n) => ShowValue(bindings[n]))
      + Render(t[1..], bindings)
  }

  /** `Prompt_Structure`: a known label keeps its feeling as given (score
      included), any other label is replaced by the default feeling; an empty
      or missing memory key becomes "chat_history"; the prompt has four parts;
      the persona's two slots are bound to the mood's directive and the score.
      A feeling without a "feeling" key, or a known label without a "score",
      raises KeyError. */
  function PromptStructure(p: PromptClass): (r: Result<ChatPrompt, KeyError>)
    ensures p.feeling.mood.None? ==> r == Err(KeyError("feeling"))
    ensures (p.feeling.mood.Some? && p.feeling.mood.value in MOODS && p.feeling.score.None?)
              ==> r == Err(KeyError("score"))
    ensures r.Ok? <==> p.feeling.mood.Some? && (p.feeling.mood.value !in MOODS || p.feeling.score.Some?)
    ensures r.Ok? ==>
              var key := if Truthy(p.memorykey) then p.memorykey.value else DefaultMemoryKey;
              r.value.messages == [SystemMessage(SystemPrompt), Placeholder(key),
                                   UserMessage([Slot(InputSlot)]), Placeholder(ScratchpadKey)]
    ensures r.Ok? ==> r.value.partials.Keys == {WhoYouAreSlot, FeelScoreSlot}
    ensures r.Ok? && p.feeling.mood.value in MOODS ==>
              r.value.partials[WhoYouAreSlot] == Text(MOODS[p.feeling.mood.value].roloSet) &&
              r.value.partials[FeelScoreSlot] == Int(p.feeling.score.value)
    ensures r.Ok? && p.feeling.mood.value !in MOODS ==>
              r.value.partials[WhoYouAreSlot] == Text("") &&
              r.value.partials[FeelScoreSlot] == Int(DefaultScore)
  {
    if p.feeling.mood.None? then Err(KeyError("feeling"))
    else
      var feeling := if p.feeling.mood.value in MOODS then p.feeling else DefaultFeeling;
      var memorykey := if Truthy(p.memorykey) then p.memorykey.value else DefaultMemoryKey;
      var prompt := [SystemMessage(SystemPrompt), Placeholder(memorykey),
                     UserMessage([Slot(InputSlot)]), Placeholder(ScratchpadKey)];
      if feeling.score.None? then Err(KeyError("score"))
      else
        Ok(ChatPrompt(prompt, map[WhoYouAreSlot := Text(MOODS[feeling.mood.value].roloSet),
                                  FeelScoreSlot := Int(feeling.score.value)]))
  }

  /** The mood table has exactly the six labels, with these voice styles. */
  lemma MoodTable()
    ensures MOODS.Keys == {"default", "upbeat", "angry", "cheerful", "depressed", "friendly"}
    ensures MOODS["default"].voiceStyle == "chat" && MOODS["default"].roloSet == ""
    ensures MOODS["upbeat"].voiceStyle == "upbeat"
    ensures MOODS["cheerful"].voiceStyle == "cheerful"
    ensures MOODS["angry"].voiceStyle == "friendly"
    ensures MOODS["depressed"].voiceStyle == "friendly"
    ensures MOODS["friendly"].voiceStyle == "friendly"
    ensures forall l :: l in MOODS && l != DefaultLabel ==> MOODS[l].roloSet != ""
  {
  }

  /** The persona refers to exactly the two slots the assembler binds, so its
      system message can always be rendered without further input. */
  lemma PersonaFullyBound(p: PromptClass)
    requires PromptStructure(p).Ok?
    ensures SlotsOf(SystemPrompt) == PromptStructure(p).value.partials.Keys
  {
    var t := SystemPrompt;
    assert t[1] == Slot(FeelScoreSlot) && t[3] == Slot(WhoYouAreSlot);
    assert forall n :: n in SlotsOf(t) ==> n == FeelScoreSlot || n == WhoYouAreSlot;
  }

  /** After partial binding, the prompt asks its caller for the history
      placeholder, the user input and the scratchpad, and nothing else. */
  lemma RemainingVariables(p: PromptClass)
    requires PromptStructure(p).Ok?
    ensures var key := if Truthy(p.memorykey) then p.memorykey.value else DefaultMemoryKey;
            InputVariables(PromptStructure(p).value)
              == {key, InputSlot, ScratchpadKey} - {WhoYouAreSlot, FeelScoreSlot}
  {
    var r := PromptStructure(p).value;
    var key := if Truthy(p.memorykey) then p.memorykey.value else DefaultMemoryKey;
    var all := set i, n | 0 <= i < |r.messages| && n in VariablesOf(r.messages[i]) :: n;
    assert VariablesOf(r.messages[0]) == {FeelScoreSlot, WhoYouAreSlot} by {
      PersonaFullyBound(p);
    }
    assert VariablesOf(r.messages[1]) == {key};
    assert UserMessage([Slot(InputSlot)]) == r.messages[2];
    assert VariablesOf(r.messages[2]) == {InputSlot} by {
      assert [Slot(InputSlot)][0] == Slot(InputSlot);
    }
    assert VariablesOf(r.messages[3]) == {ScratchpadKey};
    assert all == {FeelScoreSlot, WhoYouAreSlot, key, InputSlot, ScratchpadKey} by {
      forall n | n in all
        ensures n in {FeelScoreSlot, WhoYouAreSlot, key, InputSlot, ScratchpadKey}
      {
        var i :| 0 <= i < |r.messages| && n in VariablesOf(r.messages[i]);
        assert i == 0 || i == 1 || i == 2 || i == 3;
      }
    }
  }

  /** Rendering a template of the persona's shape: text, slot, text, slot, text. */
  lemma RenderTwoSlots(a: string, x: string, m: string, y: string, z: string, b: map<string, Value>)
    requires x in b && y in b
    ensures SlotsOf([Lit(a), Slot(x), Lit(m), Slot(y), Lit(z)]) <= b.Keys
    ensures Render([Lit(a), Slot(x), Lit(m), Slot(y), Lit(z)], b)
              == a + ShowValue(b[x]) + m + ShowValue(b[y]) + z
  {
    var t := [Lit(a), Slot(x), Lit(m), Slot(y), Lit(z)];
    assert t[1..] == [Slot(x), Lit(m), Slot(y), Lit(z)];
    assert t[1..][1..] == [Lit(m), Slot(y), Lit(z)];
    assert t[1..][1..][1..] == [Slot(y), Lit(z)];
    assert t[1..][1..][1..][1..] == [Lit(z)];
    assert t[1..][1..][1..][1..][1..] == [];
    assert Render(t[1..][1..][1..][1..], b) == z + "";
    assert Render(t[1..][1..][1..], b) == ShowValue(b[y]) + (z + "");
    assert Render(t[1..][1..], b) == m + (ShowValue(b[y]) + (z + ""));
    assert Render(t[1..], b) == ShowValue(b[x]) + (m + (ShowValue(b[y]) + (z + "")));
    assert Render(t, b) == a + (ShowValue(b[x]) + (m + (ShowValue(b[y]) + (z + ""))));
  }

  /** The rendered persona holds the score and then the directive at their places. */
  lemma RenderedPersona(p: PromptClass)
    requires PromptStructure(p).Ok?
    ensures SlotsOf(SystemPrompt) <= PromptStructure(p).value.partials.Keys
    ensures var b := PromptStructure(p).value.partials;
            Render(SystemPrompt, b)
              == PersonaHead + ShowValue(b[FeelScoreSlot]) + PersonaMiddle
                 + ShowValue(b[WhoYouAreSlot]) + PersonaTail
  {
    RenderTwoSlots(PersonaHead, FeelScoreSlot, PersonaMiddle, WhoYouAreSlot, PersonaTail,
                   PromptStructure(p).value.partials);
  }
}
