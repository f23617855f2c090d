/**
 * The health-assistant chat: a keyword cascade that picks one of five canned
 * replies, and the message list the chat panel appends to.
 */
module HealthAssistant {
  import opened Text

  const SkinKeywords := ["皮肤", "痘痘", "痤疮", "诊断", "黑色素", "色斑"]
  const DietKeywords := ["饮食", "营养"]
  const ExerciseKeywords := ["运动", "锻炼"]
  const SleepKeywords := ["睡眠", "失眠"]

  /** The five canned answers. */
  datatype Reply = SkinAdvice | DietAdvice | ExerciseAdvice | SleepAdvice | GeneralAdvice

  /** The text shown for each canned answer. */
  function ReplyText(r: Reply): string {
    match r
    case SkinAdvice => "病变特征：您左前臂外侧的色素斑块近两个月快速增大、颜色不均、边缘不规则，并伴有脱屑、溃破及少量出血，符合黑色素瘤（恶性皮肤癌）常见的\"ABCD\"特征（Asymmetry 不对称、Border irregularity 边缘不规则、Color variation 色彩多样、Diameter 直径增大）。\n\n疼痛与渗出：近期出现刺痛、灼热感及反复渗出，提示病灶可能已侵犯真皮层或出现炎症、溃疡。\n\n淋巴结肿大：左腋下触及压痛性扁平淋巴结，需警惕淋巴结转移可能性。\n\n家族史与紫外线暴露：母亲既往黑色素瘤病史以及您多年来户外日晒未作充分防护，都是重要的高危因素。\n\n建议的检查与评估：\n皮肤镜（Dermoscopy）检查 - 无创观察病灶内的色素网络、点状出血、蓝白结构等特征，进一步判断恶性可能性。\n\n病理活检（活检或切除术） - 建议对病灶进行全切边缘带少量正常皮肤的外科切除或切片活检，以确定组织学类型和浸润深度（Breslow 厚度）。\n\n--------------------\n上述内容由皮肤健康AI生成，具体举措请联系相关医生"
    case DietAdvice => "健康饮食建议：\n\n1. 多吃新鲜蔬菜和水果\n2. 选择全谷物食品\n3. 适量摄入优质蛋白质\n4. 限制加工食品和高糖食品\n5. 每天饮用足够的水\n\n均衡的饮食对皮肤健康也很重要哦！"
    case ExerciseAdvice => "适度运动对健康很重要：\n\n1. 每周至少150分钟中等强度运动\n2. 可以选择散步、游泳、瑜伽等\n3. 运动后及时清洁皮肤\n4. 选择透气的运动服装\n\n运动能促进血液循环，对皮肤健康也有益处！"
    case SleepAdvice => "良好的睡眠对健康至关重要：\n\n1. 每晚保证7-9小时睡眠\n2. 建立规律的作息时间\n3. 睡前避免使用电子设备\n4. 保持卧室环境舒适\n\n充足的睡眠有助于皮肤修复和再生。"
    case GeneralAdvice => "感谢您的咨询。作为AI健康助手，我建议您：\n\n1. 保持健康的生活方式\n2. 定期进行健康检查\n3. 如有具体症状，及时咨询专业医生\n4. 可以使用我们的AI诊断功能进行初步评估\n\n还有其他问题吗？我很乐意为您提供更多建议。"
  }

  /** The `||` chain of `includes` tests. */
  predicate MentionsAny(input: string, keywords: seq<string>) {
    exists i :: 0 <= i < |keywords| && Contains(input, keywords[i])
  }

  /**
   * `generateAIResponse`: the first topic whose keywords occur wins.  The
   * function picks the answer; its text is `ReplyText` of the result.
   */
  function GenerateResponse(userInput: string): Reply {
    var input := Lower(userInput);
    if MentionsAny(input, SkinKeywords) then SkinAdvice
    else if MentionsAny(input, DietKeywords) then DietAdvice
    else if MentionsAny(input, ExerciseKeywords) then ExerciseAdvice
    else if MentionsAny(input, SleepKeywords) then SleepAdvice
    else GeneralAdvice
  }

  // ---------------------------------------------------------------------
  // The cascade as data: an ordered rule table with a mandatory default
  // ---------------------------------------------------------------------

  datatype Rule = Rule(keywords: seq<string>, reply: Reply)

  const Rules := [Rule(SkinKeywords, SkinAdvice), Rule(DietKeywords, DietAdvice),
                  Rule(ExerciseKeywords, ExerciseAdvice), Rule(SleepKeywords, SleepAdvice)]

  /** The reply of the first rule that matches, or the default. */
  function FirstMatch(rules: seq<Rule>, input: string, default: Reply): (r: Reply)
    ensures r == default || exists i :: 0 <= i < |rules| && r == rules[i].reply
    ensures forall i :: 0 <= i < |rules| && MentionsAny(input, rules[i].keywords) ==>
              exists j :: 0 <= j <= i && r == rules[j].reply && MentionsAny(input, rules[j].keywords)
    ensures (forall i :: 0 <= i < |rules| ==> !MentionsAny(input, rules[i].keywords)) ==> r == default
  {
    if rules == [] then default
    else if MentionsAny(input, rules[0].keywords) then rules[0].reply
    else
      var r := FirstMatch(rules[1..], input, default);
      assert forall i :: 1 <= i < |rules| ==> rules[i] == rules[1..][i - 1];
      r
  }

  /** A table of four rules behaves as the four-way `if` cascade it abbreviates. */
  lemma FourRuleCascade(input: string, k1: seq<string>, a: Reply, k2: seq<string>, b: Reply,
                        k3: seq<string>, c: Reply, k4: seq<string>, d: Reply, e: Reply)
    ensures FirstMatch([Rule(k1, a), Rule(k2, b), Rule(k3, c), Rule(k4, d)], input, e) ==
      if MentionsAny(input, k1) then a
      else if MentionsAny(input, k2) then b
      else if MentionsAny(input, k3) then c
      else if MentionsAny(input, k4) then d
      else e
  {
    FirstMatchStep(Rule(k4, d), [], input, e);
    FirstMatchStep(Rule(k3, c), [Rule(k4, d)], input, e);
    FirstMatchStep(Rule(k2, b), [Rule(k3, c), Rule(k4, d)], input, e);
    FirstMatchStep(Rule(k1, a), [Rule(k2, b), Rule(k3, c), Rule(k4, d)], input, e);
  }

  /** One unfolding of `FirstMatch`: the head rule is tried before the rest. */
  lemma FirstMatchStep(rule: Rule, rest: seq<Rule>, input: string, e: Reply)
    ensures FirstMatch([rule] + rest, input, e) ==
      if MentionsAny(input, rule.keywords) then rule.reply else FirstMatch(rest, input, e)
  {
    assert ([rule] + rest)[1..] == rest;
  }

  /** The hand-written cascade is the rule table applied to the lower-cased input. */
  lemma GenerateResponseIsFirstMatch(userInput: string)
    ensures GenerateResponse(userInput) == FirstMatch(Rules, Lower(userInput), GeneralAdvice)
  {
    FourRuleCascade(Lower(userInput), SkinKeywords, SkinAdvice, DietKeywords, DietAdvice,
                    ExerciseKeywords, ExerciseAdvice, SleepKeywords, SleepAdvice, GeneralAdvice);
  }

  /** None of the characters of `k` is an ASCII capital, so lower-casing leaves it alone. */
  predicate NoCapitals(k: string) {
    forall i :: 0 <= i < |k| ==> !('A' <= k[i] <= 'Z')
  }

  /** Lower-casing the input keeps every occurrence of a keyword without capitals. */
  lemma LowerKeepsOccurrence(s: string, k: string, at: nat)
    requires NoCapitals(k) && OccursAt(s, k, at)
    ensures OccursAt(Lower(s), k, at)
  {
    var l := Lower(s);
    forall i | 0 <= i < |k| ensures l[at..at + |k|][i] == k[i] {
      assert s[at..at + |k|][i] == k[i];
    }
  }

  lemma LowerKeepsKeyword(s: string, k: string)
    requires NoCapitals(k) && Contains(s, k)
    ensures Contains(Lower(s), k)
  {
    var at := IndexOfFrom(s, k, 0).value;
    LowerKeepsOccurrence(s, k, at);
    ContainsIff(Lower(s), k);
  }

  /** A message that mentions a skin keyword gets the skin reply, whatever else it mentions. */
  lemma SkinTopicWins(userInput: string, i: nat)
    requires i < |SkinKeywords| && Contains(userInput, SkinKeywords[i])
    ensures GenerateResponse(userInput) == SkinAdvice
  {
    assert NoCapitals(SkinKeywords[i]);
    LowerKeepsKeyword(userInput, SkinKeywords[i]);
  }

  /** A diet keyword decides the reply only when no skin keyword is present. */
  lemma DietTopicAfterSkin(userInput: string, i: nat)
    requires i < |DietKeywords| && Contains(userInput, DietKeywords[i])
    ensures GenerateResponse(userInput) == (if MentionsAny(Lower(userInput), SkinKeywords) then SkinAdvice else DietAdvice)
  {
    assert NoCapitals(DietKeywords[i]);
    LowerKeepsKeyword(userInput, DietKeywords[i]);
  }

  /** Matching ignores ASCII case. */
  lemma ResponseIgnoresCase(userInput: string)
    ensures GenerateResponse(Lower(userInput)) == GenerateResponse(userInput)
  {
    LowerIdempotent(userInput);
  }

  // ---------------------------------------------------------------------
  // The chat panel state
  // ---------------------------------------------------------------------

  datatype Role = User | Assistant

  /**
   * A chat bubble: the opening greeting, a question the user sent, or a
   * canned answer (bubble ids and timestamps are not modelled).
   */
  datatype Message = Greeting | Question(text: string) | Answer(reply: Reply)

  /** Who a bubble is from. */
  function Sender(m: Message): Role {
    if m.Question? then User else Assistant
  }

  /** The text a bubble shows. */
  function Content(m: Message): string {
    match m
    case Greeting => "您好！我是您的AI健康助手。我可以为您提供健康咨询、生活建议和基本的医疗信息。请注意，我的建议仅供参考，不能替代专业医疗诊断。有什么可以帮助您的吗？"
    case Question(text) => text
    case Answer(r) => ReplyText(r)
  }

  /**
   * The chat panel's state.  `awaiting` holds, in order, the texts whose reply
   * timers have not fired yet: each timer's callback sees the input text of the
   * send that scheduled it.
   */
  class Chat {
    var messages: seq<Message>
    var inputMessage: string
    var isLoading: bool
    var awaiting: seq<string>

    /** The greeting stays the first message, and loading means a reply is pending. */
    ghost predicate Valid()
      reads this
    {
      |messages| >= 1 && messages[0] == Greeting && (isLoading ==> awaiting != [])
    }

    constructor ()
      ensures Valid()
      ensures messages == [Greeting]
      ensures inputMessage == "" && !isLoading && awaiting == []
    {
      messages := [Greeting];
      inputMessage := "";
      isLoading := false;
      awaiting := [];
    }

    /** The input box's `onChange`; the box is disabled while a reply is loading. */
    method Type(text: string)
      requires !isLoading
      modifies this
      ensures inputMessage == text
      ensures messages == old(messages) && isLoading == old(isLoading) && awaiting == old(awaiting)
    {
      inputMessage := text;
    }

    /** The send button is enabled when nothing is loading and the input is not blank. */
    predicate SendEnabled()
      reads this
    {
      !isLoading && !IsBlank(inputMessage)
    }

    /**
     * `handleSendMessage`, reached from the send button or the Enter key.
     * While a reply is loading both the button and the input box are
     * disabled, so nothing happens; a blank input does nothing either.
     * Otherwise the input is appended as a user message, cleared, and a
     * reply is scheduled.
     */
    method Send() returns (sent: bool)
      requires Valid()
      modifies this
      ensures Valid()
      ensures sent <==> old(SendEnabled())
      ensures !sent ==> messages == old(messages) && inputMessage == old(inputMessage) &&
                        isLoading == old(isLoading) && awaiting == old(awaiting)
      ensures sent ==> messages == old(messages) + [Question(old(inputMessage))] &&
                       inputMessage == "" && isLoading && awaiting == old(awaiting) + [old(inputMessage)]
    {
      if isLoading {
        return false;
      }
      TrimEmptyIffBlank(inputMessage);
      if Trim(inputMessage) == "" {
        return false;
      }
      messages := messages + [Question(inputMessage)];
      awaiting := awaiting + [inputMessage];
      inputMessage := "";
      isLoading := true;
      sent := true;
    }

    /** The reply timer fires: the canned reply to the oldest pending text is appended. */
    method DeliverReply()
      requires Valid() && awaiting != []
      modifies this
      ensures Valid()
      ensures messages == old(messages) + [Answer(GenerateResponse(old(awaiting)[0]))]
      ensures awaiting == old(awaiting)[1..] && !isLoading && inputMessage == old(inputMessage)
    {
      messages := messages + [Answer(GenerateResponse(awaiting[0]))];
      awaiting := awaiting[1..];
      isLoading := false;
    }
  }

  /** A send followed by its reply adds exactly the user's text and its canned answer. */
  method SendAndReply(chat: Chat, text: string) returns (sent: bool)
    requires chat.Valid() && chat.awaiting == []
    modifies chat
    ensures chat.Valid()
    ensures sent <==> !IsBlank(text)
    ensures sent ==> chat.messages == old(chat.messages) + [Question(text), Answer(GenerateResponse(text))]
    ensures !sent ==> chat.messages == old(chat.messages)
    ensures !chat.isLoading
  {
    chat.Type(text);
    sent := chat.Send();
    if sent {
      chat.DeliverReply();
    }
  }
}
