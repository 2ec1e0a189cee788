/**
 * Prompt construction for the assistant: classify the window of event
 * texts by the tags the handlers put in front of them, pick the matching
 * guidance and reply-length requirement, and assemble the prompt.
 */
module Prompt {
  import opened Text

  datatype EventType =
    | EventDanmaku | EventGuard | EventGift | EventSuperChat | EventLike
    | EventRoomEnter | EventLiveStart | EventLiveEnd | EventMixed
  {
    /** Position in `analyzeEventType`'s priority order. */
    function Rank(): nat {
      match this
      case EventDanmaku => 0
      case EventGuard => 1
      case EventGift => 2
      case EventSuperChat => 3
      case EventLike => 4
      case EventRoomEnter => 5
      case EventLiveStart => 6
      case EventLiveEnd => 7
      case EventMixed => 8
    }
  }

  /** The tag a handler writes for each event kind; the mixed kind has none. */
  function Tag(t: EventType): string {
    match t
    case EventDanmaku => "【弹幕消息】"
    case EventGuard => "【大航海】"
    case EventGift => "【礼物】"
    case EventSuperChat => "【付费留言】"
    case EventLike => "【点赞】"
    case EventRoomEnter => "【进入房间】"
    case EventLiveStart => "【直播开始】"
    case EventLiveEnd => "【直播结束】"
    case EventMixed => ""
  }

  /** `analyzeEventType` on already-joined content. */
  function ClassifyContent(c: string): EventType {
    if Contains(c, Tag(EventDanmaku)) then EventDanmaku
    else if Contains(c, Tag(EventGuard)) then EventGuard
    else if Contains(c, Tag(EventGift)) then EventGift
    else if Contains(c, Tag(EventSuperChat)) then EventSuperChat
    else if Contains(c, Tag(EventLike)) then EventLike
    else if Contains(c, Tag(EventRoomEnter)) then EventRoomEnter
    else if Contains(c, Tag(EventLiveStart)) then EventLiveStart
    else if Contains(c, Tag(EventLiveEnd)) then EventLiveEnd
    else EventMixed
  }

  /**
   * `analyzeEventType`: the messages joined with a space are classified by
   * the first tag, in fixed priority, that occurs in them; no tag at all
   * gives the mixed kind.
   */
  function AnalyzeEventType(msgs: seq<string>): (r: EventType)
    ensures r != EventMixed ==> Contains(Join(msgs, " "), Tag(r))
    ensures forall t: EventType :: t != EventMixed && t.Rank() < r.Rank() ==> !Contains(Join(msgs, " "), Tag(t))
  {
    ClassifyContent(Join(msgs, " "))
  }

  /** A window holding one text with a tag and nothing of higher priority is classified by that tag. */
  lemma AnalyzeEventTypeSingle(msg: string, t: EventType)
    requires t != EventMixed && Contains(msg, Tag(t))
    requires forall u: EventType :: u != EventMixed && u.Rank() < t.Rank() ==> !Contains(msg, Tag(u))
    ensures AnalyzeEventType([msg]) == t
  {
    assert Join([msg], " ") == msg;
  }

  /** `analyzeGuardLevel`: 总督 before 提督 before 舰长, else the generic name. */
  function AnalyzeGuardLevel(c: string): (r: string)
    ensures r == "总督" <==> Contains(c, "总督")
    ensures r == "提督" <==> !Contains(c, "总督") && Contains(c, "提督")
    ensures r == "舰长" <==> !Contains(c, "总督") && !Contains(c, "提督") && Contains(c, "舰长")
    ensures r == "大航海" <==> !Contains(c, "总督") && !Contains(c, "提督") && !Contains(c, "舰长")
  {
    if Contains(c, "总督") then "总督"
    else if Contains(c, "提督") then "提督"
    else if Contains(c, "舰长") then "舰长"
    else "大航海"
  }

  const ExpensiveKeywords: seq<string> := [
    "火箭", "超级火箭", "飞机", "游艇", "跑车", "城堡",
    "嘉年华", "摩天大楼", "小电视飞船", "C位光环",
    "节奏风暴", "告白气球"
  ]

  /**
   * `analyzeGiftValue`: "高价值" exactly when one of the twelve keywords
   * occurs; a value marker alone still gives "普通".
   */
  function AnalyzeGiftValue(c: string): (r: string)
    ensures r == "高价值" <==> exists k :: 0 <= k < |ExpensiveKeywords| && Contains(c, ExpensiveKeywords[k])
    ensures r != "高价值" ==> r == "普通"
  {
    if ContainsAny(c, ExpensiveKeywords) then "高价值"
    else if Contains(c, "价值：") || Contains(c, "总价值：") then "普通"
    else "普通"
  }

  /** The guidance `getEventSpecificPrompt` selects; `GuidanceText` is its text. */
  datatype Guidance =
    | DanmakuGuide
    | GovernorGuide | AdmiralGuide | CaptainGuide | GuardGuide
    | HighValueGiftGuide | GiftGuide
    | SuperChatGuide | LikeGuide | RoomEnterGuide | LiveStartGuide | LiveEndGuide
    | MixedGuide

  /** `getEventSpecificPrompt`: guard guidance by the guard level, gift guidance by the value. */
  function EventSpecificGuidance(t: EventType, content: string): (g: Guidance)
    ensures t == EventGuard ==> g == (match AnalyzeGuardLevel(content)
                                      case "总督" => GovernorGuide
                                      case "提督" => AdmiralGuide
                                      case "舰长" => CaptainGuide
                                      case _ => GuardGuide)
    ensures t == EventGift ==> (g == HighValueGiftGuide <==> AnalyzeGiftValue(content) == "高价值")
    ensures t == EventGift ==> g in {HighValueGiftGuide, GiftGuide}
    ensures t == EventMixed ==> g == MixedGuide
  {
    match t
    case EventDanmaku => DanmakuGuide
    case EventGuard =>
      var level := AnalyzeGuardLevel(content);
      if level == "总督" then GovernorGuide
      else if level == "提督" then AdmiralGuide
      else if level == "舰长" then CaptainGuide
      else GuardGuide
    case EventGift => if AnalyzeGiftValue(content) == "高价值" then HighValueGiftGuide else GiftGuide
    case EventSuperChat => SuperChatGuide
    case EventLike => LikeGuide
    case EventRoomEnter => RoomEnterGuide
    case EventLiveStart => LiveStartGuide
    case EventLiveEnd => LiveEndGuide
    case EventMixed => MixedGuide
  }

  /** The reply-length requirement of `GeneratePrompt`. */
  function LengthRequirement(t: EventType, content: string): (r: string)
    ensures r == "30-50字" <==> t == EventDanmaku
    ensures r == "25-40字" <==> t == EventGuard || (t == EventGift && AnalyzeGiftValue(content) == "高价值")
    ensures r == "20-35字" <==> !(t == EventDanmaku || t == EventGuard || (t == EventGift && AnalyzeGiftValue(content) == "高价值"))
  {
    if t == EventDanmaku then "30-50字"
    else if t == EventGuard || (t == EventGift && AnalyzeGiftValue(content) == "高价值") then "25-40字"
    else "20-35字"
  }

  /** The guidance texts of `getEventSpecificPrompt`, as the pieces around their `%s` verbs; every verb takes the assistant's name. */
  const DanmakuGuideTemplate: seq<string> := [
    "针对弹幕消息，作为",
    "你要直接与观众互动：\n- 先播报弹幕内容，例如：\"xxx说xxx，有意思！\"\n- 然后作为",
    "直接回应，营造热闹氛围\n- 播报时要提到用户名，让大家都知道是谁在互动\n- 整体控制在30-50字，语气活跃热情，营造直播间氛围\n- 注意用户等级：如果是舰长/提督/总督，要表现出兴奋和尊重\n- 点赞和送礼要热情播报，带动直播间气氛\n- 示例：\"小明说今天天气不错，",
    "也觉得超棒的！\" \"舰长大大问了个好问题，",
    "来帮忙解答！\""
  ]

  const GovernorGuideTemplate: seq<string> := [
    "针对总督购买，作为",
    "你要表现出极度兴奋：\n- 最高等级支持！",
    "都震撼了！\n- 表达无法言喻的激动和崇拜\n- 强调总督的至高地位，",
    "也要膜拜\n- 语气要充满崇敬和狂欢\n- 示例：\"总督大人降临！",
    "跪了！\" \"总督威武！直播间炸了！\" \"总督大大！",
    "激动得说不出话！\""
  ]

  const AdmiralGuideTemplate: seq<string> := [
    "针对提督购买，作为",
    "你要超级激动：\n- 提督大人！",
    "都惊呆了！\n- 表达极度震撼和兴奋\n- 强调提督的珍贵，",
    "也要表示敬意\n- 语气要充满激动和崇拜\n- 示例：\"提督大人！",
    "激动坏了！\" \"提督降临！直播间沸腾了！\" \"提督支持！",
    "感动哭了！\""
  ]

  const CaptainGuideTemplate: seq<string> := [
    "针对舰长购买，作为",
    "你要热情欢迎：\n- 新舰长！",
    "超开心！\n- 热烈欢迎上船，营造欢乐氛围\n- 鼓励更多人加入，",
    "带头欢呼\n- 语气要热情洋溢\n- 示例：\"舰长上船啦！",
    "欢迎你！\" \"新舰长加入！",
    "好兴奋！\" \"舰长威武！",
    "为你打call！\""
  ]

  const GuardGuideTemplate: seq<string> := [
    "针对大航海购买，作为",
    "你要热情庆祝：\n- 大航海支持！",
    "超感动！\n- 表达激动和感激，营造庆祝氛围\n- 欢迎加入舰队，",
    "带头欢呼\n- 示例：\"大航海支持！",
    "开心死了！\" \"新船员来啦！",
    "欢迎你！\""
  ]

  const HighValueGiftGuideTemplate: seq<string> := [
    "针对高价值礼物，作为",
    "你要超级兴奋：\n- 哇！",
    "都被这礼物震撼到了！\n- 表达对观众慷慨的惊叹和崇拜\n- 强调礼物的珍贵，",
    "也要膜拜\n- 语气要充满惊喜和狂欢\n- 示例：\"天哪！这礼物太豪了！",
    "跪了！\" \"老板太壕了！",
    "眼睛都亮了！\" \"这礼物绝了！",
    "激动坏了！\""
  ]

  const GiftGuideTemplate: seq<string> := [
    "针对礼物打赏，作为",
    "你要开心感谢：\n- ",
    "收到礼物啦！超开心！\n- 夸奖观众的慷慨，营造温馨氛围\n- 语气要温暖活泼\n- 示例：\"谢谢老板的礼物！",
    "好开心！\" \"感谢支持！",
    "比心~\" \"礼物收到啦！",
    "爱你们！\""
  ]

  const SuperChatGuideTemplate: seq<string> := [
    "针对付费留言，作为",
    "你要特别兴奋：\n- 付费留言！",
    "激动了！\n- 可以简单回应留言内容，表现出",
    "的活跃\n- 表达重视和感激，营造热烈氛围\n- 根据金额适当调整兴奋程度\n- 示例：\"付费留言！",
    "感动哭了！\" \"老板说得太对了！",
    "赞同！\" \"感谢打赏！",
    "开心坏了！\""
  ]

  const LikeGuideTemplate: seq<string> := [
    "针对点赞互动，作为",
    "你要开心回应：\n- ",
    "收到点赞啦！超开心！\n- 鼓励继续互动，营造活跃氛围\n- 语气要轻松愉快\n- 示例：\"点赞收到！",
    "爱你们！\" \"感受到大家的热情！",
    "也很兴奋！\" \"点赞满满！",
    "开心死了！\""
  ]

  const RoomEnterGuideTemplate: seq<string> := [
    "针对进入房间，作为",
    "你要热情欢迎：\n- ",
    "欢迎新朋友！\n- 营造友好热闹氛围\n- 简短而热情\n- 示例：\"新朋友来啦！",
    "欢迎你！\" \"又有小伙伴加入！",
    "好开心！\" \"欢迎欢迎！",
    "在这里等你们！\""
  ]

  const LiveStartGuideTemplate: seq<string> := [
    "针对直播开始，作为",
    "你要充满活力：\n- ",
    "宣布开播啦！\n- 欢迎观众，营造开场氛围\n- 语气要充满活力和兴奋\n- 示例：\"开播啦！",
    "超兴奋！\" \"新的直播开始！",
    "陪大家一起嗨！\" \"直播时间到！",
    "准备好了！\""
  ]

  const LiveEndGuideTemplate: seq<string> := [
    "针对直播结束，作为",
    "你要温馨告别：\n- ",
    "宣布直播结束\n- 感谢观众陪伴，表达不舍\n- 期待下次见面\n- 示例：\"直播结束啦！",
    "舍不得大家！\" \"今天就到这里！",
    "明天继续陪你们！\" \"感谢陪伴！",
    "爱你们！\""
  ]

  const MixedGuideTemplate: seq<string> := [
    "针对混合事件，作为",
    "你要灵活应对：\n- ",
    "综合考虑所有事件\n- 优先回应最重要的事件\n- 保持活跃和自然的",
    "风格"
  ]

  /** The template of each guidance. */
  function GuidanceTemplate(g: Guidance): (t: seq<string>)
    ensures |t| >= 2
  {
    match g
    case DanmakuGuide => DanmakuGuideTemplate
    case GovernorGuide => GovernorGuideTemplate
    case AdmiralGuide => AdmiralGuideTemplate
    case CaptainGuide => CaptainGuideTemplate
    case GuardGuide => GuardGuideTemplate
    case HighValueGiftGuide => HighValueGiftGuideTemplate
    case GiftGuide => GiftGuideTemplate
    case SuperChatGuide => SuperChatGuideTemplate
    case LikeGuide => LikeGuideTemplate
    case RoomEnterGuide => RoomEnterGuideTemplate
    case LiveStartGuide => LiveStartGuideTemplate
    case LiveEndGuide => LiveEndGuideTemplate
    case MixedGuide => MixedGuideTemplate
  }

  /** `getEventSpecificPrompt`'s text for `g`: its template with the assistant's name in every verb. */
  function GuidanceText(g: Guidance, assistantName: string): (r: string)
    ensures HasPrefix(r, GuidanceTemplate(g)[0])
    ensures Contains(r, assistantName)
  {
    var t := GuidanceTemplate(g);
    var names := seq(|t| - 1, _ => assistantName);
    FormatContains(t, names, 0);
    Format(t, names)
  }

  /**
   * The prompt template of `GeneratePrompt`, as the pieces around its twelve
   * `%s` verbs.
   */
  const PromptTemplate: seq<string> := [
    "你是B站直播间的助播",
    "，作为独立的个体参与直播间互动，帮助提升直播间氛围。\n\n【直播环境】",
    "\n\n【",
    "的身份】\n- 你是独立的助播",
    "，不是代表主播，也不是为主播准备内容\n- 你直接参与直播间互动，用活跃热情的语气营造氛围\n- 你的目标是让直播间更加热闹有趣，增强观众参与感\n- 你要用自己的名字",
    "进行自我介绍和互动\n\n【回应要求】\n- 控制在",
    "以内，语气活跃热情有趣\n- 作为",
    "直接与观众互动，营造直播间氛围\n- 避免重复事件内容，给出自然有趣的回应\n- 适当使用网络流行语，保持年轻化语气\n- 也要结合之前的几次弹幕信息，来合理组织这条消息的回复\n\n【价值层级感谢规则】\n总督>提督>舰长（按价值匹配感谢程度），高价值礼物表达震撼感激，普通礼物温暖感谢\n\n【事件指导】",
    "\n\n【事件内容】",
    "\n\n【之前的事件信息】",
    "\n\n作为",
    "直接回应（",
    "）："
  ]

  /**
   * `GeneratePrompt`: the prompt template filled, in its verbs' order, with
   * the assistant's name, the room description, the reply-length
   * requirement, the guidance for the window's event type, the messages
   * joined by spaces and the cached history joined by newlines.
   */
  function GeneratePrompt(msgs: seq<string>, cache: seq<string>, assistantName: string, roomDescription: string): (p: string)
    ensures HasPrefix(p, "你是B站直播间的助播" + assistantName)
    ensures Contains(p, roomDescription)
    ensures Contains(p, Join(msgs, " ")) && Contains(p, Join(cache, "\n"))
    ensures Contains(p, GuidanceText(EventSpecificGuidance(AnalyzeEventType(msgs), Join(msgs, " ")), assistantName))
    ensures HasSuffix(p, LengthRequirement(AnalyzeEventType(msgs), Join(msgs, " ")) + "）：")
  {
    var content := Join(msgs, " ");
    var t := AnalyzeEventType(msgs);
    var length := LengthRequirement(t, content);
    var args := [assistantName, roomDescription, assistantName, assistantName, assistantName, length,
                 assistantName, GuidanceText(EventSpecificGuidance(t, content), assistantName),
                 content, Join(cache, "\n"), assistantName, length];
    FormatContains(PromptTemplate, args, 1);
    FormatContains(PromptTemplate, args, 7);
    FormatContains(PromptTemplate, args, 8);
    FormatContains(PromptTemplate, args, 9);
    FormatEnds(PromptTemplate, args);
    var p := Format(PromptTemplate, args);
    assert p == PromptTemplate[0] + assistantName + Format(PromptTemplate[1..], args[1..]);
    assert p[..|PromptTemplate[0] + assistantName|] == PromptTemplate[0] + assistantName;
    p
  }

  /** A window containing any danmaku asks for the longest reply and the danmaku guidance, whatever else it holds. */
  lemma DanmakuWins(msgs: seq<string>, cache: seq<string>, name: string, room: string)
    requires Contains(Join(msgs, " "), Tag(EventDanmaku))
    ensures HasSuffix(GeneratePrompt(msgs, cache, name, room), "30-50字" + "）：")
    ensures Contains(GeneratePrompt(msgs, cache, name, room), GuidanceText(DanmakuGuide, name))
  {
  }
}
