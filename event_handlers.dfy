/**
 * The fixed blessings the handlers end their thank-you replies with; the
 * random pick is the parameter `choice`.
 */
module Blessing {
  const Blessings: seq<string> := [
    "祝老板天天开心，笑口常开",
    "老板好运加持，喜上眉梢",
    "老板开心指数爆表，心情超好",
    "老板福运连连，事事顺心",
    "祝老板笑容常在，阳光满满",
    "老板星光加冕，魅力值拉满",
    "祝一切顺利，心想事成",
    "赞赞赞，掌声送给老板",
    "老板今天一定大吉大利",
    "老板快乐环绕，活力满满",
    "老板喜气腾腾，步步高升",
    "老板元气满满，笑容满满"
  ]

  /** `RandomBlessing`: one of the twelve, never empty. */
  function RandomBlessing(choice: nat): (r: string)
    ensures r in Blessings && |r| > 0
  {
    Blessings[choice % |Blessings|]
  }
}

/**
 * The handlers of gifts, guard purchases, likes, paid messages, room
 * entries and the start and end of a broadcast. Each decodes its payload
 * (decoding is an input here) and queues one text: an event description for
 * the LLM to answer when LLM replies are on, a ready-made reply to be read
 * out as it is otherwise. The reading voice is what the user-voice store or
 * the catalogue returned, passed in.
 */
module EventHandlers {
  import opened Wrappers
  import opened Text
  import VoiceConfig
  import opened Events
  import opened Blessing
  import GuardVoice

  /** The queued text's type: answered by the LLM, or read as it is. */
  function Kind(useLLM: bool): (k: TextType)
    ensures k == TextNormal <==> useLLM
    ensures k == TextNoLLMReply <==> !useLLM
  {
    if useLLM then TextNormal else TextNoLLMReply
  }

  /** A handler that queued exactly `text`, of the type `useLLM` asks for, read by `voice`, and did nothing else. */
  predicate Queued(r: Reaction, text: string, useLLM: bool, voice: Option<VoiceConfig.Voice>) {
    r == Done(Handled([], [Entry(text, Kind(useLLM), voice)]))
  }

  /** The blessing of a thank-you reply: the part after `head`, when it is one of the fixed blessings. */
  predicate EndsWithBlessing(text: string, head: string) {
    HasPrefix(text, head) && text[|head|..] in Blessings
  }

  lemma BlessingAfter(head: string, choice: nat)
    ensures EndsWithBlessing(head + RandomBlessing(choice), head)
  {
    assert (head + RandomBlessing(choice))[|head|..] == RandomBlessing(choice);
  }

  // ------------------------------------------------------------------ guard

  /** The length of a guard purchase: "一个月的", "N个月的", "一<unit>的", "N<unit>的", "一个" or "N个". */
  function DurationPrefix(num: int, unit: string): (r: string)
    ensures num == 1 ==> HasPrefix(r, "一")
    ensures num != 1 ==> HasPrefix(r, Itoa(num))
    ensures unit != "" ==> HasSuffix(r, "的")
    ensures unit == "" ==> HasSuffix(r, "个")
  {
    if unit == "月" then
      if num == 1 then "一个月的" else Itoa(num) + "个月的"
    else if unit != "" then
      if num == 1 then "一" + unit + "的" else Itoa(num) + unit + "的"
    else
      if num == 1 then "一个" else Itoa(num) + "个"
  }

  /** Months are counted like objects: the month prefix is the counted prefix followed by "月的". */
  lemma MonthsAreCounted(num: int)
    ensures DurationPrefix(num, "月") == DurationPrefix(num, "") + "月的"
  {
  }

  /** Any other unit is written right after the number, without a measure word. */
  lemma OtherUnitsFollowNumber(num: int, unit: string)
    requires unit != "" && unit != "月"
    ensures DurationPrefix(num, unit) == (if num == 1 then "一" else Itoa(num)) + unit + "的"
  {
  }

  function GuardDescription(g: GuardData): string {
    var name := GuardVoice.GuardLevelName(g.guardLevel);
    if g.guardNum > 1 then
      "【大航海】用户 " + g.uname + " 购买了 " + Itoa(g.guardNum) + g.guardUnit + " " + name + "（总价值：" + Itoa(g.price) + "）"
    else
      "【大航海】用户 " + g.uname + " 购买了 " + name + "（价值：" + Itoa(g.price) + "）"
  }

  function GuardReplyHead(g: GuardData): string {
    "感谢" + g.uname + "给主播赠送了" + DurationPrefix(g.guardNum, g.guardUnit) + GuardVoice.GuardLevelName(g.guardLevel) + "，"
  }

  /**
   * `HandleGuard`: the purchase described for the LLM (with the count and
   * unit only for more than one), or thanked with its length and a
   * blessing; undecodable input is the error.
   */
  function HandleGuard(decoded: Result<GuardData>, useLLM: bool, voice: Option<VoiceConfig.Voice>, choice: nat): (r: Reaction)
    ensures decoded.Err? ==> r == Rejected(decoded.error)
    ensures decoded.Ok? && useLLM ==> Queued(r, GuardDescription(decoded.value), true, voice)
    ensures decoded.Ok? && !useLLM ==>
      r.Done? && r.handled.effects == [] && |r.handled.entries| == 1
      && r.handled.entries[0].kind == TextNoLLMReply && r.handled.entries[0].voice == voice
      && EndsWithBlessing(r.handled.entries[0].text, GuardReplyHead(decoded.value))
  {
    match decoded
    case Err(e) => Rejected(e)
    case Ok(g) =>
      if useLLM then Done(Handled([], [Entry(GuardDescription(g), TextNormal, voice)]))
      else
        BlessingAfter(GuardReplyHead(g), choice);
        Done(Handled([], [Entry(GuardReplyHead(g) + RandomBlessing(choice), TextNoLLMReply, voice)]))
  }

  /** The guard description shows the count and unit exactly for more than one. */
  lemma GuardDescriptionCount(g: GuardData)
    ensures g.guardNum > 1 ==> HasSuffix(GuardDescription(g), "（总价值：" + Itoa(g.price) + "）")
    ensures g.guardNum <= 1 ==> HasSuffix(GuardDescription(g), "（价值：" + Itoa(g.price) + "）")
  {
    var name := GuardVoice.GuardLevelName(g.guardLevel);
    if g.guardNum > 1 {
      var tail := "（总价值：" + Itoa(g.price) + "）";
      var front := "【大航海】用户 " + g.uname + " 购买了 " + Itoa(g.guardNum) + g.guardUnit + " " + name;
      assert GuardDescription(g) == front + tail;
    } else {
      var tail := "（价值：" + Itoa(g.price) + "）";
      var front := "【大航海】用户 " + g.uname + " 购买了 " + name;
      assert GuardDescription(g) == front + tail;
    }
  }

  // ------------------------------------------------------------------- gift

  function GiftDescription(g: GiftData): string {
    if g.giftNum > 1 then
      "【礼物】用户 " + g.uname + " 送出了 " + Itoa(g.giftNum) + "个 " + g.giftName + "（总价值：" + Itoa(g.price) + "）"
    else
      "【礼物】用户 " + g.uname + " 送出了 " + g.giftName + "（价值：" + Itoa(g.price) + "）"
  }

  function GiftReplyHead(g: GiftData): string {
    if g.giftNum > 1 then "感谢" + g.uname + "赠送了 " + Itoa(g.giftNum) + "个 " + g.giftName + "，"
    else "感谢" + g.uname + "赠送了 " + g.giftName + "，"
  }

  /** `HandleGift`: the gift described for the LLM, or thanked with a blessing; the count is shown only for more than one. */
  function HandleGift(decoded: Result<GiftData>, useLLM: bool, voice: Option<VoiceConfig.Voice>, choice: nat): (r: Reaction)
    ensures decoded.Err? ==> r == Rejected(decoded.error)
    ensures decoded.Ok? && useLLM ==> Queued(r, GiftDescription(decoded.value), true, voice)
    ensures decoded.Ok? && !useLLM ==>
      r.Done? && r.handled.effects == [] && |r.handled.entries| == 1
      && r.handled.entries[0].kind == TextNoLLMReply && r.handled.entries[0].voice == voice
      && EndsWithBlessing(r.handled.entries[0].text, GiftReplyHead(decoded.value))
  {
    match decoded
    case Err(e) => Rejected(e)
    case Ok(g) =>
      if useLLM then Done(Handled([], [Entry(GiftDescription(g), TextNormal, voice)]))
      else
        BlessingAfter(GiftReplyHead(g), choice);
        Done(Handled([], [Entry(GiftReplyHead(g) + RandomBlessing(choice), TextNoLLMReply, voice)]))
  }

  /** A single gift's reply never shows a count: it reads "感谢X赠送了 G，". */
  lemma SingleGiftHasNoCount(g: GiftData)
    requires g.giftNum <= 1
    ensures GiftReplyHead(g) == "感谢" + g.uname + "赠送了 " + g.giftName + "，"
    ensures HasSuffix(GiftDescription(g), "（价值：" + Itoa(g.price) + "）")
  {
    var tail := "（价值：" + Itoa(g.price) + "）";
    assert GiftDescription(g) == ("【礼物】用户 " + g.uname + " 送出了 " + g.giftName) + tail;
  }

  // ------------------------------------------------------------------- like

  function LikeDescription(l: LikeData): string {
    "【点赞】用户 " + l.uname + " 为直播间点了 " + Itoa(l.likeCount) + " 个赞"
  }

  function LikeReply(l: LikeData, choice: nat): string {
    if l.likeCount > 5 then "感谢" + l.uname + "的点赞，" + RandomBlessing(choice) else "感谢" + l.uname + "的点赞"
  }

  /** `HandleLike`: the likes described for the LLM, or a thank-you, blessed only for more than five likes. */
  function HandleLike(decoded: Result<LikeData>, useLLM: bool, voice: Option<VoiceConfig.Voice>, choice: nat): (r: Reaction)
    ensures decoded.Err? ==> r == Rejected(decoded.error)
    ensures decoded.Ok? ==> Queued(r, if useLLM then LikeDescription(decoded.value) else LikeReply(decoded.value, choice), useLLM, voice)
  {
    match decoded
    case Err(e) => Rejected(e)
    case Ok(l) => Done(Handled([], [Entry(if useLLM then LikeDescription(l) else LikeReply(l, choice), Kind(useLLM), voice)]))
  }

  /** The plain thank-you is exactly "感谢X的点赞" when there are at most five likes, and is blessed otherwise. */
  lemma LikeBlessedAboveFive(l: LikeData, choice: nat)
    ensures LikeReply(l, choice) == "感谢" + l.uname + "的点赞" <==> l.likeCount <= 5
    ensures l.likeCount > 5 ==> EndsWithBlessing(LikeReply(l, choice), "感谢" + l.uname + "的点赞，")
  {
    if l.likeCount > 5 {
      BlessingAfter("感谢" + l.uname + "的点赞，", choice);
      assert |LikeReply(l, choice)| > |"感谢" + l.uname + "的点赞"|;
    }
  }

  // ------------------------------------------------------------- super chat

  function SuperChatDescription(s: SuperChatData): string {
    "【付费留言】用户 " + s.uname + " 发送了 " + Itoa(s.rmb) + "元 的付费留言：" + s.message
  }

  function SuperChatReplyHead(s: SuperChatData): string {
    s.uname + "的付费留言（" + Itoa(s.rmb) + "元）：" + s.message + "，"
  }

  /** `HandleSuperChat`: the paid message described for the LLM, or read out with its amount and a blessing. */
  function HandleSuperChat(decoded: Result<SuperChatData>, useLLM: bool, voice: Option<VoiceConfig.Voice>, choice: nat): (r: Reaction)
    ensures decoded.Err? ==> r == Rejected(decoded.error)
    ensures decoded.Ok? && useLLM ==> Queued(r, SuperChatDescription(decoded.value), true, voice)
    ensures decoded.Ok? && !useLLM ==>
      r.Done? && r.handled.effects == [] && |r.handled.entries| == 1
      && r.handled.entries[0].kind == TextNoLLMReply && r.handled.entries[0].voice == voice
      && EndsWithBlessing(r.handled.entries[0].text, SuperChatReplyHead(decoded.value))
  {
    match decoded
    case Err(e) => Rejected(e)
    case Ok(s) =>
      if useLLM then Done(Handled([], [Entry(SuperChatDescription(s), TextNormal, voice)]))
      else
        BlessingAfter(SuperChatReplyHead(s), choice);
        Done(Handled([], [Entry(SuperChatReplyHead(s) + RandomBlessing(choice), TextNoLLMReply, voice)]))
  }

  /** The message is carried verbatim, untrimmed and uncut, in both forms. */
  lemma SuperChatMessageVerbatim(s: SuperChatData, choice: nat)
    ensures HasSuffix(SuperChatDescription(s), s.message)
    ensures OccursAt(SuperChatReplyHead(s) + RandomBlessing(choice), s.message, |s.uname + "的付费留言（" + Itoa(s.rmb) + "元）："|)
  {
    var head := s.uname + "的付费留言（" + Itoa(s.rmb) + "元）：";
    assert SuperChatDescription(s) == ("【付费留言】用户 " + s.uname + " 发送了 " + Itoa(s.rmb) + "元 的付费留言：") + s.message;
    assert SuperChatReplyHead(s) + RandomBlessing(choice) == head + s.message + ("，" + RandomBlessing(choice));
  }

  // ------------------------------------------------------------- room entry

  function EnterReply(uname: string, enterPromot: Option<string>): string {
    "欢迎" + uname + "进入直播间" + (if enterPromot.Some? then "，" + enterPromot.value else "")
  }

  /**
   * `HandleRoomEnter`. `enterPromot` is the welcome hint when the 80% draw
   * asks for one (`IntroPrompt.GetEnterPromot` builds it), `None`
   * otherwise. The user's voice is looked up once; its name is read for
   * the log line, so with no voice the handler panics before it queues
   * anything.
   */
  function HandleRoomEnter(decoded: Result<RoomEnterData>, useLLM: bool, voice: Option<VoiceConfig.Voice>,
                           enterPromot: Option<string>): (r: Reaction)
    ensures decoded.Err? ==> r == Rejected(decoded.error)
    ensures decoded.Ok? && voice.None? ==> r == Panicked(NilDereference)
    ensures decoded.Ok? && voice.Some? && useLLM ==> Queued(r, "【进入房间】用户 " + decoded.value.uname + " 进入了直播间", true, voice)
    ensures decoded.Ok? && voice.Some? && !useLLM ==> Queued(r, EnterReply(decoded.value.uname, enterPromot), false, voice)
  {
    match decoded
    case Err(e) => Rejected(e)
    case Ok(d) =>
      if voice.None? then Panicked(NilDereference)
      else if useLLM then Done(Handled([], [Entry("【进入房间】用户 " + d.uname + " 进入了直播间", TextNormal, voice)]))
      else Done(Handled([], [Entry(EnterReply(d.uname, enterPromot), TextNoLLMReply, voice)]))
  }

  /** The welcome is bare exactly when no hint was drawn; a hint follows a full-width comma. */
  lemma EnterReplyHint(uname: string, enterPromot: Option<string>)
    ensures EnterReply(uname, enterPromot) == "欢迎" + uname + "进入直播间" <==> enterPromot.None?
    ensures enterPromot.Some? ==> HasSuffix(EnterReply(uname, enterPromot), "，" + enterPromot.value)
  {
    if enterPromot.Some? {
      assert |EnterReply(uname, enterPromot)| > |"欢迎" + uname + "进入直播间"|;
    }
  }

  // ------------------------------------------------------- broadcast start/end

  function LiveStartText(room: int, useLLM: bool): string {
    if useLLM then "【直播开始】主播开始了直播，房间号：" + Itoa(room) else "直播开始，房间号：" + Itoa(room)
  }

  function LiveEndText(room: int, useLLM: bool): string {
    if useLLM then "【直播结束】主播结束了直播，房间号：" + Itoa(room) else "直播结束，房间号：" + Itoa(room)
  }

  /** `HandleLiveStart`: the room number announced, read by a random voice from the catalogue. */
  function HandleLiveStart(decoded: Result<LiveData>, useLLM: bool, random: Option<VoiceConfig.Voice>): (r: Reaction)
    ensures decoded.Err? ==> r == Rejected(decoded.error)
    ensures decoded.Ok? ==> Queued(r, LiveStartText(decoded.value.roomID, useLLM), useLLM, random)
  {
    match decoded
    case Err(e) => Rejected(e)
    case Ok(d) => Done(Handled([], [Entry(LiveStartText(d.roomID, useLLM), Kind(useLLM), random)]))
  }

  /** `HandleLiveEnd`: the same for the end of the broadcast. */
  function HandleLiveEnd(decoded: Result<LiveData>, useLLM: bool, random: Option<VoiceConfig.Voice>): (r: Reaction)
    ensures decoded.Err? ==> r == Rejected(decoded.error)
    ensures decoded.Ok? ==> Queued(r, LiveEndText(decoded.value.roomID, useLLM), useLLM, random)
  {
    match decoded
    case Err(e) => Rejected(e)
    case Ok(d) => Done(Handled([], [Entry(LiveEndText(d.roomID, useLLM), Kind(useLLM), random)]))
  }

  /** The announcements name the room: different rooms give different texts, and the room number ends each. */
  lemma LiveTextsNameTheRoom(a: int, b: int, useLLM: bool)
    requires MinInt64 <= a <= MaxInt64 && MinInt64 <= b <= MaxInt64
    ensures HasSuffix(LiveStartText(a, useLLM), Itoa(a)) && HasSuffix(LiveEndText(a, useLLM), Itoa(a))
    ensures LiveStartText(a, useLLM) == LiveStartText(b, useLLM) ==> a == b
    ensures LiveEndText(a, useLLM) == LiveEndText(b, useLLM) ==> a == b
  {
    var s1 := if useLLM then "【直播开始】主播开始了直播，房间号：" else "直播开始，房间号：";
    var s2 := if useLLM then "【直播结束】主播结束了直播，房间号：" else "直播结束，房间号：";
    assert LiveStartText(a, useLLM) == s1 + Itoa(a) && LiveStartText(b, useLLM) == s1 + Itoa(b);
    assert LiveEndText(a, useLLM) == s2 + Itoa(a) && LiveEndText(b, useLLM) == s2 + Itoa(b);
    if LiveStartText(a, useLLM) == LiveStartText(b, useLLM) {
      assert Itoa(a) == (s1 + Itoa(a))[|s1|..] == (s1 + Itoa(b))[|s1|..] == Itoa(b);
      ItoaInjective(a, b);
    }
    if LiveEndText(a, useLLM) == LiveEndText(b, useLLM) {
      assert Itoa(a) == (s2 + Itoa(a))[|s2|..] == (s2 + Itoa(b))[|s2|..] == Itoa(b);
      ItoaInjective(a, b);
    }
  }
}
