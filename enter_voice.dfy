/**
 * The welcome for a viewer entering the room: a greeting chosen by the
 * hour of the day followed by a welcome template around the viewer's name.
 * The hour and the random template pick (`choice`) are inputs; the voice
 * lookup and the speech call are outside the model.
 */
module EnterVoice {
  import opened Text
  import Events

  /** The welcome templates, each with one place for the name. */
  const WelcomeTemplates: seq<Template> := [
    Template("欢迎", "来到直播间！"),
    Template("热烈欢迎", "的到来！"),
    Template("欢迎", "加入我们！"),
    Template("哇！", "闪亮登场啦！"),
    Template("看！", "华丽丽地出现了！"),
    Template("哎呀！", "来了来了！"),
    Template("", "你好呀，欢迎来玩！"),
    Template("", "，很高兴见到你！"),
    Template("嗨", "，欢迎回来！"),
    Template("", "小可爱来啦！"),
    Template("", "宝贝进入直播间！"),
    Template("萌萌的", "出现了！"),
    Template("尊贵的", "，欢迎光临！"),
    Template("欢迎", "莅临直播间！"),
    Template("感谢", "的到来！"),
    Template("", "快来和大家打个招呼吧！"),
    Template("", "，大家都在等你呢！"),
    Template("", "，来聊聊天吧！"),
    Template("叮咚！", "已上线！"),
    Template("系统提示：", "进入房间！"),
    Template("新朋友", "报到！")
  ]


  /**
   * `getTimeGreeting`: morning from 5 to 11, afternoon from 12 to 17,
   * evening from 18 to 22, and late night otherwise.
   */
  function TimeGreeting(hour: int): (g: string)
    ensures g == "早上好！" <==> 5 <= hour < 12
    ensures g == "下午好！" <==> 12 <= hour < 18
    ensures g == "晚上好！" <==> 18 <= hour < 23
    ensures g == "夜深了，" <==> !(5 <= hour < 23)
  {
    assert "早上好！"[0] != "下午好！"[0] && "早上好！"[0] != "晚上好！"[0] && "下午好！"[0] != "晚上好！"[0];
    assert "夜深了，"[0] != "早上好！"[0] && "夜深了，"[0] != "下午好！"[0] && "夜深了，"[0] != "晚上好！"[0];
    if 5 <= hour < 12 then "早上好！"
    else if 12 <= hour < 18 then "下午好！"
    else if 18 <= hour < 23 then "晚上好！"
    else "夜深了，"
  }

  /** Every hour of the clock falls in exactly one of the four greetings' ranges. */
  lemma HourBucketsPartition(hour: int)
    requires 0 <= hour < 24
    ensures TimeGreeting(hour) in {"早上好！", "下午好！", "晚上好！", "夜深了，"}
    ensures (0 <= hour < 5 || hour == 23) <==> TimeGreeting(hour) == "夜深了，"
  {
  }

  /**
   * `GetUserEnterVoiceText`'s text: the greeting, then the chosen template
   * filled with the viewer's name. Both branches of the late-night test
   * build the same text.
   */
  function GetUserEnterVoiceText(enter: Events.RoomEnterData, hour: int, choice: nat): (text: string)
    ensures exists t :: t in WelcomeTemplates && text == TimeGreeting(hour) + Fill(t, enter.uname)
    ensures HasPrefix(text, TimeGreeting(hour))
  {
    var timeGreeting := TimeGreeting(hour);
    var template := WelcomeTemplates[choice % |WelcomeTemplates|];
    assert template in WelcomeTemplates;
    var welcomeText := Fill(template, enter.uname);
    if timeGreeting == "夜深了，" then timeGreeting + welcomeText else timeGreeting + welcomeText
  }
}
