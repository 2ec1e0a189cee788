/**
 * The guard (大航海) announcements: the level names, the template list per
 * level, the renewal test and the announcement text. The random template
 * pick is an index `choice`; the voice lookup and the speech call are
 * outside the model.
 */
module GuardVoice {
  import opened Text
  import Events

  /** A format with two `%s` verbs: the text before, between and after them. */
  datatype Renewal = Renewal(head: string, middle: string, tail: string)

  /** `getGuardLevelName`: 1, 2 and 3 have their names; any other level is plain 大航海. */
  function GuardLevelName(level: int): (name: string)
    ensures level == 1 ==> name == "总督"
    ensures level == 2 ==> name == "提督"
    ensures level == 3 ==> name == "舰长"
    ensures level !in {1, 2, 3} ==> name == "大航海"
  {
    var names := map[1 := "总督", 2 := "提督", 3 := "舰长"];
    if level in names then names[level] else "大航海"
  }

  /** The three level names and the fallback are all different. */
  lemma LevelNamesDistinct(a: int, b: int)
    requires a in {1, 2, 3} && a != b
    ensures GuardLevelName(a) != GuardLevelName(b)
  {
    assert "总督"[0] != "提督"[0] && "总督"[0] != "舰长"[0] && "提督"[0] != "舰长"[0];
    assert "大航海"[0] != "总督"[0] && "大航海"[0] != "提督"[0] && "大航海"[0] != "舰长"[0];
  }

  /** 舰长 (captain, level 3). */
  const CaptainTemplates: seq<Template> := [
    Template("感谢", "开通舰长！欢迎加入舰队，愿你一帆风顺！"),
    Template("感谢", "成为舰长！你的支持是我前进的动力！"),
    Template("感谢", "开通舰长！祝你事业有成，身体健康！"),
    Template("感谢", "成为舰长！有你的陪伴真是太幸福了！"),
    Template("感谢", "开通舰长！愿你每天都开开心心！"),
    Template("感谢", "成为舰长！你就是我们舰队的骄傲！"),
    Template("感谢", "开通舰长！祝你工作顺利，万事如意！"),
    Template("感谢", "成为舰长！你的温暖让直播间更有爱！")
  ]

  /** 提督 (admiral, level 2). */
  const AdmiralTemplates: seq<Template> := [
    Template("感谢", "开通提督！真是太豪气了，祝你财源滚滚！"),
    Template("感谢", "成为提督！你就是我们的大英雄！"),
    Template("感谢", "开通提督！愿你好运连连，心想事成！"),
    Template("感谢", "成为提督！你的慷慨让人感动！"),
    Template("感谢", "开通提督！祝你生意兴隆，财运亨通！"),
    Template("感谢", "成为提督！你就是传说中的大佬！"),
    Template("感谢", "开通提督！愿你身体健康，家庭幸福！"),
    Template("感谢", "成为提督！你的支持让我充满力量！")
  ]

  /** 总督 (governor, level 1). */
  const GovernorTemplates: seq<Template> := [
    Template("感谢", "开通总督！哇，真正的大佬来了！"),
    Template("感谢", "成为总督！你就是传说中的神豪！"),
    Template("感谢", "开通总督！祝你万事如意，富贵满堂！"),
    Template("感谢", "成为总督！简直是土豪中的土豪！"),
    Template("感谢", "开通总督！你就是我们的守护神！"),
    Template("感谢", "成为总督！祝你财源广进，福寿安康！"),
    Template("感谢", "开通总督！你的豪气震撼全场！"),
    Template("感谢", "成为总督！愿你永远幸福快乐！")
  ]

  /** Any other level. */
  const GeneralTemplates: seq<Template> := [
    Template("感谢", "开通大航海！你真是太棒了！"),
    Template("感谢", "的大航海支持！你就是我们的贵人！"),
    Template("感谢", "开通大航海！祝你好运连连！"),
    Template("感谢", "的大航海！你的支持让我感动！")
  ]

  /** Renewals: the user's name, then the level's name. */
  const RenewalTemplates: seq<Renewal> := [
    Renewal("感谢", "续费", "！老朋友的支持最暖心了！"),
    Renewal("感谢", "继续开通", "！有你真好！"),
    Renewal("感谢", "再次开通", "！你就是我们的老铁！")
  ]

  /** The template list `getRandomGuardTemplate` returns. */
  datatype TemplateList = Fresh(templates: seq<Template>) | Renewals(renewals: seq<Renewal>)

  /** `getRandomGuardTemplate`: renewals first, then by level; every list is non-empty. */
  function GuardTemplates(level: int, isRenewal: bool): (r: TemplateList)
    ensures isRenewal <==> r.Renewals?
    ensures r.Fresh? ==> |r.templates| > 0
    ensures r.Renewals? ==> |r.renewals| > 0
    ensures !isRenewal && level == 3 ==> r == Fresh(CaptainTemplates)
    ensures !isRenewal && level == 2 ==> r == Fresh(AdmiralTemplates)
    ensures !isRenewal && level == 1 ==> r == Fresh(GovernorTemplates)
    ensures !isRenewal && level !in {1, 2, 3} ==> r == Fresh(GeneralTemplates)
  {
    if isRenewal then Renewals(RenewalTemplates)
    else match level
      case 3 => Fresh(CaptainTemplates)
      case 2 => Fresh(AdmiralTemplates)
      case 1 => Fresh(GovernorTemplates)
      case _ => Fresh(GeneralTemplates)
  }

  /** `isRenewalGuard`: no purchase is taken for a renewal. */
  function IsRenewalGuard(guard: Events.GuardData): (r: bool)
    ensures !r
  {
    false
  }

  /** The renewal wording: a renewal template filled with the user's name and the level's name. */
  function RenewalText(uname: string, levelName: string, choice: nat): (text: string)
    ensures exists t :: t in RenewalTemplates && text == t.head + uname + t.middle + levelName + t.tail
  {
    var t := RenewalTemplates[choice % |RenewalTemplates|];
    assert t in RenewalTemplates;
    t.head + uname + t.middle + levelName + t.tail
  }

  /**
   * `getGuardText`: a template of the purchase's list, filled with the
   * user's name (and, for a renewal, the level's name). Since no purchase
   * is a renewal, the text always comes from the level's own list.
   */
  function GetGuardText(guard: Events.GuardData, choice: nat): (text: string)
    ensures exists t :: t in GuardTemplates(guard.guardLevel, false).templates && text == Fill(t, guard.uname)
  {
    var levelName := GuardLevelName(guard.guardLevel);
    var isRenewal := IsRenewalGuard(guard);
    if isRenewal then RenewalText(guard.uname, levelName, choice)
    else
      var list := GuardTemplates(guard.guardLevel, isRenewal).templates;
      var t := list[choice % |list|];
      assert t in list;
      Fill(t, guard.uname)
  }

  /** Every guard text thanks the user by name: the name follows the opening 感谢 of every template. */
  lemma GuardTextNamesUser(guard: Events.GuardData, choice: nat)
    ensures HasPrefix(GetGuardText(guard, choice), "感谢")
    ensures OccursAt(GetGuardText(guard, choice), guard.uname, 2)
  {
    var list := GuardTemplates(guard.guardLevel, false).templates;
    var t := list[choice % |list|];
    assert t.head == "感谢" by {
      assert forall k :: 0 <= k < |CaptainTemplates| ==> CaptainTemplates[k].head == "感谢";
      assert forall k :: 0 <= k < |AdmiralTemplates| ==> AdmiralTemplates[k].head == "感谢";
      assert forall k :: 0 <= k < |GovernorTemplates| ==> GovernorTemplates[k].head == "感谢";
      assert forall k :: 0 <= k < |GeneralTemplates| ==> GeneralTemplates[k].head == "感谢";
    }
  }
}
