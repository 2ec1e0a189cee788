/**
 * The like announcements: a per-user combo counter that each like bumps
 * and a later reset removes, the three template tiers the combo count
 * selects from, and the announcement text. The random template pick is an
 * index `choice`; the thirty-second reset timer, the voice lookup and the
 * speech call are outside the model.
 */
module LikeVoice {
  import opened Text
  import Events

  // ------------------------------------------------------------ templates

  /** Ordinary likes. */
  const LikeTemplates: seq<Template> := [
    Template("感谢", "的点赞！"),
    Template("谢谢", "的支持！"),
    Template("感谢", "给的赞！"),
    Template("感谢", "的点赞，你真是太棒了！"),
    Template("谢谢", "的点赞，你的品味真好！"),
    Template("感谢", "的点赞，你真是个小天才！"),
    Template("感谢", "的点赞，你的支持是我最大的动力！"),
    Template("谢谢", "的点赞，有你真好！"),
    Template("感谢", "的点赞，让我们一起努力！"),
    Template("哇！", "给了个赞，爱你哟！"),
    Template("嘻嘻，", "点赞了，么么哒！"),
    Template("", "的小手点了个赞，好开心！"),
    Template("感谢", "的点赞，你的眼光真不错！"),
    Template("谢谢", "的点赞，你真是太有眼光了！"),
    Template("感谢", "的点赞，你的审美真棒！"),
    Template("感谢", "的点赞，你的手指真是太灵活了！"),
    Template("谢谢", "的点赞，你的拇指真给力！"),
    Template("感谢", "的点赞，你点赞的姿势真帅！"),
    Template("感谢", "的点赞，希望你今天心情美美哒！"),
    Template("谢谢", "的点赞，愿你每天都开心！"),
    Template("感谢", "的点赞，祝你天天好心情！"),
    Template("感谢", "的点赞，让我们一起加油！"),
    Template("谢谢", "的点赞，正能量满满！"),
    Template("感谢", "的点赞，我们都要努力哦！"),
    Template("感谢", "的点赞，你就像小天使一样！"),
    Template("谢谢", "的点赞，你真是个小可爱！"),
    Template("感谢", "的点赞，你的心真善良！"),
    Template("感谢", "的点赞，你让直播间更有活力！"),
    Template("谢谢", "的点赞，气氛瞬间活跃了！"),
    Template("感谢", "的点赞，你真是开心果！")
  ]

  /** Two to four likes in a row. */
  const ComboLikeTemplates: seq<Template> := [
    Template("哇！", "连续点赞，太给力了！"),
    Template("", "的连击点赞，简直是点赞狂魔！"),
    Template("感谢", "的疯狂点赞，你太热情了！"),
    Template("", "连续点赞，手速真快！"),
    Template("哇塞！", "的连击点赞，爱死你了！"),
    Template("感谢", "的连续支持，你真是我的小粉丝！"),
    Template("", "点赞不停，简直是点赞机器！"),
    Template("哇！", "的连击，这节奏太棒了！")
  ]

  /** Five likes in a row or more. */
  const SuperComboTemplates: seq<Template> := [
    Template("天哪！", "的超级连击，你是点赞之王！"),
    Template("哇！", "疯狂点赞，简直是点赞风暴！"),
    Template("感谢", "的超级连击，你太疯狂了！"),
    Template("", "的点赞连击，创造了新纪录！"),
    Template("哇塞！", "的超级连击，你是点赞大神！")
  ]

  // ------------------------------------------------------------- counting

  /** A user's combo count: 0 when the user has no entry. */
  function Count(counts: map<string, int>, user: string): int {
    if user in counts then counts[user] else 0
  }

  /** The counts after one more like from `user`. */
  function Bumped(counts: map<string, int>, user: string): (r: map<string, int>)
    ensures r.Keys == counts.Keys + {user}
    ensures Count(r, user) == Count(counts, user) + 1
    ensures forall u :: u != user ==> Count(r, u) == Count(counts, u)
  {
    counts[user := Count(counts, user) + 1]
  }

  /** The counts after `k` likes in a row from `user`. */
  function BumpedTimes(counts: map<string, int>, user: string, k: nat): map<string, int>
    decreases k
  {
    if k == 0 then counts else Bumped(BumpedTimes(counts, user, k - 1), user)
  }

  /** The `k`-th like in a row from `user` reports its count plus `k`; nobody else's count moves. */
  lemma {:induction false} BumpedTimesCount(counts: map<string, int>, user: string, k: nat)
    ensures Count(BumpedTimes(counts, user, k), user) == Count(counts, user) + k
    ensures forall u :: u != user ==> Count(BumpedTimes(counts, user, k), u) == Count(counts, u)
    decreases k
  {
    if k > 0 {
      BumpedTimesCount(counts, user, k - 1);
    }
  }

  /** After a reset the user's next like counts as the first of a new combo, and others keep theirs. */
  lemma ResetThenBump(counts: map<string, int>, user: string)
    ensures Count(Bumped(counts - {user}, user), user) == 1
    ensures forall u :: u != user ==> Count(Bumped(counts - {user}, user), u) == Count(counts, u)
  {
  }

  // --------------------------------------------------------------- tiers

  /**
   * `getRandomLikeTemplate`'s tier: five likes in a row or more use the
   * super-combo templates, two to four the combo templates, anything
   * else the ordinary ones.
   */
  function LikeTier(comboCount: int): (r: seq<Template>)
    ensures |r| > 0
    ensures r == SuperComboTemplates <==> comboCount >= 5
    ensures r == ComboLikeTemplates <==> 2 <= comboCount < 5
    ensures r == LikeTemplates <==> comboCount < 2
  {
    assert |SuperComboTemplates| == 5 && |ComboLikeTemplates| == 8 && |LikeTemplates| == 30;
    if comboCount >= 5 then SuperComboTemplates
    else if comboCount >= 2 then ComboLikeTemplates
    else LikeTemplates
  }

  /** The emotion words `addEmotionToText` may add; the only one is empty. */
  const Emotions: seq<string> := [""]

  /**
   * `addEmotionToText`: when the 60% roll comes up (`roll`), the chosen
   * emotion word is appended if it is not empty. Since the only word is
   * empty, the text is always returned unchanged.
   */
  function AddEmotion(text: string, roll: bool, choice: nat): (r: string)
    ensures r == text
  {
    var emotion := Emotions[choice % |Emotions|];
    if roll && emotion != "" then text + emotion else text
  }

  /** The announcement for the like whose combo count is `comboCount`: the chosen template of its tier around the user's name. */
  function LikeText(uname: string, comboCount: int, choice: nat): (r: string)
    ensures exists t :: t in LikeTier(comboCount) && r == Fill(t, uname)
  {
    var tier := LikeTier(comboCount);
    var t := tier[choice % |tier|];
    assert t in tier;
    Fill(t, uname)
  }

  /** The package's `userLikeCount` map. */
  class ComboCounter {
    var counts: map<string, int>

    constructor ()
      ensures counts == map[]
    {
      counts := map[];
    }

    /** `getUserLikeCombo`: the user's count goes up by one and the new count is returned. */
    method GetUserLikeCombo(user: string) returns (n: int)
      modifies this
      ensures counts == Bumped(old(counts), user)
      ensures n == Count(old(counts), user) + 1 && n == Count(counts, user)
      ensures user !in old(counts) ==> n == 1
    {
      var current := if user in counts then counts[user] else 0;
      counts := counts[user := current + 1];
      n := counts[user];
    }

    /** `resetUserLikeCombo`: the user's entry is dropped. */
    method ResetUserLikeCombo(user: string)
      modifies this
      ensures counts == old(counts) - {user}
      ensures Count(counts, user) == 0
    {
      counts := counts - {user};
    }

    /**
     * `PlayLikeVoice`'s text: the like is counted, its tier's template is
     * filled with the user's name, and the emotion step leaves it as it is.
     */
    method PlayLikeVoice(like: Events.LikeData, choice: nat, roll: bool, emotionChoice: nat)
      returns (voiceText: string, comboCount: int)
      modifies this
      ensures counts == Bumped(old(counts), like.uname)
      ensures comboCount == Count(old(counts), like.uname) + 1
      ensures voiceText == LikeText(like.uname, comboCount, choice)
    {
      comboCount := GetUserLikeCombo(like.uname);
      var tier := LikeTier(comboCount);
      var template := tier[choice % |tier|];
      voiceText := Fill(template, like.uname);
      voiceText := AddEmotion(voiceText, roll, emotionChoice);
    }
  }
}
