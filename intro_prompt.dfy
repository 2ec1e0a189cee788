/**
 * The welcome-hint generator: three strategies (a self-introduction, a voice
 * recommendation naming up to three voices picked by a shuffle, and a hint
 * to the room announcement), one of which is chosen at random. The random
 * draws are parameters: `strategyChoice` and `promptChoice` pick from their
 * lists, and `picks` holds the shuffle's draws.
 */
module IntroPrompt {
  import opened Text
  import VoiceConfig

  const IntroPrompts: seq<string> := [
    "你好呀，我是这里的弹幕播报员小七，你可以试试发送弹幕:换，可以切换我为你的播报音色。"
  ]

  const AnnouncementPrompts: seq<string> := [
    "你好，我是小七。想要更多个性化设置吗？看看直播间公告，了解如何自定义我的声音。",
    "你好！发送弹幕就能播报。记得查看直播间公告，解锁更多隐藏玩法哦。",
    "你好呀，我是小七。除了播报弹幕，我还有很多本领，详情请看直播间简介。"
  ]

  /** The recommendation prompts for a first voice name and the joined names. */
  function RecommendationPrompts(firstName: string, voiceNames: string): seq<string> {
    [ "你好，我是小七。如果不喜欢现在的声音，可以发送“换音色”试试哦。",
      "你好呀，我是可以变声的小七，试试发送“换 " + firstName + "”来改变我的声音吧。",
      "你好呀，我有好多有趣的声音，比如" + voiceNames + "，快来体验一下自定义音色吧。" ]
  }

  /** `strategyIntro`: its single prompt. */
  function StrategyIntro(promptChoice: nat): (r: string)
    ensures r == IntroPrompts[0]
  {
    IntroPrompts[promptChoice % |IntroPrompts|]
  }

  /** `strategyAnnouncement`: one of its three prompts. */
  function StrategyAnnouncement(promptChoice: nat): (r: string)
    ensures r in AnnouncementPrompts
  {
    AnnouncementPrompts[promptChoice % |AnnouncementPrompts|]
  }

  // --------------------------------------------------------------- shuffling

  /** `s` with positions `i` and `j` exchanged. */
  function SwapAt<T>(s: seq<T>, i: nat, j: nat): (r: seq<T>)
    requires i < |s| && j < |s|
    ensures |r| == |s|
  {
    s[i := s[j]][j := s[i]]
  }

  lemma SwapAtPermutes<T>(s: seq<T>, i: nat, j: nat)
    requires i < |s| && j < |s|
    ensures multiset(SwapAt(s, i, j)) == multiset(s)
  {
  }

  /** The swap partner `rand.Shuffle` draws for position `i`, in `[0, i]`. */
  function PickIndex(picks: seq<nat>, i: nat): (j: nat)
    ensures j <= i
  {
    if i < |picks| then picks[i] % (i + 1) else i
  }

  /** The Fisher-Yates passes of `rand.Shuffle` from position `i` down to 1. */
  function ShuffleFrom<T>(s: seq<T>, picks: seq<nat>, i: nat): (r: seq<T>)
    requires i < |s|
    ensures |r| == |s|
    decreases i
  {
    if i == 0 then s else ShuffleFrom(SwapAt(s, i, PickIndex(picks, i)), picks, i - 1)
  }

  /** `rand.Shuffle` over the whole sequence. */
  function Shuffle<T>(s: seq<T>, picks: seq<nat>): (r: seq<T>)
    ensures |r| == |s|
  {
    if |s| == 0 then s else ShuffleFrom(s, picks, |s| - 1)
  }

  lemma ShuffleFromStep<T>(s: seq<T>, picks: seq<nat>, i: nat)
    requires 0 < i < |s|
    ensures ShuffleFrom(s, picks, i) == ShuffleFrom(SwapAt(s, i, PickIndex(picks, i)), picks, i - 1)
  {
  }

  /** Swapping two cells of an array swaps the two positions of its contents. */
  lemma SwappedCells<T>(before: seq<T>, after: seq<T>, i: nat, j: nat)
    requires i < |before| && j < |before| && |after| == |before|
    requires after[i] == before[j] && after[j] == before[i]
    requires forall k :: 0 <= k < |before| && k != i && k != j ==> after[k] == before[k]
    ensures after == SwapAt(before, i, j)
  {
  }

  /** Shuffling only moves elements: the result is a permutation. */
  lemma {:induction false} ShuffleFromPermutes<T>(s: seq<T>, picks: seq<nat>, i: nat)
    requires i < |s|
    ensures multiset(ShuffleFrom(s, picks, i)) == multiset(s)
    decreases i
  {
    if i > 0 {
      SwapAtPermutes(s, i, PickIndex(picks, i));
      ShuffleFromPermutes(SwapAt(s, i, PickIndex(picks, i)), picks, i - 1);
    }
  }

  lemma ShufflePermutes<T>(s: seq<T>, picks: seq<nat>)
    ensures multiset(Shuffle(s, picks)) == multiset(s)
  {
    if |s| > 0 {
      ShuffleFromPermutes(s, picks, |s| - 1);
    }
  }

  /** What `getRandomVoices` returns: all voices when there are at most `count`, else the first `count` after a shuffle. */
  function RandomVoices(all: seq<VoiceConfig.Voice>, count: nat, picks: seq<nat>): seq<VoiceConfig.Voice> {
    if |all| <= count then all else Shuffle(all, picks)[..count]
  }

  /** The picked voices number `min(count, |all|)` and are taken from the store without reuse. */
  lemma RandomVoicesDrawn(all: seq<VoiceConfig.Voice>, count: nat, picks: seq<nat>)
    ensures |RandomVoices(all, count, picks)| == if |all| <= count then |all| else count
    ensures multiset(RandomVoices(all, count, picks)) <= multiset(all)
  {
    if |all| > count {
      var s := Shuffle(all, picks);
      ShufflePermutes(all, picks);
      assert s == s[..count] + s[count..];
      assert multiset(s) == multiset(s[..count]) + multiset(s[count..]);
    }
  }

  /** `rand.Shuffle` on an array: the swaps happen in place. */
  method ShuffleInPlace<T>(a: array<T>, picks: seq<nat>)
    modifies a
    ensures a[..] == Shuffle(old(a[..]), picks)
  {
    if a.Length == 0 {
      return;
    }
    var i := a.Length - 1;
    while i > 0
      invariant 0 <= i < a.Length
      invariant ShuffleFrom(a[..], picks, i) == Shuffle(old(a[..]), picks)
      decreases i
    {
      var j := PickIndex(picks, i);
      ghost var before := a[..];
      ShuffleFromStep(before, picks, i);
      a[i], a[j] := a[j], a[i];
      SwappedCells(before, a[..], i, j);
      i := i - 1;
    }
  }

  /** `getRandomVoices`: the shuffle runs on a copy of the store's list. */
  method GetRandomVoices(all: seq<VoiceConfig.Voice>, count: nat, picks: seq<nat>) returns (r: seq<VoiceConfig.Voice>)
    ensures r == RandomVoices(all, count, picks)
  {
    if |all| <= count {
      return all;
    }
    var shuffled := new VoiceConfig.Voice[|all|](k requires 0 <= k < |all| => all[k]);
    assert shuffled[..] == all;
    ShuffleInPlace(shuffled, picks);
    r := shuffled[..count];
  }

  // ---------------------------------------------------------- joining names

  function Names(voices: seq<VoiceConfig.Voice>): (r: seq<string>)
    ensures |r| == |voices| && forall k :: 0 <= k < |voices| ==> r[k] == voices[k].name
  {
    seq(|voices|, k requires 0 <= k < |voices| => voices[k].name)
  }

  /** The names joined with "、" in list order: the loop with `+=`. */
  method VoiceNames(voices: seq<VoiceConfig.Voice>) returns (names: string)
    ensures names == Join(Names(voices), "、")
  {
    names := "";
    for i := 0 to |voices|
      invariant names == Join(Names(voices[..i]), "、")
    {
      assert Names(voices[..i + 1]) == Names(voices[..i]) + [voices[i].name];
      if i > 0 {
        JoinSnoc(Names(voices[..i]), "、", voices[i].name);
        names := names + "、";
      }
      names := names + voices[i].name;
    }
    assert voices[..|voices|] == voices;
  }

  /** The joined names begin with the first voice's name. */
  lemma {:induction false} JoinStartsWithFirst(parts: seq<string>, sep: string)
    requires |parts| > 0
    ensures HasPrefix(Join(parts, sep), parts[0])
    decreases |parts|
  {
    if |parts| > 1 {
      var init := parts[..|parts| - 1];
      JoinStartsWithFirst(init, sep);
      assert init[0] == parts[0];
      var r := Join(parts, sep);
      assert r == Join(init, sep) + sep + parts[|parts| - 1];
      assert r[..|parts[0]|] == Join(init, sep)[..|parts[0]|];
    }
  }

  // ------------------------------------------------------------- strategies

  /** `strategyVoiceRecommendation`'s result: the intro when there are no voices, else a recommendation prompt. */
  function Recommendation(all: seq<VoiceConfig.Voice>, picks: seq<nat>, promptChoice: nat): string {
    var voices := RandomVoices(all, 3, picks);
    if |voices| == 0 then StrategyIntro(promptChoice)
    else RecommendationPrompts(voices[0].name, Join(Names(voices), "、"))[promptChoice % 3]
  }

  /** With no voices the recommendation falls back to the intro; otherwise it names its voices from the store. */
  lemma RecommendationFallsBack(all: seq<VoiceConfig.Voice>, picks: seq<nat>, promptChoice: nat)
    ensures |all| == 0 ==> Recommendation(all, picks, promptChoice) == IntroPrompts[0]
    ensures |all| > 0 ==> (Recommendation(all, picks, promptChoice) in
      RecommendationPrompts(RandomVoices(all, 3, picks)[0].name, Join(Names(RandomVoices(all, 3, picks)), "、")))
    ensures |all| > 0 ==> RandomVoices(all, 3, picks)[0] in all
  {
    RandomVoicesDrawn(all, 3, picks);
    if |all| > 0 {
      var v := RandomVoices(all, 3, picks);
      assert v[0] in multiset(v);
    }
  }

  /** `strategyVoiceRecommendation`. */
  method StrategyVoiceRecommendation(all: seq<VoiceConfig.Voice>, picks: seq<nat>, promptChoice: nat) returns (r: string)
    ensures r == Recommendation(all, picks, promptChoice)
  {
    var voices := GetRandomVoices(all, 3, picks);
    if |voices| == 0 {
      return StrategyIntro(promptChoice);
    }
    var voiceNames := VoiceNames(voices);
    var prompts := RecommendationPrompts(voices[0].name, voiceNames);
    r := prompts[promptChoice % |prompts|];
  }

  datatype Strategy = Intro | VoiceRecommendation | Announcement

  const Strategies: seq<Strategy> := [Intro, VoiceRecommendation, Announcement]

  /** `GetEnterPromot`'s result: the chosen strategy's prompt. */
  function EnterPromot(all: seq<VoiceConfig.Voice>, strategyChoice: nat, picks: seq<nat>, promptChoice: nat): string {
    match Strategies[strategyChoice % |Strategies|]
    case Intro => StrategyIntro(promptChoice)
    case VoiceRecommendation => Recommendation(all, picks, promptChoice)
    case Announcement => StrategyAnnouncement(promptChoice)
  }

  /** The hint is always one of the three strategies' prompts, and the store's voices decide only the recommendation. */
  lemma EnterPromotIsAStrategy(all: seq<VoiceConfig.Voice>, strategyChoice: nat, picks: seq<nat>, promptChoice: nat)
    ensures var r := EnterPromot(all, strategyChoice, picks, promptChoice);
      r == IntroPrompts[0] || r in AnnouncementPrompts || r == Recommendation(all, picks, promptChoice)
    ensures strategyChoice % 3 != 1 ==>
      forall other: seq<VoiceConfig.Voice> :: EnterPromot(other, strategyChoice, picks, promptChoice) == EnterPromot(all, strategyChoice, picks, promptChoice)
  {
  }

  /** `GetEnterPromot`. */
  method GetEnterPromot(all: seq<VoiceConfig.Voice>, strategyChoice: nat, picks: seq<nat>, promptChoice: nat) returns (r: string)
    ensures r == EnterPromot(all, strategyChoice, picks, promptChoice)
  {
    var selected := Strategies[strategyChoice % |Strategies|];
    match selected
    case Intro => r := StrategyIntro(promptChoice);
    case VoiceRecommendation => r := StrategyVoiceRecommendation(all, picks, promptChoice);
    case Announcement => r := StrategyAnnouncement(promptChoice);
  }
}
