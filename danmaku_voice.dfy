/**
 * The voice engine's own danmaku path: the length filter, and the reply
 * text and voice for a message, including the "换音色" command and the
 * numbered switch "换N号音色" found anywhere in the message. The user's
 * stored voice and the random picks (`choice`s into the voice list) are
 * inputs; the voices written back for the user are returned in order.
 */
module DanmakuVoice {
  import opened Wrappers
  import opened Text
  import AppConfig
  import Events

  // ------------------------------------------------ the numbered switch

  /** The length of the run of ASCII digits of `s` that starts at `j`. */
  function DigitRun(s: string, j: nat): (n: nat)
    requires j <= |s|
    ensures j + n <= |s|
    ensures forall k :: j <= k < j + n ==> IsDigit(s[k])
    ensures j + n < |s| ==> !IsDigit(s[j + n])
    decreases |s| - j
  {
    if j < |s| && IsDigit(s[j]) then 1 + DigitRun(s, j + 1) else 0
  }

  /** The pattern `换(\d+)号音色` matches at `i`, with the digit run as long as it goes. */
  predicate SwitchAt(s: string, i: nat) {
    i < |s| && s[i] == '换' && DigitRun(s, i + 1) > 0 && HasPrefix(s[i + 1 + DigitRun(s, i + 1)..], "号音色")
  }

  /**
   * A match of the pattern at `i` with `d` digits has the whole digit run
   * as its group: the run cannot stop early, since "号" is not a digit.
   */
  lemma MatchTakesWholeRun(s: string, i: nat, d: nat)
    requires i < |s| && s[i] == '换' && d > 0 && i + 1 + d <= |s|
    requires forall k :: i + 1 <= k < i + 1 + d ==> IsDigit(s[k])
    requires HasPrefix(s[i + 1 + d..], "号音色")
    ensures d == DigitRun(s, i + 1) && SwitchAt(s, i)
  {
    var n := DigitRun(s, i + 1);
    assert s[i + 1 + d..][0] == '号';
    assert !IsDigit(s[i + 1 + d]);
    assert i + 1 + n < |s| ==> !IsDigit(s[i + 1 + n]);
  }

  /** `FindStringSubmatch`'s leftmost match at or after `i`. */
  function FindSwitch(s: string, i: nat): (r: Option<nat>)
    ensures r.Some? ==> i <= r.value && SwitchAt(s, r.value)
    ensures r.Some? ==> forall j :: i <= j < r.value ==> !SwitchAt(s, j)
    ensures r.None? ==> forall j :: i <= j ==> !SwitchAt(s, j)
    decreases |s| - i
  {
    if i >= |s| then None
    else if SwitchAt(s, i) then Some(i)
    else FindSwitch(s, i + 1)
  }

  /** The digits the pattern's group captured at `i`. */
  function SwitchDigits(s: string, i: nat): (d: string)
    requires SwitchAt(s, i)
    ensures |d| > 0 && AllDigits(d)
  {
    s[i + 1..i + 1 + DigitRun(s, i + 1)]
  }

  // --------------------------------------------------------- the reply

  /** The spoken text, the voice to speak it with, and the voices stored for the user on the way, oldest first. */
  datatype Reply = Reply(text: string, voice: string, writes: seq<string>)

  /** The user's voice, or a random one stored for the user when there is none. */
  function StartVoice(current: string, voices: seq<AppConfig.Voice>, choice: nat): (r: (string, seq<string>))
    ensures current != "" ==> r == (current, [])
    ensures current == "" ==> r.0 == AppConfig.GetRandomVoice(voices, choice).id && r.1 == [r.0]
  {
    if current == "" then
      var v := AppConfig.GetRandomVoice(voices, choice).id;
      (v, [v])
    else (current, [])
  }

  /**
   * `GetUserContentWithVoice`. `current` is the user's stored voice ("" for
   * none), `voices` the configured list, `first` the random pick for a
   * user without a voice and `second` the random pick of a switch.
   */
  function ContentWithVoice(username: string, content: string, replyUsername: string, current: string,
                            voices: seq<AppConfig.Voice>, first: nat, second: nat): (r: Reply)
    ensures StartVoice(current, voices, first).1 <= r.writes && |r.writes| <= |StartVoice(current, voices, first).1| + 1
    ensures content == "换音色" ==>
      var v := AppConfig.GetRandomVoice(voices, second).id;
      r == Reply(username + "的音色已切换为现在这个音色", v, StartVoice(current, voices, first).1 + [v])
    ensures content != "换音色" && FindSwitch(content, 0).None? ==>
      r.voice == StartVoice(current, voices, first).0 && r.writes == StartVoice(current, voices, first).1 &&
      r.text == (if replyUsername != "" then username + "对" + replyUsername + "说：" + content else username + "说：" + content)
  {
    var (voiceID, writes) := StartVoice(current, voices, first);
    if content == "换音色" then
      var randVoice := AppConfig.GetRandomVoice(voices, second).id;
      Reply(username + "的音色已切换为现在这个音色", randVoice, writes + [randVoice])
    else match FindSwitch(content, 0)
      case Some(at) =>
        var number := Atoi(SwitchDigits(content, at));
        if number.None? then Reply(username + "的音色切换失败，将使用原来的音色", "", writes)
        else if |voices| == 0 then Reply(username + "的音色切换失败，将使用原来的音色", voiceID, writes)
        else
          var voiceIndex := GoRem(number.value - 1, |voices|);
          if voiceIndex < 0 then
            var randVoice := AppConfig.GetRandomVoice(voices, second).id;
            Reply(username + "的音色切换失败，将使用随机音色", randVoice, writes + [randVoice])
          else
            var id := voices[voiceIndex].id;
            Reply(username + "已切换为" + Itoa(number.value) + "号音色" + AppConfig.GetVoiceInfoByID(id).name, id, writes + [id])
      case None =>
        if replyUsername != "" then Reply(username + "对" + replyUsername + "说：" + content, voiceID, writes)
        else Reply(username + "说：" + content, voiceID, writes)
  }

  /** The number a numbered switch asks for, when the message has one and it fits in an int. */
  function SwitchNumber(content: string): Option<int> {
    match FindSwitch(content, 0)
    case None => None
    case Some(at) => Atoi(SwitchDigits(content, at))
  }

  /** Switch number N of a non-empty list selects voice (N-1) mod the list's length, and stores it. */
  lemma NumberedSwitchPicks(username: string, content: string, replyUsername: string, current: string,
                            voices: seq<AppConfig.Voice>, first: nat, second: nat)
    requires content != "换音色" && SwitchNumber(content).Some? && SwitchNumber(content).value >= 1 && |voices| > 0
    ensures var r := ContentWithVoice(username, content, replyUsername, current, voices, first, second);
      var id := voices[(SwitchNumber(content).value - 1) % |voices|].id;
      r.voice == id && r.writes == StartVoice(current, voices, first).1 + [id]
  {
  }

  /**
   * Switch number 0 gives a negative index, and a random voice, whenever
   * there are two voices or more; with a single voice Go's remainder of
   * -1 by 1 is 0, so that voice is selected.
   */
  lemma NumberZeroSwitch(username: string, content: string, replyUsername: string, current: string,
                         voices: seq<AppConfig.Voice>, first: nat, second: nat)
    requires content != "换音色" && SwitchNumber(content) == Some(0) && |voices| > 0
    ensures var r := ContentWithVoice(username, content, replyUsername, current, voices, first, second);
      |voices| >= 2 ==> r.text == username + "的音色切换失败，将使用随机音色" && r.voice == AppConfig.GetRandomVoice(voices, second).id
    ensures var r := ContentWithVoice(username, content, replyUsername, current, voices, first, second);
      |voices| == 1 ==> r.voice == voices[0].id
  {
    if |voices| >= 2 {
      assert GoRem(-1, |voices|) == -1;
    } else {
      assert GoRem(-1, |voices|) == 0;
    }
  }

  /** A number too large for an int is refused with voice "" and no switch is stored; so is any switch when no voice is configured. */
  lemma FailedSwitchKeepsStore(username: string, content: string, replyUsername: string, current: string,
                               voices: seq<AppConfig.Voice>, first: nat, second: nat)
    requires content != "换音色" && FindSwitch(content, 0).Some?
    requires SwitchNumber(content).None? || |voices| == 0
    ensures var r := ContentWithVoice(username, content, replyUsername, current, voices, first, second);
      r.text == username + "的音色切换失败，将使用原来的音色" && r.writes == StartVoice(current, voices, first).1
    ensures var r := ContentWithVoice(username, content, replyUsername, current, voices, first, second);
      SwitchNumber(content).None? ==> r.voice == ""
    ensures var r := ContentWithVoice(username, content, replyUsername, current, voices, first, second);
      SwitchNumber(content).Some? ==> r.voice == StartVoice(current, voices, first).0
  {
  }

  /** The longest danmaku, in runes, that is read out. */
  const MaxLength := 100

  /**
   * `PlayDanmakuVoice`'s filter and reply: blank messages and messages of
   * more than 100 runes once trimmed are skipped; otherwise the trimmed
   * message's reply.
   */
  function PlayDanmakuVoice(d: Events.DanmakuData, current: string, voices: seq<AppConfig.Voice>, first: nat, second: nat)
    : (r: Option<Reply>)
    ensures r.Some? <==> 0 < |TrimSpace(d.msg)| <= MaxLength
    ensures r.Some? ==> r.value == ContentWithVoice(d.uname, TrimSpace(d.msg), d.replyUName, current, voices, first, second)
  {
    var content := TrimSpace(d.msg);
    if content == "" then None
    else if |content| > MaxLength then None
    else Some(ContentWithVoice(d.uname, content, d.replyUName, current, voices, first, second))
  }
}
