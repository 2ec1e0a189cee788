/**
 * Danmaku commands: the exact-then-prefix routing table, and the three
 * voice commands — query the user's voice, switch to a random voice,
 * switch to a named voice. What the user-voice store and the voice
 * catalogue answer is given in `Lookups`; the store calls and the text
 * queued for reading are returned.
 */
module Commands {
  import opened Wrappers
  import opened Text
  import VoiceConfig
  import opened Events

  /** The command handlers. */
  datatype Route = QueryVoice | RandomSwitch | SwitchByName

  /** The `Exact` table. */
  const Exact: map<string, Route> := map["我的音色" := QueryVoice, "换音色" := RandomSwitch]

  /** The `Prefix` table, as a list (it has a single entry, so the map's iteration order does not matter). */
  const Prefix: seq<(string, Route)> := [("换", SwitchByName)]

  /** The first entry of `table` from `i` on whose prefix starts `text`. */
  function FirstPrefix(text: string, table: seq<(string, Route)>, i: nat): (r: Option<nat>)
    ensures r.Some? ==> i <= r.value < |table| && HasPrefix(text, table[r.value].0)
    ensures r.Some? ==> forall j :: i <= j < r.value ==> !HasPrefix(text, table[j].0)
    ensures r.None? ==> forall j :: i <= j < |table| ==> !HasPrefix(text, table[j].0)
    decreases |table| - i
  {
    if i >= |table| then None
    else if HasPrefix(text, table[i].0) then Some(i)
    else FirstPrefix(text, table, i + 1)
  }

  /**
   * `CheckIfCommandAndUseHandler`: an exact command takes an empty
   * argument; otherwise the first matching prefix takes the rest of the
   * text, trimmed; otherwise the text is no command.
   */
  function CheckIfCommand(text: string): (r: Option<(Route, string)>)
    ensures text in Exact ==> r == Some((Exact[text], ""))
    ensures text !in Exact && HasPrefix(text, "换") ==> r == Some((SwitchByName, TrimSpace(text[|"换"|..])))
    ensures r.None? <==> text !in Exact && !HasPrefix(text, "换")
  {
    if text in Exact then Some((Exact[text], ""))
    else match FirstPrefix(text, Prefix, 0)
      case Some(k) => Some((Prefix[k].1, TrimSpace(TrimPrefix(text, Prefix[k].0))))
      case None => None
  }

  /** "换音色" reaches the random switch, never the switch by name; "换" alone reaches the switch by name with an empty argument. */
  lemma SwitchRouting()
    ensures CheckIfCommand("换音色") == Some((RandomSwitch, ""))
    ensures CheckIfCommand("换") == Some((SwitchByName, ""))
    ensures CheckIfCommand("我的音色") == Some((QueryVoice, ""))
  {
    assert HasPrefix("换", "换");
    assert "换"[|"换"|..] == "";
    assert TrimSpace("") == "";
  }

  /**
   * What the store and the catalogue answer: the user's voice, the voice a
   * second lookup returns for a user without one (the store assigns one
   * then), the voice found for the requested name, and the random voice
   * the catalogue picks; the catalogue answers nil (`None`) when it holds
   * no voices.
   */
  datatype Lookups = Lookups(
    current: Option<VoiceConfig.Voice>, refetched: Option<VoiceConfig.Voice>,
    byName: Option<VoiceConfig.Voice>, random: Option<VoiceConfig.Voice>)

  /**
   * The catalogue's answers, from its voices and its name index:
   * `GetVoiceByName` gives the indexed voice or falls back to a random pick,
   * and `GetRandomVoice` gives nil exactly when there are no voices.
   */
  function CatalogueLookups(voices: seq<VoiceConfig.Voice>, nameMap: map<string, VoiceConfig.Voice>, name: string,
                            nameChoice: nat, randomChoice: nat,
                            current: Option<VoiceConfig.Voice>, refetched: Option<VoiceConfig.Voice>): (lk: Lookups)
    requires forall k :: k in nameMap ==> nameMap[k] in voices
    ensures lk.random.None? <==> |voices| == 0
    ensures lk.byName.None? <==> |voices| == 0
    ensures lk.random.Some? ==> lk.random.value in voices
    ensures lk.byName.Some? ==> lk.byName.value in voices
    ensures name in nameMap ==> lk.byName == Some(nameMap[name])
  {
    var byName := if name in nameMap then Some(nameMap[name]) else VoiceConfig.RandomOf(voices, nameChoice);
    assert name in nameMap ==> nameMap[name] in voices;
    Lookups(current, refetched, byName, VoiceConfig.RandomOf(voices, randomChoice))
  }

  /** The query answer the query command and the danmaku handler both give. */
  function QueryMessage(uname: string, current: Option<VoiceConfig.Voice>): string {
    if current.Some? then uname + " 当前使用的音色是：" + current.value.name
    else uname + " 当前没有设置音色，将为您分配默认音色"
  }

  /**
   * `handleQueryVoice`: the user's activity is refreshed and the answer is
   * queued as a command text with the user's voice (looked up again when
   * there was none); the stored voice is not changed.
   */
  function HandleQueryVoice(uname: string, lk: Lookups): (h: Handled)
    ensures h.effects == [UpdateUserActivity(uname)]
    ensures |h.entries| == 1 && h.entries[0].kind == TextCommand
    ensures h.entries[0].voice == (if lk.current.Some? then lk.current else lk.refetched)
    ensures lk.current.Some? ==> h.entries[0].text == uname + " 当前使用的音色是：" + lk.current.value.name
  {
    var voice := if lk.current.Some? then lk.current else lk.refetched;
    Handled([UpdateUserActivity(uname)], [Entry(QueryMessage(uname, lk.current), TextCommand, voice)])
  }

  /** A switch to `v`: the store gets its type, the activity is refreshed, and the message is queued with `v`. */
  function Switch(uname: string, v: VoiceConfig.Voice, message: string): (h: Handled)
    ensures h.effects == [SetUserVoice(uname, v.voiceType), UpdateUserActivity(uname)]
    ensures h.entries == [Entry(message, TextCommand, Some(v))]
  {
    Handled([SetUserVoice(uname, v.voiceType), UpdateUserActivity(uname)], [Entry(message, TextCommand, Some(v))])
  }

  /** `handleRandomSwitchVoice`: the user switches to the random voice; with no voice the name read panics first. */
  function HandleRandomSwitchVoice(uname: string, lk: Lookups): (r: Reaction)
    ensures lk.random.None? ==> r == Panicked(NilDereference)
    ensures lk.random.Some? ==> r == Done(Switch(uname, lk.random.value, uname + " 的播报音色已随机切换为 " + lk.random.value.name))
  {
    match lk.random
    case None => Panicked(NilDereference)
    case Some(v) => Done(Switch(uname, v, uname + " 的播报音色已随机切换为 " + v.name))
  }

  /**
   * `handleSwitchVoiceByName`: a blank name switches to the random voice
   * saying the voice does not exist; a name switches to the voice found for
   * it, or to the random voice when there is none, with the same message
   * either way. With neither voice the message's name read panics before
   * any store call.
   */
  function HandleSwitchVoiceByName(uname: string, arg: string, lk: Lookups): (r: Reaction)
    ensures TrimSpace(arg) == "" && lk.random.Some? ==>
      r == Done(Switch(uname, lk.random.value, uname + " 指定的音色不存在，已随机切换为 " + lk.random.value.name))
    ensures TrimSpace(arg) != "" && (lk.byName.Some? || lk.random.Some?) ==>
      var v := if lk.byName.Some? then lk.byName.value else lk.random.value;
      r == Done(Switch(uname, v, uname + " 的播报音色已切换为 " + v.name))
    ensures r.Panicked? <==> lk.random.None? && (TrimSpace(arg) == "" || lk.byName.None?)
    ensures r.Panicked? ==> r == Panicked(NilDereference)
  {
    var voiceName := TrimSpace(arg);
    var v := if voiceName != "" && lk.byName.Some? then lk.byName else lk.random;
    match v
    case None => Panicked(NilDereference)
    case Some(v) =>
      if voiceName != "" then Done(Switch(uname, v, uname + " 的播报音色已切换为 " + v.name))
      else Done(Switch(uname, v, uname + " 指定的音色不存在，已随机切换为 " + v.name))
  }

  /** Running a routed command: a handler that finishes queues one command text, and only the query leaves the stored voice alone. */
  function Run(route: Route, uname: string, arg: string, lk: Lookups): (r: Reaction)
    ensures r.Done? || r == Panicked(NilDereference)
    ensures r.Done? ==> |r.handled.entries| == 1 && r.handled.entries[0].kind == TextCommand
    ensures r.Done? ==> (route == QueryVoice <==> forall k :: 0 <= k < |r.handled.effects| ==> !r.handled.effects[k].SetUserVoice?)
    ensures r.Panicked? ==> route != QueryVoice && lk.random.None?
  {
    match route
    case QueryVoice => Done(HandleQueryVoice(uname, lk))
    case RandomSwitch =>
      var r := HandleRandomSwitchVoice(uname, lk);
      assert r.Done? ==> r.handled.effects[0].SetUserVoice?;
      r
    case SwitchByName =>
      var r := HandleSwitchVoiceByName(uname, arg, lk);
      assert r.Done? ==> r.handled.effects[0].SetUserVoice?;
      r
  }

  /** With the catalogue's answers, a command panics exactly when it switches and the catalogue holds no voices. */
  lemma CataloguePanics(route: Route, uname: string, arg: string, voices: seq<VoiceConfig.Voice>,
                        nameMap: map<string, VoiceConfig.Voice>, nameChoice: nat, randomChoice: nat,
                        current: Option<VoiceConfig.Voice>, refetched: Option<VoiceConfig.Voice>)
    requires forall k :: k in nameMap ==> nameMap[k] in voices
    ensures var lk := CatalogueLookups(voices, nameMap, TrimSpace(arg), nameChoice, randomChoice, current, refetched);
      Run(route, uname, arg, lk).Panicked? <==> route != QueryVoice && |voices| == 0
  {
  }
}
