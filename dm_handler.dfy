/**
 * `HandleDanmaku`: the event description of a danmaku, the voice commands it
 * recognises itself (query, random switch, switch by name), and the plain
 * danmaku queued for an LLM answer. The store and catalogue answers come in
 * `Commands.Lookups`; the store calls and queued texts are returned.
 */
module DanmakuHandler {
  import opened Wrappers
  import opened Text
  import VoiceConfig
  import opened Events
  import Commands

  /** The guard-level note: only levels 1 to 3 have one. */
  function GuardNote(level: int): (r: string)
    ensures level == 1 ==> r == "（总督）"
    ensures level == 2 ==> r == "（提督）"
    ensures level == 3 ==> r == "（舰长）"
    ensures !(1 <= level <= 3) ==> r == ""
  {
    var guardLevels := map[1 := "总督", 2 := "提督", 3 := "舰长"];
    if level > 0 && level in guardLevels then "（" + guardLevels[level] + "）" else ""
  }

  /** The text an LLM is asked to answer, naming the sender, the danmaku and the sender's guard level. */
  function EventDescription(d: DanmakuData): (r: string)
    ensures HasPrefix(r, "【弹幕消息】用户 " + d.uname + " 发送了弹幕：" + d.msg)
    ensures |r| == |"【弹幕消息】用户 " + d.uname + " 发送了弹幕：" + d.msg| + |GuardNote(d.guardLevel)|
    ensures r[|"【弹幕消息】用户 " + d.uname + " 发送了弹幕：" + d.msg|..] == GuardNote(d.guardLevel)
  {
    var base := "【弹幕消息】用户 " + d.uname + " 发送了弹幕：" + d.msg;
    assert (base + GuardNote(d.guardLevel))[..|base|] == base;
    base + GuardNote(d.guardLevel)
  }

  /** Go's `len(msg) > 1` always holds for a message that starts with "换", a three-byte rune. */
  lemma PrefixedIsLong(msg: string)
    requires HasPrefix(msg, "换")
    ensures ByteLen(msg) > 1
  {
    assert msg == "换" + msg[1..];
    ByteLenAppend("换", msg[1..]);
    assert "换"[..0] == "";
    assert ByteLen("换") == 3;
  }

  /**
   * The voice-command branch (the source's `isVoiceCommand` flag): `None`
   * when the message is not one of the handler's voice commands, otherwise
   * the store calls and the command text, or the panic of reading the name
   * of a nil voice when the catalogue gives none.
   */
  function VoiceCommand(d: DanmakuData, lk: Commands.Lookups): (r: Option<Reaction>)
    ensures r.None? <==> d.msg != "我的音色" && !HasPrefix(d.msg, "换")
    ensures r.Some? ==> r.value.Done? || r.value == Panicked(NilDereference)
    ensures HasPrefix(d.msg, "换") ==>
      (r.value.Panicked? <==> lk.random.None? && (d.msg == "换音色" || TrimSpace(d.msg[1..]) == "" || lk.byName.None?))
    ensures HasPrefix(d.msg, "换") && r.value.Done? ==>
      var h := r.value.handled;
      |h.entries| == 1 && h.entries[0].kind == TextCommand && h.entries[0].voice.Some?
      && h.effects == [SetUserVoice(d.uname, h.entries[0].voice.value.voiceType), UpdateUserActivity(d.uname)]
  {
    if d.msg == "我的音色" then
      assert !HasPrefix(d.msg, "换") by { assert d.msg[0] != '换'; }
      var voice := if lk.current.Some? then lk.current else lk.refetched;
      Some(Done(Handled([UpdateUserActivity(d.uname)], [Entry(Commands.QueryMessage(d.uname, lk.current), TextCommand, voice)])))
    else if d.msg == "换音色" || HasPrefix(d.msg, "换") then
      assert HasPrefix(d.msg, "换") by { assert d.msg == "换音色" ==> d.msg[..1] == "换音色"[..1]; }
      assert TrimPrefix(d.msg, "换") == d.msg[1..];
      if d.msg == "换音色" then
        match lk.random
        case None => Some(Panicked(NilDereference))
        case Some(v) => Some(Done(Commands.Switch(d.uname, v, d.uname + " 的播报音色已随机切换为 " + v.name)))
      else if HasPrefix(d.msg, "换") && ByteLen(d.msg) > 1 then
        var voiceName := TrimSpace(TrimPrefix(d.msg, "换"));
        if voiceName != "" && lk.byName.Some? then
          Some(Done(Commands.Switch(d.uname, lk.byName.value, d.uname + " 的播报音色已切换为 " + lk.byName.value.name)))
        else
          match lk.random
          case None => Some(Panicked(NilDereference))
          case Some(v) =>
            if voiceName != "" then
              Some(Done(Commands.Switch(d.uname, v, d.uname + " 指定的音色 \"" + voiceName + "\" 不存在，已随机切换为 " + v.name)))
            else
              Some(Done(Commands.Switch(d.uname, v, d.uname + " 指定的音色不存在，已随机切换为 " + v.name)))
      else
        PrefixedIsLong(d.msg);
        None
    else None
  }

  /** What a decoded danmaku does: its voice command, or one plain entry read by the user's voice. */
  function Handle(d: DanmakuData, lk: Commands.Lookups): (r: Reaction)
    ensures r.Done? || r == Panicked(NilDereference)
    ensures d.msg == "我的音色" ==>
      r.Done? && r.handled.effects == [UpdateUserActivity(d.uname)]
      && |r.handled.entries| == 1 && r.handled.entries[0].kind == TextCommand
      && r.handled.entries[0].text == Commands.QueryMessage(d.uname, lk.current)
      && r.handled.entries[0].voice == (if lk.current.Some? then lk.current else lk.refetched)
    ensures HasPrefix(d.msg, "换") ==>
      (r.Panicked? <==> lk.random.None? && (d.msg == "换音色" || TrimSpace(d.msg[1..]) == "" || lk.byName.None?))
    ensures HasPrefix(d.msg, "换") && r.Done? ==>
      |r.handled.entries| == 1 && r.handled.entries[0].kind == TextCommand && r.handled.entries[0].voice.Some?
      && r.handled.effects == [SetUserVoice(d.uname, r.handled.entries[0].voice.value.voiceType), UpdateUserActivity(d.uname)]
    ensures d.msg == "换音色" && lk.random.Some? ==>
      r.handled.entries[0] == Entry(d.uname + " 的播报音色已随机切换为 " + lk.random.value.name, TextCommand, lk.random)
    ensures HasPrefix(d.msg, "换") && TrimSpace(d.msg[1..]) == "" && lk.random.Some? ==>
      r.handled.entries[0] == Entry(d.uname + " 指定的音色不存在，已随机切换为 " + lk.random.value.name, TextCommand, lk.random)
    ensures HasPrefix(d.msg, "换") && d.msg != "换音色" && TrimSpace(d.msg[1..]) != "" && lk.byName.Some? ==>
      r.handled.entries[0] == Entry(d.uname + " 的播报音色已切换为 " + lk.byName.value.name, TextCommand, lk.byName)
    ensures d.msg != "我的音色" && !HasPrefix(d.msg, "换") ==>
      r == Done(Handled([], [Entry(EventDescription(d), TextNormal, lk.current)]))
  {
    assert HasPrefix(d.msg, "换") ==> TrimPrefix(d.msg, "换") == d.msg[1..];
    match VoiceCommand(d, lk)
    case Some(r) => r
    case None => Done(Handled([], [Entry(EventDescription(d), TextNormal, lk.current)]))
  }

  /** `HandleDanmaku`: undecodable input is returned as the error with nothing done; otherwise the handling, and no error. */
  function HandleDanmaku(decoded: Result<DanmakuData>, lk: Commands.Lookups): (r: Reaction)
    ensures decoded.Err? ==> r == Rejected(decoded.error)
    ensures decoded.Ok? ==> r == Handle(decoded.value, lk) && !r.Rejected?
  {
    match decoded
    case Err(e) => Rejected(e)
    case Ok(d) => Handle(d, lk)
  }

  /** With the catalogue's answers, a danmaku panics exactly when it is a switch and the catalogue holds no voices. */
  lemma CataloguePanics(d: DanmakuData, voices: seq<VoiceConfig.Voice>, nameMap: map<string, VoiceConfig.Voice>,
                        nameChoice: nat, randomChoice: nat,
                        current: Option<VoiceConfig.Voice>, refetched: Option<VoiceConfig.Voice>)
    requires forall k :: k in nameMap ==> nameMap[k] in voices
    ensures var lk := Commands.CatalogueLookups(voices, nameMap, TrimSpace(TrimPrefix(d.msg, "换")), nameChoice, randomChoice, current, refetched);
      Handle(d, lk).Panicked? <==> HasPrefix(d.msg, "换") && |voices| == 0
  {
    var lk := Commands.CatalogueLookups(voices, nameMap, TrimSpace(TrimPrefix(d.msg, "换")), nameChoice, randomChoice, current, refetched);
    if d.msg == "我的音色" {
      assert !HasPrefix(d.msg, "换") by { assert d.msg[0] != '换'; }
    }
  }

  /**
   * The handler and the command table agree: a message is a voice command
   * here exactly when the table routes it, and then the handler does what
   * the routed command does — it panics when the command panics — except
   * that a name with no voice found gets its own message here (the same
   * calls and the same voice).
   */
  lemma AgreesWithCommands(d: DanmakuData, lk: Commands.Lookups)
    ensures VoiceCommand(d, lk).Some? <==> Commands.CheckIfCommand(d.msg).Some?
    ensures Commands.CheckIfCommand(d.msg).Some? ==>
      var (route, arg) := Commands.CheckIfCommand(d.msg).value;
      var h := Commands.Run(route, d.uname, arg, lk);
      var mine := VoiceCommand(d, lk).value;
      (mine.Done? <==> h.Done?)
      && (mine.Done? ==> mine.handled.effects == h.handled.effects && |mine.handled.entries| == 1
                         && mine.handled.entries[0].voice == h.handled.entries[0].voice)
      && (!mine.Done? || route != Commands.SwitchByName || arg == "" || lk.byName.Some? ==> mine == h)
  {
    if d.msg == "我的音色" {
      QueryAgrees(d, lk);
    } else if d.msg == "换音色" {
      RandomSwitchAgrees(d, lk);
    } else if HasPrefix(d.msg, "换") {
      SwitchByNameAgrees(d, lk);
    } else {
      assert d.msg !in Commands.Exact;
    }
  }

  /** The query: the handler's branch is the routed command. */
  lemma QueryAgrees(d: DanmakuData, lk: Commands.Lookups)
    requires d.msg == "我的音色"
    ensures Commands.CheckIfCommand(d.msg) == Some((Commands.QueryVoice, ""))
    ensures VoiceCommand(d, lk) == Some(Commands.Run(Commands.QueryVoice, d.uname, "", lk))
  {
    assert !HasPrefix(d.msg, "换") by { assert d.msg[0] != '换'; }
  }

  /** The random switch: the handler's branch is the routed command. */
  lemma RandomSwitchAgrees(d: DanmakuData, lk: Commands.Lookups)
    requires d.msg == "换音色"
    ensures Commands.CheckIfCommand(d.msg) == Some((Commands.RandomSwitch, ""))
    ensures VoiceCommand(d, lk) == Some(Commands.Run(Commands.RandomSwitch, d.uname, "", lk))
  {
    assert HasPrefix(d.msg, "换") by { assert d.msg[..1] == "换"; }
  }

  /** The switch by name: the handler's branch and the routed command make the same calls, or both panic. */
  lemma SwitchByNameAgrees(d: DanmakuData, lk: Commands.Lookups)
    requires d.msg != "我的音色" && d.msg != "换音色" && HasPrefix(d.msg, "换")
    ensures Commands.CheckIfCommand(d.msg) == Some((Commands.SwitchByName, TrimSpace(d.msg[1..])))
    ensures var h := Commands.Run(Commands.SwitchByName, d.uname, TrimSpace(d.msg[1..]), lk);
      VoiceCommand(d, lk).Some? &&
      var mine := VoiceCommand(d, lk).value;
      (mine.Done? <==> h.Done?)
      && (mine.Done? ==> mine.handled.effects == h.handled.effects && |mine.handled.entries| == 1
                         && mine.handled.entries[0].voice == h.handled.entries[0].voice)
      && (!mine.Done? || TrimSpace(d.msg[1..]) == "" || lk.byName.Some? ==> mine == h)
  {
    assert d.msg !in Commands.Exact;
    PrefixedIsLong(d.msg);
    var arg := TrimSpace(d.msg[1..]);
    assert TrimPrefix(d.msg, "换") == d.msg[1..];
    TrimSpaceIdempotent(d.msg[1..]);
    var h := Commands.Run(Commands.SwitchByName, d.uname, arg, lk);
    assert h == Commands.HandleSwitchVoiceByName(d.uname, arg, lk);
    var u := d.uname;
    if arg != "" && lk.byName.Some? {
      assert VoiceCommand(d, lk) == Some(Done(Commands.Switch(u, lk.byName.value, u + " 的播报音色已切换为 " + lk.byName.value.name)));
    } else if lk.random.None? {
      assert VoiceCommand(d, lk) == Some(Panicked(NilDereference));
    } else if arg == "" {
      var v := lk.random.value;
      assert VoiceCommand(d, lk) == Some(Done(Commands.Switch(u, v, u + " 指定的音色不存在，已随机切换为 " + v.name)));
    } else {
      var v := lk.random.value;
      assert VoiceCommand(d, lk)
          == Some(Done(Commands.Switch(u, v, u + " 指定的音色 \"" + arg + "\" 不存在，已随机切换为 " + v.name)));
    }
  }
}
