/**
 * `MessageHandler.HandleMessage`: the message's `cmd` picks one of nine
 * handlers by exact string equality; anything else is an unknown message
 * type. Decoding the envelope is an input, and each handler's own result is
 * given by `outcomes`.
 */
module Dispatch {
  import opened Wrappers

  datatype Handler =
    | Danmaku | Gift | SuperChat | SuperChatDel | Guard | Like | RoomEnter | LiveStart | LiveEnd

  /** The `cmd` each handler is registered under. */
  function CmdOf(h: Handler): string {
    match h
    case Danmaku => "LIVE_OPEN_PLATFORM_DM"
    case Gift => "LIVE_OPEN_PLATFORM_SEND_GIFT"
    case SuperChat => "LIVE_OPEN_PLATFORM_SUPER_CHAT"
    case SuperChatDel => "LIVE_OPEN_PLATFORM_SUPER_CHAT_DEL"
    case Guard => "LIVE_OPEN_PLATFORM_GUARD"
    case Like => "LIVE_OPEN_PLATFORM_LIKE"
    case RoomEnter => "LIVE_OPEN_PLATFORM_LIVE_ROOM_ENTER"
    case LiveStart => "LIVE_OPEN_PLATFORM_LIVE_START"
    case LiveEnd => "LIVE_OPEN_PLATFORM_LIVE_END"
  }

  /** The `switch` on `cmd`: the handler registered under exactly that string, if any. */
  function Route(cmd: string): (r: Option<Handler>)
    ensures r.Some? ==> CmdOf(r.value) == cmd
  {
    if cmd == "LIVE_OPEN_PLATFORM_DM" then Some(Danmaku)
    else if cmd == "LIVE_OPEN_PLATFORM_SEND_GIFT" then Some(Gift)
    else if cmd == "LIVE_OPEN_PLATFORM_SUPER_CHAT" then Some(SuperChat)
    else if cmd == "LIVE_OPEN_PLATFORM_SUPER_CHAT_DEL" then Some(SuperChatDel)
    else if cmd == "LIVE_OPEN_PLATFORM_GUARD" then Some(Guard)
    else if cmd == "LIVE_OPEN_PLATFORM_LIKE" then Some(Like)
    else if cmd == "LIVE_OPEN_PLATFORM_LIVE_ROOM_ENTER" then Some(RoomEnter)
    else if cmd == "LIVE_OPEN_PLATFORM_LIVE_START" then Some(LiveStart)
    else if cmd == "LIVE_OPEN_PLATFORM_LIVE_END" then Some(LiveEnd)
    else None
  }

  /** Every handler is reached by its own `cmd` and by no other: `Route` and `CmdOf` are inverse. */
  lemma RouteInvertsCmdOf(h: Handler, cmd: string)
    ensures Route(CmdOf(h)) == Some(h)
    ensures Route(cmd) == Some(h) <==> cmd == CmdOf(h)
  {
    match h
    case Danmaku =>
    case Gift => assert CmdOf(h)[20] != CmdOf(Danmaku)[20];
    case SuperChat => assert CmdOf(h)[20] != "LIVE_OPEN_PLATFORM_DM"[20] && CmdOf(h)[20] != "LIVE_OPEN_PLATFORM_SEND_GIFT"[20];
    case SuperChatDel =>
      assert |CmdOf(h)| != |"LIVE_OPEN_PLATFORM_SUPER_CHAT"|;
      assert CmdOf(h)[20] != "LIVE_OPEN_PLATFORM_DM"[20] && CmdOf(h)[20] != "LIVE_OPEN_PLATFORM_SEND_GIFT"[20];
    case Guard => assert CmdOf(h)[19] == 'G';
    case Like => assert CmdOf(h)[19] == 'L' && CmdOf(h)[20] == 'I' && CmdOf(h)[21] == 'K';
    case RoomEnter => assert CmdOf(h)[19] == 'L' && CmdOf(h)[21] == 'V' && CmdOf(h)[24] == 'R';
    case LiveStart => assert CmdOf(h)[19] == 'L' && CmdOf(h)[21] == 'V' && CmdOf(h)[24] == 'S';
    case LiveEnd => assert CmdOf(h)[19] == 'L' && CmdOf(h)[21] == 'V' && CmdOf(h)[24] == 'E';
  }

  /** The interaction-end message is not routed: its case is commented out. */
  lemma InteractionEndIsUnknown()
    ensures Route("LIVE_OPEN_PLATFORM_INTERACTION_END") == None
  {
    assert |"LIVE_OPEN_PLATFORM_INTERACTION_END"| == 34;
    assert "LIVE_OPEN_PLATFORM_INTERACTION_END"[19] == 'I';
  }

  /**
   * `HandleMessage`: an envelope that does not decode is its error; a known
   * `cmd` returns what its handler returns; any other `cmd` is refused.
   */
  function HandleMessage(cmd: Result<string>, outcomes: Handler -> Outcome): (r: Outcome)
    ensures cmd.Err? ==> r == Fail(cmd.error)
    ensures cmd.Ok? && Route(cmd.value).Some? ==> r == outcomes(Route(cmd.value).value)
    ensures cmd.Ok? && Route(cmd.value).None? ==> r == Fail("未知的消息类型: " + cmd.value)
  {
    match cmd
    case Err(e) => Fail(e)
    case Ok(c) =>
      match Route(c)
      case Some(h) => outcomes(h)
      case None => Fail("未知的消息类型: " + c)
  }
}
