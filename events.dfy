/**
 * The live-room events the handlers and the voice builders read, with the
 * fields they use. JSON decoding of the long connection's payloads is
 * outside the model: a handler receives what decoding produced. A handler's
 * effects on the user-voice store and on the task window are returned as
 * values, in the order the handler performs them.
 */
module Events {
  import opened Wrappers
  import VoiceConfig

  datatype DanmakuData = DanmakuData(uname: string, msg: string, guardLevel: int, replyUName: string)

  datatype GuardData = GuardData(uname: string, guardLevel: int, guardNum: int, guardUnit: string, price: int)

  datatype LikeData = LikeData(uname: string, likeCount: int)

  /** A gift; `price` is the unit price in thousandths of a yuan. */
  datatype GiftData = GiftData(uname: string, giftName: string, giftNum: int, price: int, paid: bool)

  /** A paid message; `rmb` is the amount in whole yuan. */
  datatype SuperChatData = SuperChatData(uname: string, message: string, rmb: int)

  datatype RoomEnterData = RoomEnterData(uname: string)

  datatype LiveData = LiveData(roomID: int)

  /** How the task window treats a text: to be answered by the LLM, read out as it is, or a command's answer. */
  datatype TextType = TextNormal | TextNoLLMReply | TextCommand

  /** One `AddText` call: the text, its type and the voice to read it with. */
  datatype Entry = Entry(text: string, kind: TextType, voice: Option<VoiceConfig.Voice>)

  /** One call into the user-voice store. */
  datatype UserEffect = SetUserVoice(user: string, voiceType: string) | UpdateUserActivity(user: string)

  /** What a handler did: its store calls and its `AddText` calls, each in order. */
  datatype Handled = Handled(effects: seq<UserEffect>, entries: seq<Entry>)

  /**
   * The handler's answer: an error and nothing done, success and what it
   * did, or a run-time panic. The event loop recovers a handler's panic and
   * logs it, so a panicking handler has done only the calls it made before
   * the panic.
   */
  datatype Reaction = Rejected(error: string) | Done(handled: Handled) | Panicked(reason: string)

  /** The panic of reading a field through a nil pointer. */
  const NilDereference: string := "invalid memory address or nil pointer dereference"

  /** The single `AddText` call of a handler that does nothing else. */
  function Enqueue(text: string, kind: TextType, voice: Option<VoiceConfig.Voice>): Reaction {
    Done(Handled([], [Entry(text, kind, voice)]))
  }
}
