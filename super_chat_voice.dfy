/**
 * The paid-message (SuperChat) announcement: the thanks with the amount, a
 * blessing, and the message itself trimmed and cut to 150 runes. The
 * random blessing pick is an index `choice`; the voice lookup and the
 * speech call are outside the model.
 */
module SuperChatVoice {
  import opened Text
  import Events

  /** The blessings the announcement picks from. */
  const BlessingPrefixes: seq<string> := [
    "祝您好运连连",
    "祝您心想事成",
    "祝您身体健康",
    "祝您工作顺利",
    "祝您天天开心",
    "祝您财源广进"
  ]

  /** The most runes of a message read out before it is cut. */
  const MaxMessageRunes := 150

  /** `getThankText`: the thanks template with the user's name and the amount in yuan. */
  function GetThankText(username: string, amount: int): (r: string)
    ensures HasPrefix(r, "感谢") && OccursAt(r, username, 2) && HasSuffix(r, "元留言")
    ensures HasSuffix(r, Itoa(amount) + "元留言")
  {
    "感谢" + username + "对主播的" + Itoa(amount) + "元留言"
  }

  /**
   * `formatMessage`: the message without surrounding space; past 150 runes
   * only the first 150 are kept, followed by "...".
   */
  function FormatMessage(message: string): (r: string)
    ensures |r| <= MaxMessageRunes + 3
    ensures r == "" <==> TrimSpace(message) == ""
    ensures |TrimSpace(message)| <= MaxMessageRunes ==> r == TrimSpace(message)
    ensures |TrimSpace(message)| > MaxMessageRunes ==>
      |r| == MaxMessageRunes + 3 && r[..MaxMessageRunes] == TrimSpace(message)[..MaxMessageRunes] && r[MaxMessageRunes..] == "..."
  {
    var m := TrimSpace(message);
    if |m| > MaxMessageRunes then m[..MaxMessageRunes] + "..." else m
  }

  /** Formatting a formatted message changes nothing: a cut message already has no space at either end and is cut the same way again. */
  lemma FormatMessageIdempotent(message: string)
    ensures FormatMessage(FormatMessage(message)) == FormatMessage(message)
  {
    var m := TrimSpace(message);
    var r := FormatMessage(message);
    if |m| > MaxMessageRunes {
      assert r == m[..MaxMessageRunes] + "...";
      assert !IsSpace(r[0]) by { assert r[0] == m[0]; }
      assert !IsSpace(r[|r| - 1]);
      TrimSpaceOfTrimmed(r);
      assert r[..MaxMessageRunes] == m[..MaxMessageRunes];
    } else {
      TrimSpaceIdempotent(message);
    }
  }

  /** What follows the blessing: the formatted message, or the note that there is none. */
  function MessagePart(formatted: string): string {
    if formatted != "" then " 他对主播说：" + formatted else " 但没有留言内容"
  }

  /**
   * `getSuperChatText`: thanks, then "，" and a blessing (every blessing is
   * non-empty, so it is never left out), then the message part.
   */
  function GetSuperChatText(sc: Events.SuperChatData, choice: nat): (r: string)
    ensures exists b :: (b in BlessingPrefixes && b != "" &&
                         r == GetThankText(sc.uname, sc.rmb) + "，" + b + MessagePart(FormatMessage(sc.message)))
  {
    var thankText := GetThankText(sc.uname, sc.rmb);
    var blessingPrefix := BlessingPrefixes[choice % |BlessingPrefixes|];
    assert blessingPrefix in BlessingPrefixes;
    var formattedMessage := FormatMessage(sc.message);
    var result := thankText;
    var result := if blessingPrefix != "" then result + "，" + blessingPrefix else result;
    if formattedMessage != "" then result + " 他对主播说：" + formattedMessage
    else result + " 但没有留言内容"
  }

  /** A message that is blank once trimmed is announced as having no content. */
  lemma BlankMessageIsNoted(sc: Events.SuperChatData, choice: nat)
    requires TrimSpace(sc.message) == ""
    ensures HasSuffix(GetSuperChatText(sc, choice), " 但没有留言内容")
  {
    var r := GetSuperChatText(sc, choice);
    var b :| b in BlessingPrefixes && b != "" &&
      r == GetThankText(sc.uname, sc.rmb) + "，" + b + MessagePart(FormatMessage(sc.message));
    assert MessagePart(FormatMessage(sc.message)) == " 但没有留言内容";
  }
}
