/**
 * Routing of messages that are not commands: an abbreviation made of ASCII letters goes
 * to the abbreviation decoder, everything else to the chat.
 */
module NonCommands {
  import opened Js
  import opened Schemas
  import OnebotUtils

  const ParseFailureMessage := "消息解析失败了，快找群主排查！"

  /** The decoder's ignored words. */
  const IgnoredTexts := ["myspoon", "myfork"]

  /** Where `handleMessages` sends the turns. */
  datatype Route = ParseFailure | Abbreviation(text: string) | Chat

  /**
   * `handleMessages(messages, e)`'s decision: no turns is a parse failure; a first turn
   * whose content matches `/^[A-Za-z]+$/` and is not ignored goes to the decoder with that
   * content; anything else goes to the chat with all the turns.
   */
  function RouteOf(messages: seq<Turn>): (r: Route)
    ensures r == ParseFailure <==> messages == []
    ensures r.Abbreviation? <==> messages != [] && IsAsciiWord(messages[0].content) && messages[0].content !in IgnoredTexts
    ensures r.Abbreviation? ==> r.text == messages[0].content
  {
    if |messages| == 0 then ParseFailure
    else
      var text1 := messages[0].content;
      if IsAsciiWord(text1) && text1 !in IgnoredTexts then Abbreviation(text1) else Chat
  }

  /**
   * The reply: the parse-failure text, the decoder's reply, or the chat's outcome.
   * `decode` is the decoder's reply for a text, `chat` what `ai.chat(messages, e)` settles to.
   */
  function HandleMessages(messages: seq<Turn>, decode: string -> HttpResponse, chat: HandlerResult): (r: HandlerResult)
    ensures messages == [] ==> r == Replied(OnebotUtils.ReplyText(ParseFailureMessage))
    ensures RouteOf(messages).Abbreviation? ==> r == Replied(decode(messages[0].content))
    ensures RouteOf(messages).Chat? ==> r == chat
  {
    match RouteOf(messages)
    case ParseFailure => Replied(OnebotUtils.ReplyText(ParseFailureMessage))
    case Abbreviation(text) => Replied(decode(text))
    case Chat => chat
  }

  /** Only the first turn is inspected: turns after it never change the route. */
  lemma OnlyFirstTurnInspected(messages: seq<Turn>, others: seq<Turn>)
    requires messages != [] && others != [] && others[0].content == messages[0].content
    ensures RouteOf(messages) == RouteOf(others)
  {
  }

  /** The ignored words and anything with a non-letter (a space, a digit, CJK text, the empty string) go to the chat. */
  lemma NonWordsChat(t: Turn, rest: seq<Turn>, k: nat)
    requires t.content in IgnoredTexts || t.content == "" || (k < |t.content| && !IsAsciiLetter(t.content[k]))
    ensures RouteOf([t] + rest) == Chat
  {
  }

  /** A word of ASCII letters outside the ignored list is decoded, whatever follows it. */
  lemma LettersDecoded(t: Turn, rest: seq<Turn>)
    requires IsAsciiWord(t.content) && t.content != "myspoon" && t.content != "myfork"
    ensures RouteOf([t] + rest) == Abbreviation(t.content)
  {
  }
}
