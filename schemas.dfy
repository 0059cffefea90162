/**
 * The data the bot exchanges: OneBot 11 message segments and group-message events
 * (what the platform posts to the bot), OpenAI-style chat turns, tool calls and model
 * descriptors (what the bot sends to completion endpoints), and the HTTP response the
 * bot returns to the platform as a OneBot "quick operation".
 */
module Schemas {
  import opened Js

  /** One OneBot 11 message segment; `Other` stands for every segment type the code does not inspect. */
  datatype Segment =
    | Text(text: string)
    | At(qq: string)          // `qq` is a QQ number as text, or "all"
    | Forward(id: string)     // a merged-forward id, resolved through `get_forward_msg`
    | Image(url: string)
    | Other(kind: string)

  datatype Sender = Sender(userId: int, nickname: string)

  /** A group-message event as posted by the platform. */
  datatype GroupMessageEvent = GroupMessageEvent(
    selfId: int, userId: int, groupId: int, messageId: int,
    message: seq<Segment>, sender: Sender)

  /** One message of a merged forward, as `get_forward_msg` returns it. */
  datatype ForwardMessage = ForwardMessage(content: seq<Segment>, sender: Sender, time: int)

  /** One text segment of a forwarded message together with who sent it and when. */
  datatype ForwardMessageSingle = ForwardMessageSingle(segment: Segment, sender: Sender, time: int)

  datatype Role = System | User | Assistant | Tool

  /** A tool call requested by a completion; `kind` is its `type` ("function" for function tools). */
  datatype ToolCall = ToolCall(id: string, kind: string, name: string, arguments: string)

  /**
   * A chat turn. `content` is "" where the endpoint sent no content; `toolCalls` is
   * `None` where the completion carried no `tool_calls` field at all.
   */
  datatype Turn = Turn(
    role: Role, content: string, name: Option<string>,
    toolCallId: Option<string>, toolCalls: Option<seq<ToolCall>>)

  /** A completion-endpoint descriptor (credentials and transport options are not modelled). */
  datatype Model = Model(
    name: string, aliases: seq<string>, model: string, maxTokens: int, useCase: Option<string>)

  /** One argument of `reply(...)`: a plain string or a ready-made segment. */
  datatype ReplyArg = Str(s: string) | Seg(segment: Segment)

  /** The `reply` field of a quick operation. */
  datatype ReplyField =
    | PlainText(text: string)          // a bare string
    | Segments(segments: seq<Segment>) // an array of segments
    | RawArgs(args: seq<ReplyArg>)     // the caller's arguments passed through untouched

  datatype QuickReply = QuickReply(reply: ReplyField, atSender: bool)

  /** An HTTP response: its status, its JSON body if any, and whether it says `Content-Type: application/json`. */
  datatype HttpResponse = HttpResponse(status: int, body: Option<QuickReply>, jsonContentType: bool)

  /** What an async handler settles to: a response, or a rejection with the thrown error's message. */
  datatype HandlerResult = Replied(response: HttpResponse) | Threw(message: string)

  function SystemTurn(content: string): Turn {
    Turn(System, content, None, None, None)
  }

  function AssistantTurn(content: string): Turn {
    Turn(Assistant, content, None, None, None)
  }
}
