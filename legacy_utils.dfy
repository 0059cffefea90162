/**
 * The oldest generation's quick-operation reply. Its segment helpers are the same code as
 * the middle generation's and are modelled once, in `SegmentUtils`.
 */
module LegacyUtils {
  import opened Js
  import opened Schemas
  import OnebotUtils

  /**
   * `reply(...segments)`: exactly one string argument is sent as a bare string; anything
   * else (no arguments included) is sent as the argument array untouched. The response is
   * always a 200 JSON response replying to the sender.
   */
  function Reply(args: seq<ReplyArg>): (r: HttpResponse)
    ensures r.status == 200 && r.jsonContentType
    ensures r.body.Some? && r.body.value.atSender
    ensures r.body.value.reply.PlainText? <==> |args| == 1 && args[0].Str?
    ensures r.body.value.reply.PlainText? ==> r.body.value.reply.text == args[0].s
    ensures !r.body.value.reply.PlainText? ==> r.body.value.reply == RawArgs(args)
  {
    var isSimpleText := |args| == 1 && args[0].Str?;
    HttpResponse(200, Some(QuickReply(if isSimpleText then PlainText(args[0].s) else RawArgs(args), true)), true)
  }

  /**
   * Against the newer `reply`: the empty reply is a 200 with an empty array here but an
   * empty 204 there, and a single string is a bare string here but a one-text-segment array there.
   */
  lemma ReplyAgainstNewer(text: string)
    ensures Reply([]).status == 200 && Reply([]).body.value.reply == RawArgs([])
    ensures OnebotUtils.Reply([]).status == 204
    ensures Reply([Str(text)]).body.value.reply == PlainText(text)
    ensures OnebotUtils.Reply([Str(text)]).body.value.reply == Segments([Text(text)])
  {
  }
}
