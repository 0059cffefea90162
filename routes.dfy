/**
 * The newer request handler, `rootRoute.POST`: gate the event, guard the group with the
 * process-wide pending list, append the inbound turn to the group's history and run the
 * request loop with its tool-round limit, then reply.
 */
module Routes {
  import opened Js
  import opened Schemas
  import opened Store
  import opened ToolLoop
  import OnebotUtils

  const BusyMessage := "正在处理上一条消息，请稍候……"
  const EmptyContentReply := "……"

  /**
   * The event passes the gate: it validated, and it @-mentions the bot or the random
   * draw came out at or below the reply probability (`randomAbove` is
   * `Math.random() > REPLY_PROBABILITY_NOT_BE_AT`).
   */
  predicate Admitted(validation: Option<GroupMessageEvent>, randomAbove: bool, number: string -> Option<int>) {
    validation.Some? && (OnebotUtils.AtSelfIndex(validation.value, number) != -1 || !randomAbove)
  }

  /** The reply for what the loop settled to: the error's message, the normalised content, or "……" for empty content. */
  function LoopReply(response: Result<Turn>, normalize: string -> string): (r: HttpResponse)
    ensures response.Err? ==> r == OnebotUtils.ReplyText(response.message)
    ensures response.Ok? && response.value.content != "" ==> r == OnebotUtils.ReplyText(normalize(response.value.content))
    ensures response.Ok? && response.value.content == "" ==> r == OnebotUtils.ReplyText(EmptyContentReply)
  {
    match response
    case Err(message) => OnebotUtils.ReplyText(message)
    case Ok(completion) =>
      if completion.content != "" then OnebotUtils.ReplyText(normalize(completion.content))
      else OnebotUtils.ReplyText(EmptyContentReply)
  }

  /** The history the request loop starts from: the group's turns (or the seed), then the inbound turn. */
  function LoopStart(before: seq<Turn>, inbound: Turn): seq<Turn> {
    before + [inbound]
  }

  /**
   * `rootRoute.POST(req)`. `validation` is the parsed event (`None` when the body fails
   * the schema), `inbound` what `onebotToOpenai(e)` resolves to or rejects with,
   * `complete` the endpoint's answer for the turns sent, `handle` what
   * `chooseAndHandleTool` resolves to, `firstCount` the counter `loopUntil` starts at and
   * `exhausted` its rejection once `maxToolCount` retries are used up; `normalize` is
   * `normalizeText`.
   */
  method Post(pending: PendingList, store: GroupHistories, validation: Option<GroupMessageEvent>, randomAbove: bool,
              number: string -> Option<int>, systemPrompt: string, inbound: Result<Turn>,
              complete: seq<Turn> -> Result<Turn>, handle: ToolCall -> Result<string>, maxToolCount: nat,
              firstCount: int, exhausted: string, normalize: string -> string) returns (r: HandlerResult)
    requires store.Valid()
    modifies pending, store, store.lists.Values
    ensures store.Valid()
    ensures !Admitted(validation, randomAbove, number) ==>
              r == Replied(OnebotUtils.Reply([])) && pending.ids == old(pending.ids) && store.lists == old(store.lists) &&
              forall g :: g in store.lists ==> store.lists[g].turns == old(store.lists[g].turns)
    ensures Admitted(validation, randomAbove, number) && validation.value.groupId in old(pending.ids) ==>
              r == Replied(OnebotUtils.ReplyText(BusyMessage)) && pending.ids == old(pending.ids) &&
              store.lists == old(store.lists) &&
              forall g :: g in store.lists ==> store.lists[g].turns == old(store.lists[g].turns)
    ensures Admitted(validation, randomAbove, number) && validation.value.groupId !in old(pending.ids) ==>
              var g := validation.value.groupId;
              var before := if g in old(store.lists) then old(store.lists[g].turns) else HistorySeed(systemPrompt);
              g in store.lists &&
              (inbound.Err? ==>
                 r == Threw(inbound.message) && pending.ids == old(pending.ids) + [g] && store.lists[g].turns == before) &&
              (inbound.Ok? ==>
                 var end := Loop(LoopStart(before, inbound.value), complete, handle, Some(maxToolCount), firstCount,
                                 maxToolCount, exhausted);
                 r == Replied(LoopReply(end.response, normalize)) && pending.ids == old(pending.ids) &&
                 store.lists[g].turns == end.turns)
    ensures forall g :: g in old(store.lists) && (validation.None? || g != validation.value.groupId) ==>
              g in store.lists && store.lists[g].turns == old(store.lists[g].turns)
  {
    if validation.None? {
      return Replied(OnebotUtils.Reply([]));
    }
    var e := validation.value;
    var atSegmentIndex := OnebotUtils.AtSelfIndex(e, number);
    if atSegmentIndex == -1 && randomAbove {
      return Replied(OnebotUtils.Reply([]));
    }

    var groupId := e.groupId;
    if pending.Includes(groupId) {
      return Replied(OnebotUtils.ReplyText(BusyMessage));
    }
    var served := ServeGroup(pending, store, groupId, HistorySeed(systemPrompt),
                             if inbound.Ok? then Ok([inbound.value]) else Err(inbound.message),
                             complete, handle, Some(maxToolCount), firstCount, maxToolCount, exhausted);
    r := if served.Err? then Threw(served.message) else Replied(LoopReply(served.value, normalize));
  }

  /**
   * An answered request leaves the history with its old turns, the inbound turn, and
   * everything the loop appended, whether the loop succeeded or failed: nothing is rolled back.
   */
  lemma NoRollback(before: seq<Turn>, inbound: Turn, complete: seq<Turn> -> Result<Turn>, handle: ToolCall -> Result<string>,
                   maxToolCount: nat, firstCount: int, exhausted: string)
    ensures var end := Loop(LoopStart(before, inbound), complete, handle, Some(maxToolCount), firstCount, maxToolCount, exhausted);
            |end.turns| > |before| && end.turns[..|before|] == before && end.turns[|before|] == inbound
  {
    var start := LoopStart(before, inbound);
    LoopOnlyAppends(start, complete, handle, Some(maxToolCount), firstCount, maxToolCount, exhausted);
    var end := Loop(start, complete, handle, Some(maxToolCount), firstCount, maxToolCount, exhausted);
    assert end.turns[..|before|] == end.turns[..|start|][..|before|];
    assert end.turns[|before|] == end.turns[..|start|][|before|];
  }

  /**
   * A first completion without tool calls: the history gains the inbound turn and that
   * completion, and the reply is its normalised content (or "……").
   */
  lemma DirectAnswer(before: seq<Turn>, inbound: Turn, complete: seq<Turn> -> Result<Turn>, handle: ToolCall -> Result<string>,
                     maxToolCount: nat, firstCount: int, exhausted: string, normalize: string -> string)
    requires complete(before + [inbound]).Ok? && complete(before + [inbound]).value.toolCalls.None?
    ensures var c := complete(before + [inbound]).value;
            var end := Loop(LoopStart(before, inbound), complete, handle, Some(maxToolCount), firstCount, maxToolCount, exhausted);
            end.turns == before + [inbound, c] &&
            LoopReply(end.response, normalize) ==
            OnebotUtils.ReplyText(if c.content != "" then normalize(c.content) else EmptyContentReply)
  {
    StopsWithoutToolCalls(before + [inbound], complete, handle, Some(maxToolCount), firstCount, maxToolCount, exhausted);
  }
}
