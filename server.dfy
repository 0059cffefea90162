/**
 * The older request handler, the `"/"` POST route of the server. As written its @-lookup
 * never matches, so it answers nothing (`PostAsWritten`). With the lookup corrected
 * (`Post`), only messages that @-mention the bot and say something besides are answered;
 * the group is guarded by the pending list, all inbound turns join its history, and the
 * request loop runs without a tool-round limit of its own.
 */
module Server {
  import opened Js
  import opened Schemas
  import opened Store
  import opened ToolLoop
  import OnebotUtils

  const BusyMessage := "正在处理上一条消息，请稍候……"
  const EmptyContentReply := "……"

  /** `e.message.toSpliced(atSegmentIndex, 1)`: the message without the @-mention. */
  function RestSegments(message: seq<Segment>, atSegmentIndex: nat): (r: seq<Segment>)
    requires atSegmentIndex < |message|
    ensures |r| == |message| - 1
    ensures r == message[..atSegmentIndex] + message[atSegmentIndex + 1..]
  {
    SpliceOne(message, atSegmentIndex)
  }

  /** The event is answered: it validated, @-mentions the bot, and has at least one other segment. */
  predicate Addressed(validation: Option<GroupMessageEvent>, number: string -> Option<int>) {
    validation.Some? && OnebotUtils.AtSelfIndex(validation.value, number) != -1 &&
    |RestSegments(validation.value.message, OnebotUtils.AtSelfIndex(validation.value, number))| > 0
  }

  /** The gate of `src/index.ts` as written: the @-lookup passes `findIndex`'s index as the event. */
  predicate AddressedAsWritten(validation: Option<GroupMessageEvent>, number: string -> Option<int>) {
    validation.Some? && OnebotUtils.AtSelfIndexAsWritten(validation.value.message, number) != -1
  }

  /** As written, no event passes the gate, however it @-mentions the bot. */
  lemma NeverAddressedAsWritten(validation: Option<GroupMessageEvent>, number: string -> Option<int>)
    ensures !AddressedAsWritten(validation, number)
  {
  }

  /** A validated event is answered exactly when it @-mentions the bot and has more than that one segment. */
  lemma AddressedIffMentionAndMore(e: GroupMessageEvent, number: string -> Option<int>)
    ensures Addressed(Some(e), number) <==>
            (exists k :: 0 <= k < |e.message| && OnebotUtils.IsAtSelfSegment(Some(e.message[k]), Some(e.selfId), number)) &&
            |e.message| > 1
  {
    if exists k :: 0 <= k < |e.message| && OnebotUtils.IsAtSelfSegment(Some(e.message[k]), Some(e.selfId), number) {
      assert OnebotUtils.AtSelfIndex(e, number) != -1;
    }
  }

  /** The reply for what the loop settled to: the error's message, the content, or "……" for empty content. */
  function LoopReply(response: Result<Turn>): (r: HttpResponse)
    ensures response.Err? ==> r == OnebotUtils.ReplyText(response.message)
    ensures response.Ok? ==>
              r == OnebotUtils.ReplyText(if response.value.content != "" then response.value.content else EmptyContentReply)
  {
    match response
    case Err(message) => OnebotUtils.ReplyText(message)
    case Ok(completion) =>
      if completion.content != "" then OnebotUtils.ReplyText(completion.content) else OnebotUtils.ReplyText(EmptyContentReply)
  }

  /**
   * The `"/"` POST handler AS WRITTEN: `e.message.findIndex(isAtSelfSegment)` never finds
   * the @-mention, so every request gets the empty 204 reply before the pending list or any
   * history is touched.
   */
  method PostAsWritten(pending: PendingList, store: GroupHistories, validation: Option<GroupMessageEvent>,
                       number: string -> Option<int>, systemPrompt: string, inbound: Result<seq<Turn>>,
                       complete: seq<Turn> -> Result<Turn>, handle: ToolCall -> Result<string>,
                       retries: nat, exhausted: string) returns (r: HandlerResult)
    requires store.Valid()
    modifies pending, store, store.lists.Values
    ensures r == Replied(OnebotUtils.Reply([]))
    ensures pending.ids == old(pending.ids) && store.lists == old(store.lists)
    ensures forall g :: g in store.lists ==> store.lists[g].turns == old(store.lists[g].turns)
  {
    if validation.None? {
      return Replied(OnebotUtils.Reply([]));
    }
    var e := validation.value;
    var atSegmentIndex := OnebotUtils.AtSelfIndexAsWritten(e.message, number);
    if atSegmentIndex == -1 {
      return Replied(OnebotUtils.Reply([]));
    }
    // the lookup is always -1: the rest of the handler is never reached
    assert false;
  }

  /**
   * The `"/"` POST handler with the @-lookup evidently intended (the first segment that
   * @-mentions `e.self_id`). `validation` is the parsed event (`None` when the body fails
   * the schema), `inbound` what `onebotToOpenai(e)` resolves to or rejects with,
   * `complete` the endpoint's answer for the turns sent, `handle` what
   * `chooseAndHandleTool` resolves to; `retries` and `exhausted` stand for the retry
   * budget `loopUntil` applies when given none, and its rejection once that is used up.
   */
  method Post(pending: PendingList, store: GroupHistories, validation: Option<GroupMessageEvent>,
              number: string -> Option<int>, systemPrompt: string, inbound: Result<seq<Turn>>,
              complete: seq<Turn> -> Result<Turn>, handle: ToolCall -> Result<string>,
              retries: nat, exhausted: string) returns (r: HandlerResult)
    requires store.Valid()
    modifies pending, store, store.lists.Values
    ensures store.Valid()
    ensures !Addressed(validation, number) ==>
              r == Replied(OnebotUtils.Reply([])) && pending.ids == old(pending.ids) && store.lists == old(store.lists) &&
              forall g :: g in store.lists ==> store.lists[g].turns == old(store.lists[g].turns)
    ensures Addressed(validation, number) && validation.value.groupId in old(pending.ids) ==>
              r == Replied(OnebotUtils.ReplyText(BusyMessage)) && pending.ids == old(pending.ids) &&
              store.lists == old(store.lists) &&
              forall g :: g in store.lists ==> store.lists[g].turns == old(store.lists[g].turns)
    ensures Addressed(validation, number) && validation.value.groupId !in old(pending.ids) ==>
              var g := validation.value.groupId;
              var before := if g in old(store.lists) then old(store.lists[g].turns) else HistorySeed(systemPrompt);
              g in store.lists &&
              (inbound.Err? ==>
                 r == Threw(inbound.message) && pending.ids == old(pending.ids) + [g] && store.lists[g].turns == before) &&
              (inbound.Ok? ==>
                 var end := Loop(before + inbound.value, complete, handle, None, 0, retries, exhausted);
                 r == Replied(LoopReply(end.response)) && pending.ids == old(pending.ids) &&
                 store.lists[g].turns == end.turns)
    ensures forall g :: g in old(store.lists) && (validation.None? || g != validation.value.groupId) ==>
              g in store.lists && store.lists[g].turns == old(store.lists[g].turns)
  {
    if validation.None? {
      return Replied(OnebotUtils.Reply([]));
    }
    var e := validation.value;
    var atSegmentIndex := OnebotUtils.AtSelfIndex(e, number);
    if atSegmentIndex == -1 {
      return Replied(OnebotUtils.Reply([]));
    }
    var restSegments := RestSegments(e.message, atSegmentIndex);
    if |restSegments| == 0 {
      return Replied(OnebotUtils.Reply([]));
    }

    var groupId := e.groupId;
    if pending.Includes(groupId) {
      return Replied(OnebotUtils.ReplyText(BusyMessage));
    }
    // the handler passes no limit, and its loop body ignores the counter
    var served := ServeGroup(pending, store, groupId, HistorySeed(systemPrompt), inbound,
                             complete, handle, None, 0, retries, exhausted);
    r := if served.Err? then Threw(served.message) else Replied(LoopReply(served.value));
  }

  /**
   * All inbound turns join the history in order, ahead of everything the loop appends;
   * none of it is taken back when the loop fails.
   */
  lemma InboundTurnsKept(before: seq<Turn>, inbound: seq<Turn>, complete: seq<Turn> -> Result<Turn>,
                         handle: ToolCall -> Result<string>, retries: nat, exhausted: string)
    ensures var end := Loop(before + inbound, complete, handle, None, 0, retries, exhausted);
            |end.turns| >= |before| + |inbound| && end.turns[..|before|] == before &&
            end.turns[|before|..|before| + |inbound|] == inbound
  {
    var start := before + inbound;
    LoopOnlyAppends(start, complete, handle, None, 0, retries, exhausted);
    var end := Loop(start, complete, handle, None, 0, retries, exhausted);
    assert end.turns[..|before|] == end.turns[..|start|][..|before|];
    assert end.turns[|before|..|start|] == end.turns[..|start|][|before|..];
  }

  /**
   * With no limit of its own, the handler's loop only fails through the endpoint, a tool,
   * or the retry budget running out: never with the tool-round limit message.
   */
  lemma {:induction false} NoToolRoundLimit(history: seq<Turn>, complete: seq<Turn> -> Result<Turn>,
                                            handle: ToolCall -> Result<string>, count: int, retries: nat,
                                            exhausted: string, maxToolCount: nat)
    requires exhausted != LimitMessage(maxToolCount)
    requires forall h :: complete(h).Err? ==> complete(h).message != LimitMessage(maxToolCount)
    requires forall c :: handle(c).Err? ==> handle(c).message != LimitMessage(maxToolCount)
    ensures Loop(history, complete, handle, None, count, retries, exhausted).response != Err(LimitMessage(maxToolCount))
    decreases retries
  {
    var step := Round(history, complete, handle, None, count);
    if step.outcome.Failed? {
      NoLimitNoLimitFailure(history, complete, handle, count, step.outcome.message);
    } else if step.outcome.Again? && retries > 0 {
      NoToolRoundLimit(step.turns, complete, handle, count + 1, retries - 1, exhausted, maxToolCount);
    }
  }
}
