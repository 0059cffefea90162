/**
 * The single-file AI handler: the chat-model list with a switchable active model, the
 * groups with a reply in flight, and group chat over the per-group history.
 */
module AiLegacy {
  import opened Js
  import opened Schemas
  import opened Store
  import opened ModelSelection
  import opened AiCompletions
  import OpenAiUtils
  import OnebotUtils

  const BusyMessage := "正在处理上一条消息，请稍候……"
  const FailurePrefix := "消息生成失败："

  /** `models[0]`, `undefined` for an empty list. */
  function FirstModel(models: seq<Model>): (r: Option<Model>)
    ensures r.Some? <==> |models| > 0
    ensures r.Some? ==> r.value == models[0]
  {
    if |models| > 0 then Some(models[0]) else None
  }

  /** The turns a group's history starts with: the system prompt, then the bot's identity prompt. */
  function ChatSeed(systemPrompt: string, identityPrompt: string): seq<Turn> {
    [SystemTurn(systemPrompt), SystemTurn(identityPrompt)]
  }

  /** The reply `chat` answers with, given the completion's outcome. */
  function ChatReply(result: Result<string>): (r: HttpResponse)
    ensures result.Err? ==> r == OnebotUtils.ReplyText(FailurePrefix + result.message)
    ensures result.Ok? ==> r == OnebotUtils.ReplyText(result.value)
  {
    match result
    case Err(message) => OnebotUtils.ReplyText(FailurePrefix + message)
    case Ok(text) => OnebotUtils.ReplyText(text)
  }

  /**
   * The group's history after the completion, given the conversation sent: unchanged on
   * failure (the inbound turns stay); on success possibly truncated, then the answer appended.
   */
  function HistoryAfterChat(conversation: seq<Turn>, model: Option<Model>, response: Result<ApiResponse>): seq<Turn> {
    match Completion(model, response)
    case Err(_) => conversation
    case Ok(text) =>
      (if ShouldTruncate(model.value, response.value) then Truncated(conversation) else conversation) +
      [AssistantTurn(text)]
  }

  /** What the caller's array of inbound turns becomes: its last turn goes on failure. */
  function CallerTurnsAfterChat(messages: seq<Turn>, model: Option<Model>, response: Result<ApiResponse>): seq<Turn> {
    if Completion(model, response).Err? && messages != [] then messages[..|messages| - 1] else messages
  }

  /** On failure the inbound turns stay in the group's history, though the caller's array loses its last turn. */
  lemma FailureKeepsInboundInHistory(before: seq<Turn>, inbound: seq<Turn>, model: Option<Model>, response: Result<ApiResponse>)
    requires Completion(model, response).Err? && |inbound| > 0
    ensures HistoryAfterChat(before + inbound, model, response) == before + inbound
    ensures |CallerTurnsAfterChat(inbound, model, response)| == |inbound| - 1
  {
  }

  /**
   * The module's state. `exportedActiveModel` is the `activeModel` field of the default
   * export, bound once when the module loads.
   */
  class AiModule {
    const models: seq<Model>
    var activeModel: Option<Model>
    const exportedActiveModel: Option<Model>
    var pendingGroupIds: seq<int>

    constructor (models: seq<Model>)
      ensures this.models == models
      ensures activeModel == FirstModel(models) && exportedActiveModel == FirstModel(models)
      ensures pendingGroupIds == []
    {
      this.models := models;
      activeModel := FirstModel(models);
      exportedActiveModel := FirstModel(models);
      pendingGroupIds := [];
    }

    /**
     * `changeModel(nameOrAlias)`: a hit becomes the active model and is returned; a miss
     * returns `null` and keeps the active model. The exported field is a constant and
     * keeps the load-time model either way.
     */
    method ChangeModel(nameOrAlias: string) returns (r: Option<Model>)
      modifies this
      ensures r == FindModel(models, nameOrAlias)
      ensures activeModel == if r.Some? then r else old(activeModel)
      ensures pendingGroupIds == old(pendingGroupIds)
    {
      r := FindModel(models, nameOrAlias);
      if r.Some? {
        activeModel := r;
      }
    }

    /**
     * `chat(messages, e)`. `messages` are the inbound turns (the caller's own array),
     * `response` is the endpoint's answer for the active model. A busy group is rejected
     * before anything changes. Otherwise the inbound turns join the group's history (created
     * from the two system prompts on first use) and stay there whatever happens; the group is
     * pending only while the completion runs. A failure removes the last inbound turn from the
     * caller's array only and replies with the reason; a success appends one assistant turn.
     */
    method Chat(messages: TurnList, e: GroupMessageEvent, store: GroupHistories, systemPrompt: string,
                identityPrompt: int -> string, response: Result<ApiResponse>) returns (r: HandlerResult)
      requires store.Valid() && messages !in store.lists.Values
      modifies this, store, store.lists.Values, messages
      ensures store.Valid() && activeModel == old(activeModel)
      ensures e.groupId in old(pendingGroupIds) ==>
                r == Threw(BusyMessage) && pendingGroupIds == old(pendingGroupIds) &&
                store.lists == old(store.lists) && messages.turns == old(messages.turns) &&
                forall g :: g in store.lists ==> store.lists[g].turns == old(store.lists[g].turns)
      ensures e.groupId !in old(pendingGroupIds) ==>
                r == Replied(ChatReply(Completion(old(activeModel), response))) &&
                pendingGroupIds == old(pendingGroupIds) && e.groupId in store.lists &&
                store.lists[e.groupId].turns ==
                HistoryAfterChat((if e.groupId in old(store.lists) then old(store.lists[e.groupId].turns)
                                  else ChatSeed(systemPrompt, identityPrompt(e.selfId))) + old(messages.turns),
                                 old(activeModel), response) &&
                messages.turns == CallerTurnsAfterChat(old(messages.turns), old(activeModel), response)
      ensures forall g :: g in old(store.lists) && g != e.groupId ==>
                g in store.lists && store.lists[g].turns == old(store.lists[g].turns)
    {
      var groupId := e.groupId;
      if groupId in pendingGroupIds {
        return Threw(BusyMessage);
      }
      var seed := ChatSeed(systemPrompt, identityPrompt(e.selfId));
      pendingGroupIds := pendingGroupIds + [groupId];
      var result := AppendAndSettle(store, groupId, seed, messages, activeModel, response);
      PushThenFilter(old(pendingGroupIds), groupId);
      pendingGroupIds := Without(pendingGroupIds, groupId);
      r := Replied(ChatReply(result));
    }
  }

  /**
   * The group's history (created from `seed` on first use) gains the caller's turns, then
   * the completion is requested and settled; no other group's history changes.
   */
  method AppendAndSettle(store: GroupHistories, groupId: int, seed: seq<Turn>, messages: TurnList,
                         model: Option<Model>, response: Result<ApiResponse>) returns (result: Result<string>)
    requires store.Valid() && messages !in store.lists.Values
    modifies store, store.lists.Values, messages
    ensures store.Valid() && groupId in store.lists
    ensures result == Completion(model, response)
    ensures store.lists[groupId].turns ==
            HistoryAfterChat((if groupId in old(store.lists) then old(store.lists[groupId].turns) else seed) +
                             old(messages.turns), model, response)
    ensures messages.turns == CallerTurnsAfterChat(old(messages.turns), model, response)
    ensures forall g :: g in old(store.lists) && g != groupId ==>
              g in store.lists && store.lists[g].turns == old(store.lists[g].turns)
  {
    var groupMessages := store.ReadAndAppend(groupId, seed, messages.turns);
    assert forall g :: g in old(store.lists) && g != groupId ==>
             store.lists[g] != groupMessages && store.lists[g] != messages;
    assert messages != groupMessages;
    result := CompleteAndSettle(groupMessages, messages, model, response);
  }

  /** The part of `chat` around the completion: request, then pop the caller's last turn or append the answer. */
  method CompleteAndSettle(groupMessages: TurnList, messages: TurnList, model: Option<Model>, response: Result<ApiResponse>)
    returns (result: Result<string>)
    requires groupMessages != messages
    modifies groupMessages, messages
    ensures result == Completion(model, response)
    ensures groupMessages.turns == HistoryAfterChat(old(groupMessages.turns), model, response)
    ensures messages.turns == CallerTurnsAfterChat(old(messages.turns), model, response)
  {
    result := ChatCompletions(groupMessages, model, response);
    if result.Err? {
      messages.Pop();
      return;
    }
    groupMessages.Push(OpenAiUtils.TextToMessage(result.value, OpenAiUtils.MessageArgs(Some(Assistant), None, None)));
  }

  /**
   * Switching models never reaches the exported field: after a load and any switch, the
   * export still holds the first model of the list while the active model follows the switch.
   */
  method ExportIsLoadTimeSnapshot(models: seq<Model>, nameOrAlias: string) returns (m: AiModule)
    ensures m.exportedActiveModel == FirstModel(models)
    ensures m.activeModel == if FindModel(models, nameOrAlias).Some? then FindModel(models, nameOrAlias) else FirstModel(models)
  {
    m := new AiModule(models);
    var switched := m.ChangeModel(nameOrAlias);
  }
}
