/**
 * The entry point of the split AI handler: model switching, and one reply per scene
 * ("chat" or "summarize") with a per-group single-flight guard.
 */
module AiHandle {
  import opened Js
  import opened Schemas
  import opened Store
  import opened ModelSelection
  import opened AiCompletions
  import AiChat
  import AiLegacy
  import OnebotUtils

  const BusyMessage := "正在处理上一条消息，请稍候……"

  datatype Scene = ChatScene | SummarizeScene

  /** What the scene resolves to: `chat(e)` for "chat", the summary text for "summarize". */
  function SceneText(scene: Scene, inbound: Result<seq<Turn>>, model: Option<Model>, response: Result<ApiResponse>,
                     summary: Result<string>): (r: Result<string>)
    ensures scene.ChatScene? ==> r == AiChat.ChatReply(inbound, model, response)
    ensures scene.SummarizeScene? ==> r == summary
  {
    match scene
    case ChatScene => AiChat.ChatReply(inbound, model, response)
    case SummarizeScene => summary
  }

  /**
   * The module's state. `models` is the model list the file refers to; `exportedActiveModel`
   * is the default export's `activeModel`, bound once at load time, and it is the model the
   * completion call defaults to when chatting.
   */
  class AiIndex {
    const models: seq<Model>
    var activeModel: Option<Model>
    const exportedActiveModel: Option<Model>
    var pendingGroupIds: seq<int>

    constructor (models: seq<Model>)
      ensures this.models == models
      ensures activeModel == AiLegacy.FirstModel(models) && exportedActiveModel == AiLegacy.FirstModel(models)
      ensures pendingGroupIds == []
    {
      this.models := models;
      activeModel := AiLegacy.FirstModel(models);
      exportedActiveModel := AiLegacy.FirstModel(models);
      pendingGroupIds := [];
    }

    /** `changeModel(nameOrAlias)`: a hit becomes the active model and is returned; a miss returns `null`. */
    method ChangeModel(nameOrAlias: string) returns (r: Option<Model>)
      modifies this
      ensures r == FindModel(models, nameOrAlias)
      ensures activeModel == if r.Some? then r else old(activeModel)
      ensures pendingGroupIds == old(pendingGroupIds)
    {
      r := FindModel(models, nameOrAlias);
      if r.Some? {
        activeModel := r;
      }
    }

    /**
     * `handle(scene, e)`. A pending group gets the busy reply and nothing changes.
     * Otherwise the group is pending while the scene runs: its text is replied and the
     * group is filtered out again; if the scene throws, the rejection propagates and the
     * group STAYS pending (there is no `finally`). `inbound`, `response` and `summary` are
     * what `onebotToOpenai`, the completion endpoint and the summariser resolve to.
     */
    method Handle(scene: Scene, e: GroupMessageEvent, store: GroupHistories, systemPrompt: string,
                  inbound: Result<seq<Turn>>, response: Result<ApiResponse>, summary: Result<string>)
      returns (r: HandlerResult)
      requires store.Valid()
      modifies this, store, store.lists.Values
      ensures store.Valid() && activeModel == old(activeModel)
      ensures e.groupId in old(pendingGroupIds) ==>
                r == Replied(OnebotUtils.ReplyText(BusyMessage)) && pendingGroupIds == old(pendingGroupIds) &&
                store.lists == old(store.lists) && forall g :: g in store.lists ==> store.lists[g].turns == old(store.lists[g].turns)
      ensures e.groupId !in old(pendingGroupIds) ==>
                var text := SceneText(scene, inbound, exportedActiveModel, response, summary);
                (text.Err? ==> r == Threw(text.message) && pendingGroupIds == old(pendingGroupIds) + [e.groupId]) &&
                (text.Ok? ==> r == Replied(OnebotUtils.ReplyText(text.value)) && pendingGroupIds == old(pendingGroupIds))
      ensures e.groupId !in old(pendingGroupIds) && scene.ChatScene? ==>
                e.groupId in store.lists &&
                store.lists[e.groupId].turns ==
                AiChat.HistoryAfterChat(if e.groupId in old(store.lists) then old(store.lists[e.groupId].turns)
                                        else AiChat.ChatSeed(systemPrompt), inbound, exportedActiveModel, response)
      ensures scene.SummarizeScene? ==> store.lists == old(store.lists)
      ensures forall g :: g in old(store.lists) && g != e.groupId ==>
                g in store.lists && store.lists[g].turns == old(store.lists[g].turns)
    {
      var groupId := e.groupId;
      if groupId in pendingGroupIds {
        return Replied(OnebotUtils.ReplyText(BusyMessage));
      }
      pendingGroupIds := pendingGroupIds + [groupId];

      var text: Result<string>;
      if scene.ChatScene? {
        text := AiChat.Chat(store, e, systemPrompt, inbound, exportedActiveModel, response);
      } else {
        text := summary;
      }
      assert text == SceneText(scene, inbound, exportedActiveModel, response, summary);
      if text.Err? {
        return Threw(text.message);
      }
      PushThenFilter(old(pendingGroupIds), groupId);
      pendingGroupIds := Without(pendingGroupIds, groupId);
      r := Replied(OnebotUtils.ReplyText(text.value));
    }
  }
}
