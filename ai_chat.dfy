/**
 * Group chat of the split AI handler: the inbound turns join the group's history, the
 * completion is requested, and the history is either rolled back or given the answer.
 */
module AiChat {
  import opened Js
  import opened Schemas
  import opened Store
  import opened AiCompletions
  import OpenAiUtils

  const FailurePrefix := "消息生成失败："

  /** The turns a group's history starts with: the system prompt alone. */
  function ChatSeed(systemPrompt: string): seq<Turn> {
    [SystemTurn(systemPrompt)]
  }

  /**
   * `history.splice(-k)` AS WRITTEN, as the history it leaves: everything from `-k` on is
   * removed. Since `-0` is `0`, removing "the last 0 turns" removes every turn.
   */
  function RolledBack(history: seq<Turn>, k: nat): (r: seq<Turn>)
    ensures k > 0 ==> r == history[..if k <= |history| then |history| - k else 0]
    ensures k == 0 ==> r == []
  {
    history[..RelativeStart(|history|, -(k as int))]
  }

  /** The evidently intended rollback: remove exactly the last `k` turns (all, if there are fewer). */
  function RolledBackIntended(history: seq<Turn>, k: nat): (r: seq<Turn>)
    ensures |r| == if k <= |history| then |history| - k else 0
    ensures r == history[..|r|]
  {
    history[..if k <= |history| then |history| - k else 0]
  }

  /** The intended rollback undoes an append of any length, the empty one included. */
  lemma {:induction false} IntendedRollbackRestores(before: seq<Turn>, inbound: seq<Turn>)
    ensures RolledBackIntended(before + inbound, |inbound|) == before
  {
    assert (before + inbound)[..|before|] == before;
  }

  /** As written, the rollback undoes a non-empty append exactly. */
  lemma {:induction false} RollbackRestores(before: seq<Turn>, inbound: seq<Turn>)
    requires |inbound| > 0
    ensures RolledBack(before + inbound, |inbound|) == before
  {
    assert (before + inbound)[..|before|] == before;
  }

  /** As written, a failed reply to a message that produced no turns wipes the whole history, system prompt included. */
  lemma RollbackOfNothingWipesHistory(before: seq<Turn>)
    requires |before| > 0
    ensures RolledBack(before + [], 0) == [] != before
  {
  }

  /** What `chat(e)` resolves to: the answer, the failure text, or the rejection of `onebotToOpenai`. */
  function ChatReply(inbound: Result<seq<Turn>>, model: Option<Model>, response: Result<ApiResponse>): (r: Result<string>)
    ensures inbound.Err? ==> r == Err(inbound.message)
    ensures inbound.Ok? && Completion(model, response).Err? ==> r == Ok(FailurePrefix + Completion(model, response).message)
    ensures inbound.Ok? && Completion(model, response).Ok? ==> r == Completion(model, response)
  {
    if inbound.Err? then Err(inbound.message)
    else
      match Completion(model, response)
      case Err(message) => Ok(FailurePrefix + message)
      case Ok(text) => Ok(text)
  }

  /** The group's history after `chat(e)`, given the history it had (or its seed) before. */
  function HistoryAfterChat(before: seq<Turn>, inbound: Result<seq<Turn>>, model: Option<Model>,
                            response: Result<ApiResponse>): seq<Turn>
  {
    if inbound.Err? then before
    else
      match Completion(model, response)
      case Err(_) => RolledBack(before + inbound.value, |inbound.value|)
      case Ok(text) =>
        (if ShouldTruncate(model.value, response.value) then Truncated(before + inbound.value) else before + inbound.value) +
        [AssistantTurn(text)]
  }

  /** A failed completion for a message that produced turns leaves the history exactly as it was. */
  lemma FailedChatLeavesHistory(before: seq<Turn>, inbound: seq<Turn>, model: Option<Model>, response: Result<ApiResponse>)
    requires |inbound| > 0 && Completion(model, response).Err?
    ensures HistoryAfterChat(before, Ok(inbound), model, response) == before
  {
    RollbackRestores(before, inbound);
  }

  /** A successful completion below the token limit leaves the history extended by the inbound turns and the answer. */
  lemma SuccessfulChatExtendsHistory(before: seq<Turn>, inbound: seq<Turn>, model: Option<Model>, response: Result<ApiResponse>)
    requires Completion(model, response).Ok? && !ShouldTruncate(model.value, response.value)
    ensures HistoryAfterChat(before, Ok(inbound), model, response) ==
            before + inbound + [AssistantTurn(ChatReply(Ok(inbound), model, response).value)]
  {
  }

  /**
   * `chat(e)`. `inbound` is what `onebotToOpenai(e)` resolved to (or the message it threw),
   * `model` is the model the completion defaults to, `response` the endpoint's answer.
   * The group's history (created from the system prompt on first use) gains the inbound
   * turns; a failed completion rolls them back with `splice(-k)` and answers with the
   * reason, a successful one appends one assistant turn and answers with the text.
   */
  method Chat(store: GroupHistories, e: GroupMessageEvent, systemPrompt: string, inbound: Result<seq<Turn>>,
              model: Option<Model>, response: Result<ApiResponse>) returns (r: Result<string>)
    requires store.Valid()
    modifies store, store.lists.Values
    ensures store.Valid() && e.groupId in store.lists
    ensures r == ChatReply(inbound, model, response)
    ensures store.lists[e.groupId].turns ==
            HistoryAfterChat(if e.groupId in old(store.lists) then old(store.lists[e.groupId].turns) else ChatSeed(systemPrompt),
                             inbound, model, response)
    ensures forall g :: g in old(store.lists) && g != e.groupId ==>
              g in store.lists && store.lists[g].turns == old(store.lists[g].turns)
  {
    ghost var before := if e.groupId in store.lists then store.lists[e.groupId].turns else ChatSeed(systemPrompt);
    if inbound.Err? {
      // the history is read (and created) before `onebotToOpenai` throws
      var groupMessages := store.Read(e.groupId, ChatSeed(systemPrompt));
      return Err(inbound.message);
    }
    var messages := inbound.value;
    var groupMessages := store.ReadAndAppend(e.groupId, ChatSeed(systemPrompt), messages);
    assert forall g :: g in old(store.lists) && g != e.groupId ==> store.lists[g] != groupMessages;
    r := CompleteAndSettle(groupMessages, before, messages, model, response);
  }

  /** The part of `chat(e)` after the append: request, then roll the inbound turns back or append the answer. */
  method CompleteAndSettle(groupMessages: TurnList, ghost before: seq<Turn>, messages: seq<Turn>,
                           model: Option<Model>, response: Result<ApiResponse>) returns (r: Result<string>)
    requires groupMessages.turns == before + messages
    modifies groupMessages
    ensures r == ChatReply(Ok(messages), model, response)
    ensures groupMessages.turns == HistoryAfterChat(before, Ok(messages), model, response)
  {
    var result := ChatCompletions(groupMessages, model, response);
    if result.Err? {
      groupMessages.SpliceFrom(-|messages|);
      return Ok(FailurePrefix + result.message);
    }
    groupMessages.Push(OpenAiUtils.TextToMessage(result.value, OpenAiUtils.MessageArgs(Some(Assistant), None, None)));
    return Ok(result.value);
  }
}
