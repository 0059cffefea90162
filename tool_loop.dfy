/**
 * The request loop shared by the two request handlers: ask for a completion over the
 * group's turns, append it, run the function tools it calls and append their answers,
 * and ask again until a completion carries no `tool_calls` at all. Nothing appended is
 * ever taken back, whatever fails.
 */
module ToolLoop {
  import opened Js
  import opened Schemas
  import opened Store
  import OpenAiUtils

  /** `[textToMessage(SYSTEM_PROMPT, { role: "system" })]`: what a group's history starts as. */
  function HistorySeed(systemPrompt: string): (r: seq<Turn>)
    ensures |r| == 1 && r[0].role == System && r[0].content == systemPrompt
  {
    [OpenAiUtils.TextToMessage(systemPrompt, OpenAiUtils.MessageArgs(Some(System), None, None))]
  }

  /** `(completion.tool_calls ?? []).filter(call => call.type === "function")`, over the calls themselves. */
  function FunctionCallsOf(calls: seq<ToolCall>): (r: seq<ToolCall>)
    ensures |r| <= |calls|
    ensures forall c :: c in r <==> c in calls && c.kind == "function"
  {
    if calls == [] then []
    else
      var rest := FunctionCallsOf(calls[1..]);
      assert forall c :: c in calls <==> c == calls[0] || c in calls[1..];
      if calls[0].kind == "function" then [calls[0]] + rest else rest
  }

  /** The function tool calls of a completion, in the model's order. */
  function FunctionCalls(completion: Turn): (r: seq<ToolCall>)
    ensures completion.toolCalls.None? ==> r == []
    ensures forall c :: c in r <==> completion.toolCalls.Some? && c in completion.toolCalls.value && c.kind == "function"
  {
    FunctionCallsOf(completion.toolCalls.GetOr([]))
  }

  /** `textToMessage(toolResult, { role: "tool", tool_call_id: tool.id })` */
  function ToolTurn(result: string, id: string): Turn {
    Turn(Tool, result, None, Some(id), None)
  }

  /** What running a round's tools leaves: the tool turns appended, and the rejection that stopped them, if any. */
  datatype ToolRunResult = ToolRunResult(turns: seq<Turn>, failure: Option<string>)

  /** The `for` loop over the tool calls: each answer becomes a tool turn, until a tool rejects. */
  function ToolRun(calls: seq<ToolCall>, handle: ToolCall -> Result<string>): (r: ToolRunResult)
    ensures |r.turns| <= |calls|
    ensures r.failure.Some? ==> exists k :: 0 <= k < |calls| && handle(calls[k]) == Err(r.failure.value)
  {
    if calls == [] then ToolRunResult([], None)
    else
      var prior := ToolRun(calls[..|calls| - 1], handle);
      if prior.failure.Some? then prior
      else
        match handle(calls[|calls| - 1])
        case Err(message) => ToolRunResult(prior.turns, Some(message))
        case Ok(text) => ToolRunResult(prior.turns + [ToolTurn(text, calls[|calls| - 1].id)], None)
  }

  /** When every tool answers, there is one tool turn per call, in the calls' order, each carrying its call's id. */
  lemma {:induction false} AllToolsAnswer(calls: seq<ToolCall>, handle: ToolCall -> Result<string>)
    requires forall k :: 0 <= k < |calls| ==> handle(calls[k]).Ok?
    ensures ToolRun(calls, handle).failure.None?
    ensures |ToolRun(calls, handle).turns| == |calls|
    ensures forall k :: 0 <= k < |calls| ==>
              ToolRun(calls, handle).turns[k] == ToolTurn(handle(calls[k]).value, calls[k].id)
  {
    if calls != [] {
      var init := calls[..|calls| - 1];
      assert forall k :: 0 <= k < |init| ==> init[k] == calls[k];
      AllToolsAnswer(init, handle);
    }
  }

  /** Once a tool has rejected, the later calls change nothing: they are never run. */
  lemma {:induction false} FailurePersists(calls: seq<ToolCall>, i: nat, handle: ToolCall -> Result<string>)
    requires i <= |calls| && ToolRun(calls[..i], handle).failure.Some?
    ensures ToolRun(calls, handle) == ToolRun(calls[..i], handle)
  {
    if i < |calls| {
      var init := calls[..|calls| - 1];
      assert init[..i] == calls[..i];
      FailurePersists(init, i, handle);
    } else {
      assert calls[..i] == calls;
    }
  }

  /** The first tool that rejects ends the round's tools: the earlier ones' turns stay, and its message is the failure. */
  lemma {:induction false} FirstRejectionStops(calls: seq<ToolCall>, k: nat, handle: ToolCall -> Result<string>)
    requires k < |calls| && handle(calls[k]).Err?
    requires forall j :: 0 <= j < k ==> handle(calls[j]).Ok?
    ensures ToolRun(calls, handle).failure == Some(handle(calls[k]).message)
    ensures |ToolRun(calls, handle).turns| == k
  {
    var upTo := calls[..k + 1];
    assert upTo[..k] == calls[..k];
    assert forall j :: 0 <= j < k ==> calls[..k][j] == calls[j];
    AllToolsAnswer(calls[..k], handle);
    FailurePersists(calls, k + 1, handle);
  }

  /** How a round ends: it threw, its completion ends the loop, or the loop asks again. */
  datatype Outcome = Failed(message: string) | Done(completion: Turn) | Again

  /** The turns after a round, and how it ended. */
  datatype Step = Step(turns: seq<Turn>, outcome: Outcome)

  /** The rejection for a round that wants tools when the counter has reached the limit. */
  function LimitMessage(maxToolCount: nat): string {
    "单次聊天调用的工具次数超过限制（" + IntToString(maxToolCount) + "），已停止响应"
  }

  /**
   * One call of the loop body. `complete` is the endpoint's answer for the turns sent,
   * `handle` what `chooseAndHandleTool` resolves to, `limit` the tool-round limit of the
   * handler (`None` where it has none) and `count` the counter the loop passes in.
   */
  function Round(history: seq<Turn>, complete: seq<Turn> -> Result<Turn>, handle: ToolCall -> Result<string>,
                 limit: Option<nat>, count: int): (s: Step)
    ensures |history| <= |s.turns| && s.turns[..|history|] == history
  {
    match complete(history)
    case Err(message) => Step(history, Failed(message))
    case Ok(completion) =>
      var calls := FunctionCalls(completion);
      if |calls| > 0 && limit.Some? && count == limit.value then
        Step(history + [completion], Failed(LimitMessage(limit.value)))
      else
        var run := ToolRun(calls, handle);
        if run.failure.Some? then Step(history + [completion] + run.turns, Failed(run.failure.value))
        else Step(history + [completion] + run.turns, if completion.toolCalls.None? then Done(completion) else Again)
  }

  /** What the loop settles to: the turns, and the last completion or the rejection `to` caught. */
  datatype LoopEnd = LoopEnd(turns: seq<Turn>, response: Result<Turn>)

  /**
   * `loopUntil(body, { maxRetries, shouldStop: completion => !completion.tool_calls })`:
   * rounds with counters `count`, `count + 1`, ...; a round that throws ends the loop with
   * its error; after `retries` further rounds without stopping the loop gives up with
   * `exhausted`.
   */
  function Loop(history: seq<Turn>, complete: seq<Turn> -> Result<Turn>, handle: ToolCall -> Result<string>,
                limit: Option<nat>, count: int, retries: nat, exhausted: string): LoopEnd
    decreases retries
  {
    var step := Round(history, complete, handle, limit, count);
    match step.outcome
    case Failed(message) => LoopEnd(step.turns, Err(message))
    case Done(completion) => LoopEnd(step.turns, Ok(completion))
    case Again =>
      if retries == 0 then LoopEnd(step.turns, Err(exhausted))
      else Loop(step.turns, complete, handle, limit, count + 1, retries - 1, exhausted)
  }

  /** A round whose tools all answer appends its completion, then one tool turn per function call, in order. */
  lemma RoundAppendsCompletionThenTools(history: seq<Turn>, complete: seq<Turn> -> Result<Turn>,
                                        handle: ToolCall -> Result<string>, limit: Option<nat>, count: int)
    requires complete(history).Ok?
    requires var calls := FunctionCalls(complete(history).value);
             (|calls| == 0 || limit.None? || count != limit.value) &&
             forall k :: 0 <= k < |calls| ==> handle(calls[k]).Ok?
    ensures var c := complete(history).value;
            var calls := FunctionCalls(c);
            var s := Round(history, complete, handle, limit, count);
            |s.turns| == |history| + 1 + |calls| && s.turns[..|history| + 1] == history + [c] &&
            (forall k :: 0 <= k < |calls| ==>
               s.turns[|history| + 1 + k] == ToolTurn(handle(calls[k]).value, calls[k].id)) &&
            s.outcome == if c.toolCalls.None? then Done(c) else Again
  {
    var c := complete(history).value;
    var calls := FunctionCalls(c);
    AllToolsAnswer(calls, handle);
    var s := Round(history, complete, handle, limit, count);
    assert s.turns == history + [c] + ToolRun(calls, handle).turns;
  }

  /** A round that wants tools when the counter is at the limit throws before any tool runs. */
  lemma LimitStopsBeforeTools(history: seq<Turn>, complete: seq<Turn> -> Result<Turn>,
                              handle: ToolCall -> Result<string>, maxToolCount: nat)
    requires complete(history).Ok? && |FunctionCalls(complete(history).value)| > 0
    ensures Round(history, complete, handle, Some(maxToolCount), maxToolCount) ==
            Step(history + [complete(history).value], Failed(LimitMessage(maxToolCount)))
  {
  }

  /** A completion without `tool_calls` ends the loop with that completion as the response. */
  lemma StopsWithoutToolCalls(history: seq<Turn>, complete: seq<Turn> -> Result<Turn>, handle: ToolCall -> Result<string>,
                              limit: Option<nat>, count: int, retries: nat, exhausted: string)
    requires complete(history).Ok? && complete(history).value.toolCalls.None?
    ensures Loop(history, complete, handle, limit, count, retries, exhausted) ==
            LoopEnd(history + [complete(history).value], Ok(complete(history).value))
  {
    assert ToolRun([], handle).turns == [];
  }

  /**
   * An empty `tool_calls` array (or one holding no function call) does not stop the loop:
   * the completion is appended and the endpoint is asked again with the counter raised.
   */
  lemma EmptyToolCallsAskAgain(history: seq<Turn>, complete: seq<Turn> -> Result<Turn>,
                               handle: ToolCall -> Result<string>, limit: Option<nat>, count: int,
                               retries: nat, exhausted: string)
    requires complete(history).Ok? && complete(history).value.toolCalls.Some?
    requires FunctionCalls(complete(history).value) == []
    requires retries > 0
    ensures Loop(history, complete, handle, limit, count, retries, exhausted) ==
            Loop(history + [complete(history).value], complete, handle, limit, count + 1, retries - 1, exhausted)
  {
    assert ToolRun([], handle).turns == [];
    assert history + [complete(history).value] + [] == history + [complete(history).value];
  }

  /** The loop only appends: whatever happens, the turns it started from are still the prefix of the result. */
  lemma {:induction false} LoopOnlyAppends(history: seq<Turn>, complete: seq<Turn> -> Result<Turn>,
                                           handle: ToolCall -> Result<string>, limit: Option<nat>, count: int,
                                           retries: nat, exhausted: string)
    ensures var end := Loop(history, complete, handle, limit, count, retries, exhausted);
            |history| <= |end.turns| && end.turns[..|history|] == history
    decreases retries
  {
    var step := Round(history, complete, handle, limit, count);
    if step.outcome.Again? && retries > 0 {
      LoopOnlyAppends(step.turns, complete, handle, limit, count + 1, retries - 1, exhausted);
      var end := Loop(step.turns, complete, handle, limit, count + 1, retries - 1, exhausted);
      assert end.turns[..|history|] == end.turns[..|step.turns|][..|history|];
    }
  }

  /** Without a limit of its own, a round never throws the limit message; only the endpoint or a tool can fail it. */
  lemma NoLimitNoLimitFailure(history: seq<Turn>, complete: seq<Turn> -> Result<Turn>,
                              handle: ToolCall -> Result<string>, count: int, message: string)
    requires Round(history, complete, handle, None, count).outcome == Failed(message)
    ensures (complete(history).Err? && message == complete(history).message) ||
            (complete(history).Ok? && ToolRun(FunctionCalls(complete(history).value), handle).failure == Some(message))
  {
  }

  /**
   * The loop in place on the group's shared array of turns: each round pushes the
   * completion, then one tool turn per answered function call; the array keeps every
   * turn pushed, also when the loop ends with an error.
   */
  method RunLoop(messages: TurnList, complete: seq<Turn> -> Result<Turn>, handle: ToolCall -> Result<string>,
                 limit: Option<nat>, firstCount: int, retries: nat, exhausted: string) returns (response: Result<Turn>)
    modifies messages
    ensures LoopEnd(messages.turns, response) == Loop(old(messages.turns), complete, handle, limit, firstCount, retries, exhausted)
  {
    var count := firstCount;
    var left := retries;
    while true
      invariant Loop(messages.turns, complete, handle, limit, count, left, exhausted) ==
                Loop(old(messages.turns), complete, handle, limit, firstCount, retries, exhausted)
      decreases left
    {
      var step := RunRound(messages, complete, handle, limit, count);
      if step.Failed? {
        return Err(step.message);
      }
      if step.Done? {
        return Ok(step.completion);
      }
      if left == 0 {
        return Err(exhausted);
      }
      count := count + 1;
      left := left - 1;
    }
  }

  /**
   * What both request handlers do for a group that is not already pending: mark it
   * pending, read its history (created from `seed` on first use), append the inbound
   * turns, run the loop on that history and unmark the group. When the inbound
   * conversion rejects (`inbound` is an error), the history has been read but not
   * extended and the group stays marked pending.
   */
  method ServeGroup(pending: PendingList, store: GroupHistories, groupId: int, seed: seq<Turn>,
                    inbound: Result<seq<Turn>>, complete: seq<Turn> -> Result<Turn>, handle: ToolCall -> Result<string>,
                    limit: Option<nat>, firstCount: int, retries: nat, exhausted: string) returns (r: Result<Result<Turn>>)
    requires store.Valid()
    requires groupId !in pending.ids
    modifies pending, store, store.lists.Values
    ensures store.Valid()
    ensures groupId in store.lists
    ensures var before := if groupId in old(store.lists) then old(store.lists[groupId].turns) else seed;
            (inbound.Err? ==>
               r == Err(inbound.message) && pending.ids == old(pending.ids) + [groupId] &&
               store.lists[groupId].turns == before) &&
            (inbound.Ok? ==>
               var end := Loop(before + inbound.value, complete, handle, limit, firstCount, retries, exhausted);
               r == Ok(end.response) && pending.ids == old(pending.ids) && store.lists[groupId].turns == end.turns)
    ensures forall g :: g in old(store.lists) && g != groupId ==>
              g in store.lists && store.lists[g].turns == old(store.lists[g].turns)
  {
    pending.Push(groupId);
    if inbound.Err? {
      // the history is read (and created) before the conversion rejects
      var messages := store.Read(groupId, seed);
      return Err(inbound.message);
    }
    var response := AppendAndRun(store, groupId, seed, inbound.value, complete, handle, limit, firstCount, retries, exhausted);
    PushThenRemove(old(pending.ids), groupId);
    pending.SpliceIndexOf(groupId);
    r := Ok(response);
  }

  /**
   * The group's history (created from `seed` on first use) gains `ts` and then whatever
   * the loop appends; no other group's history changes.
   */
  method AppendAndRun(store: GroupHistories, groupId: int, seed: seq<Turn>, ts: seq<Turn>,
                      complete: seq<Turn> -> Result<Turn>, handle: ToolCall -> Result<string>,
                      limit: Option<nat>, firstCount: int, retries: nat, exhausted: string) returns (response: Result<Turn>)
    requires store.Valid()
    modifies store, store.lists.Values
    ensures store.Valid()
    ensures groupId in store.lists
    ensures var before := if groupId in old(store.lists) then old(store.lists[groupId].turns) else seed;
            var end := Loop(before + ts, complete, handle, limit, firstCount, retries, exhausted);
            response == end.response && store.lists[groupId].turns == end.turns
    ensures forall g :: g in old(store.lists) && g != groupId ==>
              g in store.lists && store.lists[g].turns == old(store.lists[g].turns)
  {
    var messages := store.ReadAndAppend(groupId, seed, ts);
    assert forall g :: g in old(store.lists) && g != groupId ==> store.lists[g] != messages;
    response := RunLoop(messages, complete, handle, limit, firstCount, retries, exhausted);
  }

  /** One call of the loop body in place: push the completion, check the limit, push each tool's answer. */
  method RunRound(messages: TurnList, complete: seq<Turn> -> Result<Turn>, handle: ToolCall -> Result<string>,
                  limit: Option<nat>, count: int) returns (outcome: Outcome)
    modifies messages
    ensures Step(messages.turns, outcome) == Round(old(messages.turns), complete, handle, limit, count)
  {
    var completion := complete(messages.turns);
    if completion.Err? {
      return Failed(completion.message);
    }
    var c := completion.value;
    messages.Push(c);
    var toolCalls := FunctionCalls(c);
    if |toolCalls| > 0 && limit.Some? && count == limit.value {
      return Failed(LimitMessage(limit.value));
    }
    var failure := RunTools(messages, toolCalls, handle);
    if failure.Some? {
      return Failed(failure.value);
    }
    outcome := if c.toolCalls.None? then Done(c) else Again;
  }

  /** The `for` loop over a round's function calls in place: push each answer as a tool turn, stop at the first rejection. */
  method RunTools(messages: TurnList, toolCalls: seq<ToolCall>, handle: ToolCall -> Result<string>) returns (failure: Option<string>)
    modifies messages
    ensures messages.turns == old(messages.turns) + ToolRun(toolCalls, handle).turns
    ensures failure == ToolRun(toolCalls, handle).failure
  {
    var i := 0;
    while i < |toolCalls|
      invariant 0 <= i <= |toolCalls|
      invariant ToolRun(toolCalls[..i], handle).failure.None?
      invariant messages.turns == old(messages.turns) + ToolRun(toolCalls[..i], handle).turns
    {
      var toolResult := handle(toolCalls[i]);
      assert toolCalls[..i + 1][..i] == toolCalls[..i];
      if toolResult.Err? {
        FailurePersists(toolCalls, i + 1, handle);
        return Some(toolResult.message);
      }
      messages.Push(ToolTurn(toolResult.value, toolCalls[i].id));
      i := i + 1;
    }
    assert toolCalls[..i] == toolCalls;
    failure := None;
  }
}
