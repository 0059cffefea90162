# QQ group-chat bot: a Dafny model of its core

The repository is a QQ group-chat bot. It receives OneBot 11 group-message events over HTTP,
answers slash commands, logs group chat, and chats through an OpenAI-compatible completion
endpoint, with function tools the model may call. The repository holds several generations of
the same bot side by side, and this project models the logic of each generation as written.
Where the code is evidently wrong (see "## Findings"), the model holds both the code as written
and the corrected version, and the rest of the model builds on the corrected one:

- **The oldest generation** (`src/utils.ts`, `src/handlers/command.ts`,
  `src/handlers/non-commands/index.ts`, `src/handlers/non-commands/ai.ts`) has these parts:
  - segment tests by index
  - the bare-string quick reply
  - the command table with its numbered help listing
  - routing of ASCII-letter abbreviations to the decoder
  - a single-file AI module with a switchable active model, a per-group pending list and
    per-group histories
- **The middle generation** (`src/utils/segment.ts`, `src/utils/action.ts`,
  `src/utils/data.ts`, `src/handlers/commands/index.ts`, `src/handlers/non-commands/ai/*`) has
  these parts:
  - the same helpers over the event, with texts trimmed in place
  - expansion of merged forwards into chat turns
  - the full-chat log
  - the split AI module with its rollback on failure and its scene handler
- **The newest generation** (`src/utils/onebot.ts`, `src/utils/openai.ts`, `src/tools/*`,
  `src/index.ts`, `src/routes/index.ts`) has these parts:
  - segment predicates and `/fn args` parsing
  - recursive flattening of merged forwards
  - the 204-or-segments quick reply
  - the function-tool table and its dispatcher
  - two request handlers that guard each group with a process-wide pending list, append the
    inbound turns to the group's history and run the completion/tool-call loop

Everything networked is a parameter of the model:
- the completion endpoint's answer
- tool results
- `get_forward_msg`
- `onebotToOpenai`
- `selectFunctionCallingModel`
- `chooseAndHandleTool`

So are `Number(...)`, `JSON.parse`, `normalizeText` and the random draw. JavaScript arrays
that are shared by reference are classes:
- `Store.TurnList` is a group's history.
- `Store.PendingList` is the pending-group list.
- `Store.GroupHistories` is the per-group history store behind `readGroupMessages` /
  `readGroupFullMessages`, get-or-create.

Module variables that the source rebinds are fields of a class, such as `AiLegacy.AiModule`,
`AiHandle.AiIndex` and `ChangeModelTool.ModelRef`. In-place loops are methods proved against
specification functions: the tool loop, forward flattening and the truncation splice.
`Js` holds the slice of the JavaScript runtime the code relies on, and `Schemas` the data shapes.

## Model

| member | source | states |
|---|---|---|
| OnebotUtils.AtSelfIndexAsWritten | src/index.ts:38 | `findIndex(isAtSelfSegment)` hands the index to `isAtSelfSegment` as its `e`, so no segment ever matches and the result is always -1 |
| OnebotUtils.AtSelfIndex | src/utils/onebot.ts:23-33 | the first segment that is an @-segment whose `Number(qq)` equals `self_id`, or -1 exactly when there is none; NaN (as for "all") never matches |
| OnebotUtils.TextSegmentToCommand | src/utils/onebot.ts:41-49 | trimmed text not starting with "/" gives no `fn` and no args; otherwise `fn` and the args are the space-free pieces after "/", and joining them back with single spaces rebuilds the trimmed text, so empty pieces are kept |
| OnebotUtils.SlashCommandJoin | src/utils/onebot.ts:44-48 | a text starting with "/" is the slash followed by its space-free words joined back on single spaces |
| OnebotUtils.FlattenForward | src/utils/onebot.ts:77-87 | a failed `get_forward_msg` contributes no items |
| OnebotUtils.FlattenForwardSegment | src/utils/onebot.ts:61-114 | the nested loops with recursion push exactly the items of the specification `FlattenForward` |
| OnebotUtils.FlattenMessageSegments | src/utils/onebot.ts:92-110 | the inner loop over one forwarded message pushes exactly that message's items |
| OnebotUtils.FlattenSegment | src/utils/onebot.ts:94-109 | one segment pushes a nested forward's items, one processed item for a text, nothing otherwise |
| OnebotUtils.FlattenMessagesAppend | src/utils/onebot.ts:91-111 | messages are flattened one after another, so the order across messages is kept |
| OnebotUtils.FlattenSegmentsAppend | src/utils/onebot.ts:93-110 | segments are flattened one after another, so the order within a message is kept |
| OnebotUtils.NestedForwardInPlace | src/utils/onebot.ts:94-99 | a nested forward is replaced in place, depth-first, by its own flattening |
| OnebotUtils.OtherSegmentsDropped | src/utils/onebot.ts:107-109 | segments that are neither text nor forward contribute nothing |
| OnebotUtils.TextOnlyMessage | src/utils/onebot.ts:100-106 | a text-only message yields one processed item per segment, in order, carrying the message's sender and time |
| OnebotUtils.Reply | src/utils/onebot.ts:130-149 | no arguments gives status 204 with no body; otherwise status 200 with `at_sender` and one segment per argument in order, strings turned into text segments; src/utils/action.ts:8-27 behaves the same |
| SegmentUtils.IsAtSelfSegmentAt | src/utils/segment.ts:11-21 | the segment at the index exactly when it exists, is an @-segment and `Number(qq)` equals `self_id`; otherwise false; src/utils.ts:5-15 behaves the same |
| SegmentUtils.IsAtSelfSegmentAgrees | src/utils/segment.ts:11-21 | the index-based test agrees with the newer segment predicate applied to the event's own `self_id` |
| SegmentUtils.IsTextSegment | src/utils/segment.ts:23-30 | it returns the segment exactly when the index holds a text segment; that segment's text is trimmed in the event in place, and nothing else changes; src/utils.ts:17-24 behaves the same |
| SegmentUtils.IsForwardSegmentAt | src/utils/segment.ts:43-49 | the segment at the index exactly when it exists and is a forward segment |
| SegmentUtils.IsCommandText | src/utils/segment.ts:33-41 | false (None) exactly when the untrimmed text does not start with "/"; otherwise the space-separated name and args, which rebuild the text; `isCommand` at src/utils.ts:26-34 behaves the same |
| SegmentUtils.CommandParsersAgree | src/utils/segment.ts:33-41 | the newer parser is the older one applied to the trimmed text |
| SegmentUtils.LeadingBlankDefeatsIsCommandText | src/utils/segment.ts:33-41 | " /a" is no command for the older parser but the command `a` for the newer one |
| SegmentUtils.GetForward | src/utils/segment.ts:64-67 | a failed fetch returns the accumulator unchanged; the result always starts with the accumulator |
| SegmentUtils.GetForwardMessage | src/utils/segment.ts:52-88 | the loop with recursion returns exactly the specification `GetForward` |
| SegmentUtils.SegmentTurnsOf | src/utils/segment.ts:71-84 | one segment contributes a nested forward's expansion (with the same `result`), one user turn for a text, nothing otherwise |
| SegmentUtils.CurrentMessagesAppend | src/utils/segment.ts:69-85 | segments are expanded one after another, so order is kept |
| SegmentUtils.TextOnlyForward | src/utils/segment.ts:69-85 | plain texts give one user turn each, with trimmed content, in order |
| SegmentUtils.OtherSegmentContributesNothing | src/utils/segment.ts:69-85 | a segment that is neither text nor forward contributes no turn |
| SegmentUtils.AccumulatorRepeated | src/utils/segment.ts:74-87 | nested calls get the same accumulator, so a forward wrapping an empty forward yields the accumulator twice |
| LegacyUtils.Reply | src/utils.ts:46-60 | always a 200 JSON response with `at_sender`; a bare string exactly when the only argument is a string, else the argument array untouched |
| LegacyUtils.ReplyAgainstNewer | src/utils.ts:46-60 | against the newer reply: no arguments is a 200 with an empty array rather than 204, and one string is a bare string rather than a one-segment array |
| GroupData.Classify | src/utils/data.ts:27-49 | text first wins; otherwise an @-mention of the bot followed by text; otherwise a forward first; otherwise no shape. Texts are trimmed |
| GroupData.ShapeTurns | src/utils/data.ts:24-48 | a text gives one user turn named `nickname（user_id）` with the text; @+text gives content "@qq text"; a forward gives the expanded turns; anything else gives none |
| GroupData.TrimTextAt | src/utils/segment.ts:23-30 | the event's message with only the tested text segment trimmed |
| GroupData.ClassifyGroupMessage | src/utils/data.ts:23-50 | returns the turns of the message's shape and leaves the event with the first text trimmed, or else the second whenever it is text, since line 35 runs regardless of the @-test |
| GroupData.ClassifyNonText | src/utils/data.ts:33-49 | a message not starting with text yields the @-plus-text turn, a forward's turns or nothing, and only its second segment can be trimmed |
| GroupData.SaveGroupMessageAsWritten | src/utils/data.ts:18-53 | the call ends in an error and no log is created or changed, since the un-awaited read rejects (the `Ai` it reads is `{}`) and `push` is looked up on a Promise; the event's tested text segments are still trimmed in place first |
| GroupData.SaveGroupMessage | src/utils/data.ts:18-61 | with the log awaited, the message's turns are appended to the group's log, created empty on first use; every other log is unchanged |
| GroupData.TextFirstWins | src/utils/data.ts:28-31 | a leading text decides the shape whatever follows |
| GroupData.AtAllNotLogged | src/utils/data.ts:34-36 | "@all" followed by text is not logged |
| GroupData.AtOtherNotLogged | src/utils/data.ts:34-36 | an @-mention of someone else followed by text is not logged |
| Store.GroupHistories.Read | src/utils/data.ts:56-61 | get-or-create: an existing array is returned untouched; a missing one is installed from the seed |
| Store.GroupHistories.ReadAndAppend | src/routes/index.ts:43-49 | the group's history, or the seed on first use, gains the turns at its end; other groups keep their arrays and turns |
| Store.PendingList.SpliceIndexOf | src/routes/index.ts:97 | `splice(indexOf(id), 1)` on the shared list |
| Store.RemoveAtIndexOfPresent | src/index.ts:102 | with the id pending, exactly one occurrence of it goes |
| Store.RemoveAtIndexOfAbsent | src/index.ts:102 | with the id absent, `splice(-1, 1)` drops the last entry, whoever's it is |
| Store.PushThenRemove | src/routes/index.ts:40-97 | pushing a non-pending id and splicing it out restores the list exactly |
| Store.PushThenFilter | src/handlers/non-commands/ai.ts:218-220 | pushing a non-pending id and filtering it out restores the list exactly |
| OpenAiUtils.TextToMessage | src/utils/openai.ts:5-17 | content verbatim, role given or "user", name only when a non-empty string, no tool fields copied |
| OpenAiUtils.TextToMessageRebuilds | src/utils/openai.ts:5-17 | a turn without tool fields or an empty name is rebuilt exactly from its text, role and name |
| OpenAiUtils.ToolCallIdDropped | src/utils/openai.ts:9-16 | a `tool_call_id` passed in is not copied |
| AiCompletions.SystemTurns | src/handlers/non-commands/ai/utils.ts:62-64 | only system turns, each exactly as often as in the input |
| AiCompletions.SystemTurnsAppend | src/handlers/non-commands/ai/utils.ts:62-64 | the filter keeps each part's system turns in their order: it distributes over concatenation |
| AiCompletions.Completion | src/handlers/non-commands/ai/utils.ts:20-57 | no model, a transport error or empty content each throw their message; otherwise the content |
| AiCompletions.ChatCompletions | src/handlers/non-commands/ai/utils.ts:16-74 | returns `Completion`; a failure leaves `messages` untouched; a success truncates in place exactly when the token count reaches the limit; src/handlers/non-commands/ai.ts:144-194 behaves the same |
| AiCompletions.MissingUsageNeverTruncates | src/handlers/non-commands/ai/utils.ts:60-61 | a missing usage counts as 0 and never reaches a positive limit |
| AiCompletions.TruncatedLayout | src/handlers/non-commands/ai/utils.ts:62-69 | after truncation: all system turns first, then `original[n/2..]` in order; the length is n - n/2 + #system |
| AiCompletions.TruncatedCounts | src/handlers/non-commands/ai/utils.ts:62-69 | non-system turns of the first half are gone; system turns of the kept half appear twice |
| AiCompletions.SystemTurnsSurvive | src/handlers/non-commands/ai/utils.ts:62-69 | no system turn is ever lost |
| AiCompletions.ImageModel | src/handlers/non-commands/ai/utils.ts:82-84 | the first special model for image understanding, or none exactly when there is none |
| AiCompletions.ImageToText | src/handlers/non-commands/ai/utils.ts:81-120 | throws without an image model, on a failed conversion, or for GIF data, before any completion; otherwise that model's completion |
| ModelSelection.FindModel | src/handlers/non-commands/ai.ts:116-123 | the first model whose lowercased name is the lowercased input, whose aliases contain it, or whose id is it; none exactly when no model answers |
| ModelSelection.SelectableByName | src/handlers/non-commands/ai.ts:117-120 | every model is found by its name in any letter case |
| ModelSelection.CaseInsensitive | src/handlers/non-commands/ai.ts:117 | the lookup does not depend on the input's letter case |
| ModelSelection.UpperCaseAliasUnreachable | src/handlers/non-commands/ai/index.ts:12-16 | an alias with an upper-case letter can never match |
| AiLegacy.FirstModel | src/handlers/non-commands/ai.ts:113 | `models[0]`, undefined exactly for an empty list |
| AiLegacy.ChatReply | src/handlers/non-commands/ai.ts:222-232 | failure replies "消息生成失败：" + message; success replies the text |
| AiLegacy.FailureKeepsInboundInHistory | src/handlers/non-commands/ai.ts:216-224 | on failure the group's history keeps the inbound turns, and only the caller's array loses its last turn |
| AiLegacy.AiModule.constructor | src/handlers/non-commands/ai.ts:113 | the active model and the exported field both start at `models[0]`; no group is pending |
| AiLegacy.AiModule.ChangeModel | src/handlers/non-commands/ai.ts:116-130 | returns the lookup; a hit rebinds the active model, a miss keeps it |
| AiLegacy.AiModule.Chat | src/handlers/non-commands/ai.ts:197-233 | a busy group throws before anything changes; otherwise the history (seeded with two system prompts) gains the inbound turns, the completion runs on the active model, and the group is pending only during it. The history and the caller's array end as the specification functions say |
| AiLegacy.CompleteAndSettle | src/handlers/non-commands/ai.ts:219-231 | request, then on failure pop the caller's last turn, or on success append one assistant turn |
| AiLegacy.AppendAndSettle | src/handlers/non-commands/ai.ts:206-231 | the group's history (seeded on first use) gains the caller's turns and then the settled completion; the caller's array is popped on failure; no other group changes |
| AiLegacy.ExportIsLoadTimeSnapshot | src/handlers/non-commands/ai.ts:113-130 | after loading and any switch, the exported field still holds `models[0]` while the active model is the one switched to (or `models[0]` after a miss) |
| AiChat.RolledBack | src/handlers/non-commands/ai/chat.ts:29 | `splice(-k)` keeps all but the last k turns for k > 0, and keeps nothing for k = 0 |
| AiChat.RolledBackIntended | src/handlers/non-commands/ai/chat.ts:29 | removes exactly the last k turns |
| AiChat.IntendedRollbackRestores | src/handlers/non-commands/ai/chat.ts:25-30 | the intended rollback undoes any append, the empty one included |
| AiChat.RollbackRestores | src/handlers/non-commands/ai/chat.ts:25-30 | as written, the rollback undoes a non-empty append exactly |
| AiChat.RollbackOfNothingWipesHistory | src/handlers/non-commands/ai/chat.ts:29 | a failure after no inbound turns wipes the whole history |
| AiChat.ChatReply | src/handlers/non-commands/ai/chat.ts:21-38 | a rejection of `onebotToOpenai` propagates; a failure answers "消息生成失败：" + message; a success answers the text |
| AiChat.FailedChatLeavesHistory | src/handlers/non-commands/ai/chat.ts:28-30 | a failed completion after inbound turns leaves the history as before |
| AiChat.SuccessfulChatExtendsHistory | src/handlers/non-commands/ai/chat.ts:33-38 | below the token limit, success leaves the history followed by the inbound turns and one assistant turn |
| AiChat.Chat | src/handlers/non-commands/ai/chat.ts:12-39 | the history (seeded with one system prompt) ends as `HistoryAfterChat`, the reply as `ChatReply`, and other groups are untouched |
| AiChat.CompleteAndSettle | src/handlers/non-commands/ai/chat.ts:27-38 | request, then roll back with `splice(-k)` or append the answer |
| AiHandle.SceneText | src/handlers/non-commands/ai/index.ts:38-44 | "chat" gives `chat(e)`, "summarize" gives the summary |
| AiHandle.AiIndex.constructor | src/handlers/non-commands/ai/index.ts:8 | the active model and the exported field start at `models[0]` |
| AiHandle.AiIndex.ChangeModel | src/handlers/non-commands/ai/index.ts:11-25 | returns the lookup; a hit rebinds the active model, a miss keeps it |
| AiHandle.AiIndex.Handle | src/handlers/non-commands/ai/index.ts:31-47 | a pending group gets the busy reply with nothing changed; otherwise the scene's text is replied and the group filtered out, and if the scene throws the group stays pending |
| ToolUtils.DefineTool | src/tools/utils.ts:3-9 | the descriptor and handler come back unchanged |
| ToolUtils.PropertyKeys | src/tools/utils.ts:15 | the property keys in declaration order, none without properties |
| ToolUtils.ValidateArgs | src/tools/utils.ts:11-22 | ok exactly when every property key is `in` the args; else "缺少参数" + the first missing key in property order |
| ToolUtils.NoPropertiesAlwaysValid | src/tools/utils.ts:15 | a descriptor without properties always validates |
| ToolUtils.ExtraArgumentsIgnored | src/tools/utils.ts:16-21 | more arguments never make valid arguments invalid |
| ToolUtils.ValidateRequired | src/tools/utils.ts:11-22 | the intended check: ok exactly when every `required` key is present |
| ToolUtils.ChecksAgreeWhenAllRequired | src/tools/utils.ts:15-20 | when properties and `required` hold the same keys, the two checks agree |
| ToolUtils.OptionalPropertyDemanded | src/tools/utils.ts:15-20 | a declared but optional property is still demanded by the check as written |
| ToolUtils.InheritedNamesAlwaysPresent | src/tools/utils.ts:17 | properties named like inherited members are never missing for `in` |
| ChangeModelTool.ModelRef.constructor | src/tools/changeModel.ts:4-6 | `modelRef.value` starts at `MODELS[0]` |
| ChangeModelTool.ModelNames | src/tools/changeModel.ts:19 | the model names, in order |
| ChangeModelTool.DescriptorShape | src/tools/changeModel.ts:8-27 | one property `name`, required, whose enum lists every model name in order |
| ChangeModelTool.DescriptorValidation | src/tools/changeModel.ts:17-24 | arguments pass exactly when they carry `name`, and both checks agree here |
| ChangeModelTool.Target | src/tools/changeModel.ts:30 | the first model whose name strictly equals the string `name`; case-sensitive |
| ChangeModelTool.Answer | src/tools/changeModel.ts:31-35 | "切换失败，模型不存在" exactly on a miss; "模型已切换至 " + the name on a hit |
| ChangeModelTool.Handle | src/tools/changeModel.ts:29-36 | returns `Answer`; a hit sets `modelRef.value`, a miss leaves it |
| ChangeModelTool.EveryEnumValueSwitches | src/tools/changeModel.ts:19-30 | every enum value offered switches to a model of that name |
| Tools.ToolTableNames | src/tools/index.ts:11-17 | five descriptors in the order changeModel, getWeather, summarizeChat, decodeAbbr, searchWeb, all known to the switch |
| Tools.External | src/tools/index.ts:44-63 | a network-backed case exists exactly for the four names other than changeModel |
| Tools.RunExternal | src/tools/index.ts:44-63 | validation first; its error is the result, else the handler's answer as is |
| Tools.Dispatch | src/tools/index.ts:23-73 | a parse error or non-object leaves `modelRef` alone; a result implies parsed object arguments, a function-calling model and a known name |
| Tools.HandleTool | src/tools/index.ts:23-73 | the result and the new `modelRef` are those of `Dispatch` |
| Tools.NonObjectRejectedFirst | src/tools/index.ts:27-30 | non-object arguments throw "参数必须是对象" before model selection |
| Tools.NoModelRejects | src/tools/index.ts:32-35 | without a function-calling model every call throws, leaving `modelRef` empty |
| Tools.UnknownNameRejected | src/tools/index.ts:64-66 | an unknown name throws with that name, after `modelRef` was overwritten |
| Tools.ValidationBeforeHandler | src/tools/index.ts:44-48 | a failed check makes the handler irrelevant; a passed one returns the handler's answer |
| Tools.SummarizerGetsEventGroup | src/tools/index.ts:49-53 | summarizeChat always gets the event's `group_id`, whatever `groupId` the model sent |
| Tools.SwitchThroughDispatcher | src/tools/index.ts:32-43 | a changeModel call answers normally; `modelRef` ends on the match, or on the function-calling model after a miss |
| Tools.EveryListedToolDispatches | src/tools/index.ts:11-66 | each listed tool reaches its own case and is checked against the very descriptor announced |
| ToolLoop.HistorySeed | src/routes/index.ts:43-45 | one system turn holding the system prompt |
| ToolLoop.FunctionCallsOf | src/routes/index.ts:63-65 | exactly the calls of type "function" |
| ToolLoop.FunctionCalls | src/routes/index.ts:63-65 | a missing `tool_calls` gives none; otherwise exactly its function calls |
| ToolLoop.ToolRun | src/routes/index.ts:74-86 | at most one turn per call; a failure is some call's rejection |
| ToolLoop.AllToolsAnswer | src/routes/index.ts:74-86 | when every tool answers, one tool turn per call in order, with `tool_call_id = tool.id` |
| ToolLoop.FailurePersists | src/routes/index.ts:74-86 | after a rejection the later calls never run |
| ToolLoop.FirstRejectionStops | src/routes/index.ts:74-86 | the first rejection ends the round with the earlier tools' turns kept |
| ToolLoop.RoundAppendsCompletionThenTools | src/routes/index.ts:57-89 | a round appends its completion, then one tool turn per function call, and stops only without `tool_calls` |
| ToolLoop.LimitStopsBeforeTools | src/routes/index.ts:66-72 | tool calls at `count === MAX_TOOL_COUNT` throw the limit message before any tool runs |
| ToolLoop.StopsWithoutToolCalls | src/routes/index.ts:91-94 | a completion without `tool_calls` ends the loop as the response |
| ToolLoop.EmptyToolCallsAskAgain | src/routes/index.ts:93 | an empty `tool_calls` array does not stop the loop |
| ToolLoop.LoopOnlyAppends | src/routes/index.ts:53-96 | whatever happens, the starting turns remain the prefix; nothing is rolled back |
| ToolLoop.NoLimitNoLimitFailure | src/index.ts:70-96 | without a limit a round fails only through the endpoint or a tool |
| ToolLoop.RunLoop | src/routes/index.ts:53-96 | the in-place loop ends with the turns and response of `Loop` |
| ToolLoop.RunRound | src/routes/index.ts:55-90 | one in-place round ends with the turns and outcome of `Round` |
| ToolLoop.Round | src/routes/index.ts:55-90 | a round only appends: the turns it starts from remain the prefix of its turns |
| ToolLoop.RunTools | src/routes/index.ts:74-86 | the in-place `for` loop appends exactly the turns of `ToolRun` and reports its rejection |
| ToolLoop.AppendAndRun | src/routes/index.ts:43-96 | the group's history (seeded on first use) gains the inbound turns and then ends as the loop's turns; no other group changes |
| ToolLoop.ServeGroup | src/routes/index.ts:40-97 | a rejected inbound conversion leaves the group pending with its history as read; otherwise the history ends as the loop's turns from the old history plus the inbound turns and the group is no longer pending |
| Routes.LoopReply | src/routes/index.ts:100-108 | the error's message, the normalised content, or "……" for empty content |
| Routes.Post | src/routes/index.ts:19-109 | no admission gives the empty reply with nothing changed; a busy group gets the busy text with nothing changed; a rejected `onebotToOpenai` leaves the group pending with its history as read; otherwise the history is the loop's turns from the seeded history plus the inbound turn, pending is restored, and other groups are untouched |
| Routes.NoRollback | src/routes/index.ts:97-102 | the old turns and the inbound turn stay, whether the loop succeeded or failed |
| Routes.DirectAnswer | src/routes/index.ts:57-60 | a first completion without tool calls gives history + [inbound, completion] and the reply with its content |
| Server.RestSegments | src/index.ts:42 | the message without the one @-segment |
| Server.AddressedIffMentionAndMore | src/index.ts:38-45 | with the corrected @-lookup, an event is answered exactly when some segment @-mentions the bot and there is more than one segment |
| Server.LoopReply | src/index.ts:105-112 | the error's message, the content, or "……" |
| Server.NeverAddressedAsWritten | src/index.ts:38-41 | as written no event passes the gate, since the lookup never matches |
| Server.PostAsWritten | src/index.ts:28-113 | as written every request gets the empty 204 reply, and neither the pending list nor any history changes |
| Server.Post | src/index.ts:28-113 | with the corrected @-lookup: as `Routes.Post`, but the gate needs @self plus more, all inbound turns are appended, and the loop has no limit |
| Server.InboundTurnsKept | src/index.ts:55-61 | all inbound turns follow the old history in order, ahead of what the loop appends |
| Server.NoToolRoundLimit | src/index.ts:68-101 | the handler's loop never fails with the tool-round limit message |
| NonCommands.RouteOf | src/handlers/non-commands/index.ts:11-20 | no turns is a parse failure; a first turn of ASCII letters that is not ignored is decoded; everything else is chat |
| NonCommands.HandleMessages | src/handlers/non-commands/index.ts:7-21 | the parse-failure reply, the decoder's reply, or the chat's outcome, per route |
| NonCommands.OnlyFirstTurnInspected | src/handlers/non-commands/index.ts:15 | turns after the first never change the route |
| NonCommands.NonWordsChat | src/handlers/non-commands/index.ts:16-20 | ignored words and texts with a non-letter go to the chat |
| NonCommands.LettersDecoded | src/handlers/non-commands/index.ts:16-18 | a non-ignored ASCII word is decoded |
| Commands.DefineCommand | src/handlers/commands/index.ts:20 | the identity |
| Commands.Lookup | src/handlers/commands/index.ts:33 | the first own entry under the key, none exactly when there is none |
| Commands.CommandMapEntries | src/handlers/commands/index.ts:22-26 | exactly the keys 天气, 模型, 总结一下, each finding its command; the oldest table at src/handlers/command.ts:137-141 has the same three keys |
| Commands.HelpLineNumber | src/handlers/commands/index.ts:39 | each listing line carries its 1-based number, which reads back |
| Commands.HelpArgs | src/handlers/commands/index.ts:35-42 | the heading, then one line per command in table order |
| Commands.HandleCommandAsWritten | src/handlers/commands/index.ts:28-47 | inherited member names such as "toString" throw instead of listing |
| Commands.HandleCommand | src/handlers/commands/index.ts:28-47 | a known name runs its handler with `(args, e)`; any other name gets the listing |
| Commands.InheritedNamesThrow | src/handlers/commands/index.ts:33-34 | the two agree except on inherited names |
| Commands.ToStringThrows | src/handlers/commands/index.ts:33-46 | "/toString" throws rather than listing |
| Commands.UnknownNameLists | src/handlers/commands/index.ts:34-42 | an unknown name gets a 200 reply: heading, then numbered lines in order |
| LegacyCommands.HandleCommandAsWritten | src/handlers/command.ts:143-162 | inherited member names throw instead of listing |
| LegacyCommands.HandleCommand | src/handlers/command.ts:143-162 | a known name runs `handle(e, ...args)` with args defaulting to []; others get the listing |
| LegacyCommands.MissingArgsAreEmpty | src/handlers/command.ts:161 | missing args behave like [] |
| LegacyCommands.InheritedNamesThrow | src/handlers/command.ts:148-149 | the two agree except on inherited names |
| LegacyCommands.UnknownNameLists | src/handlers/command.ts:149-157 | a 200 JSON reply whose body is the heading then numbered lines in order |

## Left out

- HTTP and server plumbing is not modelled: `Bun.serve`, the environment checks, `req.json()`
  and every `fetch`. Each network answer is a parameter, either a value or an error message.
- The network tools are not modelled: getWeather, searchWeb, decodeAbbr, summarizeChat, the
  summariser, the weather command, the abbreviation decoder and the recorder route. They are
  HTTP wrappers plus formatting, and they appear only as handler parameters.
- The valibot schemas are not modelled: validation is an `Option` of the parsed event. The
  constants (`MODELS`, `SPECIAL_MODELS`, `MAX_TOOL_COUNT`, `REPLY_PROBABILITY_NOT_BE_AT`, the
  prompts) are parameters.
- Files that do not parse or only call undefined code are not modelled:
  - `src/handlers/plain-texts/*`
  - `src/handlers/plain-text.ts`
  - `src/handlers/commands/change-model.ts`
  - `src/function-calls/changeModel.ts`
  - `src/utils/chat.ts`

  `src/utils/common.ts` is file I/O and is not modelled either.
- The library helpers are modelled only as their call sites use them:
  - `to` becomes catch-into-`Result`.
  - `loopUntil` is modelled as far as `shouldStop` and `maxRetries` state. Its first counter
    value, the retry budget `src/index.ts` gets by default, and its rejection when the budget is
    used up are parameters.
  - `normalizeText` is a parameter.
  - `compactStr` and `timeLog` only log and are dropped.
  - `isObject` is taken to mean a JSON object.
- `JSON.parse` and `Number(...)` are parameters: a parse result, and a string-to-number map
  where `None` stands for NaN. JSON numbers are integers.
- `Math.random() > REPLY_PROBABILITY_NOT_BE_AT` is a boolean input.
- Concurrency is not modelled. Each request runs to its end before the next, so the pending
  lists are sequential state.
- ToolLoop.RunRound: the completion call that the two request handlers import is not part of
  this model. It is taken to return the completion without touching the turns.
- ToolLoop.ToolTurn: the tool turn keeps `tool_call_id`, as the handlers' call site writes it.
  The `textToMessage` of `src/utils/openai.ts` would drop it (`OpenAiUtils.ToolCallIdDropped`), but the handlers
  import a later version of that module.
- Routes.Post: the @-mention gate uses the corrected `OnebotUtils.AtSelfIndex`. The handler
  imports `normalizeText` from a later `onebot` module that is not part of this model, so the
  `isAtSelfSegment` of `src/utils/onebot.ts` (and its finding) is pinned to `src/index.ts` only,
  where `Server.PostAsWritten` models it.
- AddressedIffMentionAndMore: states the gate with the corrected @-lookup. As written no event
  passes it at all (`Server.NeverAddressedAsWritten`), and `Server.PostAsWritten` replies 204 to
  everything.
- Server.Post: the handler with the corrected @-lookup. It answers @-mentions that the code as
  written ignores; the code as written is `Server.PostAsWritten`.
- ModelSelection.FindModel: `toLowerCase()` folds the case of all of Unicode; the model lowers
  only the ASCII letters A-Z. Input with other cased letters, such as fullwidth "ＧＥＭＩＮＩ" or "É",
  may find a model in the source and none in the model.
- ToolUtils.PropertyKeys: `Object.keys` lists integer-like keys first, in ascending order; the model
  keeps declaration order. No tool descriptor in the source has such a key.
- Routes.Post: tool calls inside the loop go through `chooseAndHandleTool`, which is not part
  of this model, so its answer is a parameter and not `Tools.HandleTool`.
- Tools.HandleTool: external tool handlers are taken not to write `modelRef`, and
  `selectFunctionCallingModel` is a parameter.
- NonCommands.RouteOf: the ignored words come from `src/handlers/plain-texts/nbnhhsh.ts:7`.
  The decoder file that the router imports is not part of this model.
- OnebotUtils.FlattenForward: nested forwards are followed only to a depth bound, so a forward
  nested deeper contributes nothing. The same holds for SegmentUtils.GetForward.
- Commands.HandleCommandAsWritten: the TypeError's wording is the engine's and is approximated.
  The same holds for LegacyCommands.HandleCommandAsWritten and GroupData.SaveGroupMessageAsWritten.
- AiLegacy.AiModule.Chat and AiHandle.AiIndex.Handle: `summarize` of `ai.ts` is a stub reply and
  is not modelled. The summary scene's text is a parameter.
- AiCompletions.ImageToText: the conversion to base64 and the image prompt are parameters.
- GroupData.SaveGroupMessage: the corrected save, and Store.GroupHistories.Read where it cites
  `readGroupFullMessages` (src/utils/data.ts:56-61), take the per-group log map to exist. The `Ai`
  object that src/utils/data.ts:3 imports is `{}` (src/handlers/plain-text.ts:13), so line 57 as
  written reads a property of `undefined` and throws before any log exists;
  `GroupData.SaveGroupMessageAsWritten` models that.
- Commands.HelpArgs: `src/handlers/commands/index.ts:3` imports `makeTextSegment` from an `onebot`
  module that exports no such function in the version modelled here (it has `textToSegment`).
  The handler evidently imports a later version, so the listing's text segments are built with
  `SegmentUtils.MakeTextSegment`.
- SegmentUtils.GetForward: `fetch` gives the forward's content as a flat list of segments, as
  `src/utils/segment.ts:70` iterates `response.data`. The response type it declares
  (`src/schemas/onebot/http.ts:17-27`) nests the list under `data.messages`, and iterating that
  object would throw.

## Findings

| source | as written | input that shows it | evidently intended | confidence | as-written member | corrected member |
|---|---|---|---|---|---|---|
| src/index.ts:38 | `e.message.findIndex(isAtSelfSegment)` passes each segment's index as `isAtSelfSegment`'s `e`, so `e.self_id` is undefined and nothing matches | an event of self_id 10 with message [at qq "10", text "hi"]: the lookup gives -1 and the bot replies with the empty response | the index of the first @-segment for `e.self_id` | not executed | Server.PostAsWritten | Server.Post |
| src/utils/data.ts:20 | `readGroupFullMessages` is async and not awaited, so `push` at line 52 is looked up on a Promise and throws | any logged text message: the call throws a TypeError and no turn reaches any log | the message's turns appended to the group's log | not executed | GroupData.SaveGroupMessageAsWritten | GroupData.SaveGroupMessage |
| src/handlers/non-commands/ai/chat.ts:29 | `splice(-messages.length)` with no inbound turns is `splice(0)` | `onebotToOpenai` gives [] and the completion fails: the whole history, system prompt included, is deleted | remove exactly the inbound turns | not executed | AiChat.RollbackOfNothingWipesHistory | AiChat.IntendedRollbackRestores |
| src/tools/utils.ts:15-20 | every key of `parameters.properties` is demanded, not only the `required` ones | a summarizeChat call without its optional `count` is rejected with "缺少参数count" | only the `required` keys demanded | not executed | ToolUtils.OptionalPropertyDemanded | ToolUtils.ValidateRequired |
| src/handlers/commands/index.ts:33-34 | `commandMap[fn]` also finds inherited members such as `toString`, which have no `handle` | the command "/toString" throws a TypeError instead of listing the commands | inherited names get the listing | not executed | Commands.ToStringThrows | Commands.HandleCommand |
| src/handlers/command.ts:148-149 | the same lookup in the oldest command table | "/constructor" throws instead of listing | inherited names get the listing | not executed | LegacyCommands.InheritedNamesThrow | LegacyCommands.HandleCommand |
