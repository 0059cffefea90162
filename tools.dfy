/**
 * The function-tool table announced to the completion endpoint, and `handleTool`, which
 * parses a tool call's arguments, points the shared model reference at the
 * function-calling model, checks the arguments and runs the named tool.
 */
module Tools {
  import opened Js
  import opened Schemas
  import opened ToolUtils
  import ChangeModelTool

  /** A network-backed tool handler: its answer, or the message it rejects with. */
  type Handler = map<string, Json> -> Result<string>

  /** The four tools implemented by network wrappers, each a descriptor with its handler. */
  datatype ExternalTools = ExternalTools(
    getWeather: DefinedTool<Handler>, summarizeChat: DefinedTool<Handler>,
    decodeAbbr: DefinedTool<Handler>, searchWeb: DefinedTool<Handler>)

  /** The descriptors carry the names their files declare. */
  predicate WellNamed(ext: ExternalTools) {
    ext.getWeather.tool.name == "getWeather" && ext.summarizeChat.tool.name == "summarizeChat" &&
    ext.decodeAbbr.tool.name == "decodeAbbr" && ext.searchWeb.tool.name == "searchWeb"
  }

  const NotObjectMessage := "参数必须是对象"
  const NoFunctionCallingModelMessage := "必须先配置一个支持 Function Calling 的模型"

  /** The rejection for a name the switch does not know. */
  function UnknownToolMessage(name: string): string {
    "调用了不存在的函数（ " + name + "）"
  }

  /** The names the switch dispatches on. */
  const KnownNames: set<string> := {"changeModel", "getWeather", "summarizeChat", "decodeAbbr", "searchWeb"}

  /** `tools`: the descriptors, in the order changeModel, getWeather, summarizeChat, decodeAbbr, searchWeb. */
  function ToolTable(models: seq<Model>, ext: ExternalTools): seq<ToolDescriptor> {
    [ChangeModelTool.Descriptor(models), ext.getWeather.tool, ext.summarizeChat.tool, ext.decodeAbbr.tool,
     ext.searchWeb.tool]
  }

  /** The table announces the five tools by name in that order, and every one of them is a name the switch knows. */
  lemma ToolTableNames(models: seq<Model>, ext: ExternalTools)
    requires WellNamed(ext)
    ensures var table := ToolTable(models, ext);
            |table| == 5 && table[0].name == "changeModel" && table[1].name == "getWeather" &&
            table[2].name == "summarizeChat" && table[3].name == "decodeAbbr" && table[4].name == "searchWeb"
    ensures forall i :: 0 <= i < |ToolTable(models, ext)| ==> ToolTable(models, ext)[i].name in KnownNames
  {
  }

  /** What a dispatch ends with: the result (or rejection) and the value left in `modelRef`. */
  datatype Dispatched = Dispatched(result: Result<string>, modelRef: Option<Model>)

  /** The network-backed case of the switch that `name` selects, if any. */
  function External(ext: ExternalTools, name: string): (r: Option<DefinedTool<Handler>>)
    ensures r.Some? <==> name in KnownNames - {"changeModel"}
  {
    if name == "getWeather" then Some(ext.getWeather)
    else if name == "summarizeChat" then Some(ext.summarizeChat)
    else if name == "decodeAbbr" then Some(ext.decodeAbbr)
    else if name == "searchWeb" then Some(ext.searchWeb)
    else None
  }

  /** A network-backed case of the switch: check `args` against the descriptor, then hand `handlerArgs` over. */
  function RunExternal(tool: DefinedTool<Handler>, args: map<string, Json>, handlerArgs: map<string, Json>,
                       selected: Option<Model>): (d: Dispatched)
    ensures d.modelRef == selected
    ensures ValidateArgs(args, tool.tool).Err? ==> d.result == Err(ValidateArgs(args, tool.tool).message)
    ensures ValidateArgs(args, tool.tool).Ok? ==> d.result == tool.handle(handlerArgs)
  {
    match ValidateArgs(args, tool.tool)
    case Err(message) => Dispatched(Err(message), selected)
    case Ok(_) => Dispatched(tool.handle(handlerArgs), selected)
  }

  /**
   * `handleTool(tool, e)` as a value. `parsed` is what `JSON.parse` made of the call's
   * arguments (or its error message), `selected` what `selectFunctionCallingModel()`
   * returned, `before` the value `modelRef` had.
   */
  function Dispatch(call: ToolCall, parsed: Result<Json>, groupId: int, selected: Option<Model>,
                    models: seq<Model>, ext: ExternalTools, before: Option<Model>): (d: Dispatched)
    ensures parsed.Err? || !parsed.value.JObj? ==> d.modelRef == before
    ensures d.result.Ok? ==> parsed.Ok? && parsed.value.JObj? && selected.Some? && call.name in KnownNames
  {
    if parsed.Err? then Dispatched(Err(parsed.message), before)
    else if !parsed.value.JObj? then Dispatched(Err(NotObjectMessage), before)
    else if selected.None? then Dispatched(Err(NoFunctionCallingModelMessage), selected)
    else
      var args := parsed.value.fields;
      if call.name == "changeModel" then
        match ValidateArgs(args, ChangeModelTool.Descriptor(models))
        case Err(message) => Dispatched(Err(message), selected)
        case Ok(_) =>
          var target := ChangeModelTool.Target(models, args);
          Dispatched(Ok(ChangeModelTool.Answer(models, args)), if target.Some? then target else selected)
      else if External(ext, call.name).Some? then
        RunExternal(External(ext, call.name).value, args,
                    if call.name == "summarizeChat" then args["groupId" := JNum(groupId)] else args, selected)
      else Dispatched(Err(UnknownToolMessage(call.name)), selected)
  }

  /**
   * `handleTool(tool, e)`: arguments that do not parse to an object are rejected before
   * `modelRef` is touched; then `modelRef` is overwritten with the function-calling model
   * (rejecting when there is none), and the switch validates and runs the named tool.
   */
  method HandleTool(modelRef: ChangeModelTool.ModelRef, call: ToolCall, parsed: Result<Json>, e: GroupMessageEvent,
                    selected: Option<Model>, models: seq<Model>, ext: ExternalTools) returns (r: Result<string>)
    modifies modelRef
    ensures r == Dispatch(call, parsed, e.groupId, selected, models, ext, old(modelRef.value)).result
    ensures modelRef.value == Dispatch(call, parsed, e.groupId, selected, models, ext, old(modelRef.value)).modelRef
  {
    if parsed.Err? {
      return Err(parsed.message);
    }
    if !parsed.value.JObj? {
      return Err(NotObjectMessage);
    }
    var args := parsed.value.fields;
    modelRef.value := selected;
    if modelRef.value.None? {
      return Err(NoFunctionCallingModelMessage);
    }
    var name := call.name;
    if name == "changeModel" {
      var valid := ValidateArgs(args, ChangeModelTool.Descriptor(models));
      if valid.Err? {
        return Err(valid.message);
      }
      var answer := ChangeModelTool.Handle(modelRef, models, args);
      r := Ok(answer);
    } else if External(ext, name).Some? {
      var tool := External(ext, name).value;
      var valid := ValidateArgs(args, tool.tool);
      if valid.Err? {
        return Err(valid.message);
      }
      r := tool.handle(if name == "summarizeChat" then args["groupId" := JNum(e.groupId)] else args);
    } else {
      r := Err(UnknownToolMessage(name));
    }
  }

  /** Arguments that are not an object are rejected, whatever model would have been selected, and `modelRef` keeps its value. */
  lemma NonObjectRejectedFirst(call: ToolCall, v: Json, groupId: int, selected: Option<Model>,
                               models: seq<Model>, ext: ExternalTools, before: Option<Model>)
    requires !v.JObj?
    ensures Dispatch(call, Ok(v), groupId, selected, models, ext, before) == Dispatched(Err(NotObjectMessage), before)
  {
  }

  /** Without a function-calling model every call with object arguments is rejected, and `modelRef` is left empty. */
  lemma NoModelRejects(call: ToolCall, fields: map<string, Json>, groupId: int, models: seq<Model>,
                       ext: ExternalTools, before: Option<Model>)
    ensures Dispatch(call, Ok(JObj(fields)), groupId, None, models, ext, before) ==
            Dispatched(Err(NoFunctionCallingModelMessage), None)
  {
  }

  /** An unknown name is rejected with its own name in the message; `modelRef` has already been overwritten. */
  lemma UnknownNameRejected(call: ToolCall, fields: map<string, Json>, groupId: int, selected: Option<Model>,
                            models: seq<Model>, ext: ExternalTools, before: Option<Model>)
    requires selected.Some? && call.name !in KnownNames
    ensures Dispatch(call, Ok(JObj(fields)), groupId, selected, models, ext, before) ==
            Dispatched(Err(UnknownToolMessage(call.name)), selected)
  {
  }

  /**
   * For a network-backed tool, a failed argument check is the result and the handler's
   * answer plays no part in it; a passed one makes the handler's answer the result, as is.
   */
  lemma ValidationBeforeHandler(call: ToolCall, fields: map<string, Json>, groupId: int, selected: Option<Model>,
                                models: seq<Model>, ext: ExternalTools, other: Handler, before: Option<Model>)
    requires selected.Some? && call.name == "getWeather"
    ensures ValidateArgs(fields, ext.getWeather.tool).Err? ==>
              Dispatch(call, Ok(JObj(fields)), groupId, selected, models, ext, before) ==
              Dispatch(call, Ok(JObj(fields)), groupId, selected, models,
                       ext.(getWeather := ext.getWeather.(handle := other)), before)
    ensures ValidateArgs(fields, ext.getWeather.tool).Ok? ==>
              Dispatch(call, Ok(JObj(fields)), groupId, selected, models, ext, before).result ==
              ext.getWeather.handle(fields)
  {
  }

  /** The summariser always receives the event's group id: a `groupId` the model supplied makes no difference. */
  lemma SummarizerGetsEventGroup(call: ToolCall, fields: map<string, Json>, supplied: Json, groupId: int,
                                 selected: Option<Model>, models: seq<Model>, ext: ExternalTools, before: Option<Model>)
    requires selected.Some? && call.name == "summarizeChat"
    requires ValidateArgs(fields, ext.summarizeChat.tool).Ok?
    ensures Dispatch(call, Ok(JObj(fields["groupId" := supplied])), groupId, selected, models, ext, before) ==
            Dispatch(call, Ok(JObj(fields)), groupId, selected, models, ext, before)
    ensures Dispatch(call, Ok(JObj(fields)), groupId, selected, models, ext, before).result ==
            ext.summarizeChat.handle(fields["groupId" := JNum(groupId)])
  {
    assert fields["groupId" := supplied] == fields + map["groupId" := supplied];
    ExtraArgumentsIgnored(fields, map["groupId" := supplied], ext.summarizeChat.tool);
    assert fields["groupId" := supplied]["groupId" := JNum(groupId)] == fields["groupId" := JNum(groupId)];
  }

  /**
   * Through the dispatcher, a switch to a name no model has still answers normally, but
   * `modelRef` ends on the function-calling model rather than on the value it had; a
   * switch that matches ends on the matched model.
   */
  lemma SwitchThroughDispatcher(call: ToolCall, fields: map<string, Json>, groupId: int, selected: Option<Model>,
                                models: seq<Model>, ext: ExternalTools, before: Option<Model>)
    requires selected.Some? && call.name == "changeModel" && "name" in fields
    ensures var d := Dispatch(call, Ok(JObj(fields)), groupId, selected, models, ext, before);
            d.result == Ok(ChangeModelTool.Answer(models, fields)) &&
            d.modelRef == if ChangeModelTool.Target(models, fields).Some? then ChangeModelTool.Target(models, fields)
                          else selected
  {
    ChangeModelTool.DescriptorValidation(fields, models);
  }

  /**
   * Every tool of the table reaches its own case of the switch, and its arguments are
   * checked against the very descriptor the table announces.
   */
  lemma EveryListedToolDispatches(models: seq<Model>, ext: ExternalTools, i: nat)
    requires WellNamed(ext) && i < 5
    ensures i == 0 <==> ToolTable(models, ext)[i].name == "changeModel"
    ensures i == 0 ==> ToolTable(models, ext)[i] == ChangeModelTool.Descriptor(models)
    ensures i > 0 ==> External(ext, ToolTable(models, ext)[i].name).Some? &&
                      External(ext, ToolTable(models, ext)[i].name).value.tool == ToolTable(models, ext)[i]
  {
  }
}
