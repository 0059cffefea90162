/**
 * The `changeModel` function tool: its descriptor, and its handler, which switches the
 * shared model reference by exact name.
 */
module ChangeModelTool {
  import opened Js
  import opened Schemas
  import opened ToolUtils
  import AiLegacy

  const ToolName := "changeModel"
  const ToolDescription := "切换系统底层的大语言模型。当用户请求切换到特定模型时调用"
  const SwitchFailedMessage := "切换失败，模型不存在"
  const SwitchedPrefix := "模型已切换至 "

  /** `modelRef`: the model the tool loop runs on, shared with the dispatcher. */
  class ModelRef {
    var value: Option<Model>

    /** `{ value: MODELS[0] }` */
    constructor (models: seq<Model>)
      ensures value == AiLegacy.FirstModel(models)
    {
      value := AiLegacy.FirstModel(models);
    }
  }

  /** `MODELS.map(model => model.name)` */
  function ModelNames(models: seq<Model>): (r: seq<string>)
    ensures |r| == |models|
    ensures forall i :: 0 <= i < |r| ==> r[i] == models[i].name
  {
    seq(|models|, i requires 0 <= i < |models| => models[i].name)
  }

  /** The descriptor: one string property `name`, enumerating the model names, and required. */
  function Descriptor(models: seq<Model>): ToolDescriptor {
    ToolDescriptor(ToolName, ToolDescription, Some([Property("name", Some(ModelNames(models)))]), ["name"])
  }

  /** The descriptor announces exactly one property, `name`; its enum lists every model name in order. */
  lemma DescriptorShape(models: seq<Model>)
    ensures PropertyKeys(Descriptor(models)) == ["name"] == Descriptor(models).required
    ensures forall i :: 0 <= i < |models| ==> Descriptor(models).properties.value[0].enumValues.value[i] == models[i].name
  {
  }

  /** Arguments pass the dispatcher's check exactly when they carry `name`, and both checks agree here. */
  lemma DescriptorValidation(args: map<string, Json>, models: seq<Model>)
    ensures ValidateArgs(args, Descriptor(models)).Ok? <==> "name" in args
    ensures ValidateArgs(args, Descriptor(models)) == ValidateRequired(args, Descriptor(models))
  {
    assert PropertyKeys(Descriptor(models)) == ["name"];
    assert "name" !in ObjectPrototypeKeys;
  }

  /**
   * `MODELS.find(model => model.name === name)` for the destructured `name`: only a string
   * can be strictly equal to a model name, and the comparison is case-sensitive.
   */
  function Target(models: seq<Model>, args: map<string, Json>): (r: Option<Model>)
    ensures r.Some? ==> "name" in args && args["name"] == JStr(r.value.name)
    ensures r.Some? ==> exists i :: 0 <= i < |models| && models[i] == r.value &&
                                    forall j :: 0 <= j < i ==> models[j].name != r.value.name
    ensures r.None? <==> "name" !in args || !args["name"].JStr? ||
                         forall i :: 0 <= i < |models| ==> models[i].name != args["name"].s
  {
    if "name" in args && args["name"].JStr? then Find(models, (m: Model) => m.name == args["name"].s)
    else None
  }

  /** The text `handle({ name })` answers with: the model it switched to, or the failure. */
  function Answer(models: seq<Model>, args: map<string, Json>): (r: string)
    ensures r == SwitchFailedMessage <==> Target(models, args).None?
    ensures Target(models, args).Some? ==> r == SwitchedPrefix + Target(models, args).value.name
  {
    match Target(models, args)
    case None => SwitchFailedMessage
    case Some(m) =>
      assert (SwitchedPrefix + m.name)[0] != SwitchFailedMessage[0];
      SwitchedPrefix + m.name
  }

  /**
   * `handle({ name })`: on a match the reference switches to the first model of that name
   * and the answer names it; on a miss the reference is untouched.
   */
  method Handle(modelRef: ModelRef, models: seq<Model>, args: map<string, Json>) returns (r: string)
    modifies modelRef
    ensures r == Answer(models, args)
    ensures modelRef.value == if Target(models, args).Some? then Target(models, args) else old(modelRef.value)
  {
    var targetModel := Target(models, args);
    if targetModel.None? {
      return SwitchFailedMessage;
    }
    modelRef.value := targetModel;
    r := SwitchedPrefix + targetModel.value.name;
  }

  /** Every value the descriptor's enum offers switches to a model carrying that name. */
  lemma EveryEnumValueSwitches(models: seq<Model>, i: nat)
    requires i < |models|
    ensures var args := map["name" := JStr(Descriptor(models).properties.value[0].enumValues.value[i])];
            Target(models, args).Some? && Target(models, args).value.name == models[i].name
  {
    var args := map["name" := JStr(models[i].name)];
    assert !(forall k :: 0 <= k < |models| ==> models[k].name != args["name"].s);
  }
}
