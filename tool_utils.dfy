/**
 * Tool descriptors as announced to the completion endpoint, parsed JSON arguments, and
 * the argument check run before every tool handler.
 */
module ToolUtils {
  import opened Js

  /** A JSON value as `JSON.parse` produces it (numbers restricted to integers). */
  datatype Json =
    | JNull
    | JBool(b: bool)
    | JNum(n: int)
    | JStr(s: string)
    | JArr(items: seq<Json>)
    | JObj(fields: map<string, Json>)

  /** One entry of `parameters.properties`: its key and, for string enums, the allowed values. */
  datatype Property = Property(key: string, enumValues: Option<seq<string>>)

  /**
   * A function tool: its name, description, the `parameters.properties` entries in
   * declaration order (`None` when there is no `parameters` or no `properties`), and the
   * `required` list.
   */
  datatype ToolDescriptor = ToolDescriptor(name: string, description: string,
                                           properties: Option<seq<Property>>, required: seq<string>)

  /** What `defineTool` builds: a descriptor together with its handler. */
  datatype DefinedTool<H> = DefinedTool(tool: ToolDescriptor, handle: H)

  /** `defineTool(tool, handle)`: both parts kept as given. */
  function DefineTool<H>(tool: ToolDescriptor, handle: H): (r: DefinedTool<H>)
    ensures r.tool == tool && r.handle == handle
  {
    DefinedTool(tool, handle)
  }

  /** `Object.keys(parameters?.properties ?? {})` */
  function PropertyKeys(tool: ToolDescriptor): (r: seq<string>)
    ensures tool.properties.None? ==> r == []
    ensures tool.properties.Some? ==>
              |r| == |tool.properties.value| && forall i :: 0 <= i < |r| ==> r[i] == tool.properties.value[i].key
  {
    match tool.properties
    case None => []
    case Some(props) => seq(|props|, i requires 0 <= i < |props| => props[i].key)
  }

  /** The first of `keys` that `key in args` rejects. */
  function FirstMissing(args: map<string, Json>, keys: seq<string>): (r: Option<string>)
    ensures r.None? <==> forall i :: 0 <= i < |keys| ==> InObject(args.Keys, keys[i])
    ensures r.Some? ==> exists i :: 0 <= i < |keys| && keys[i] == r.value && !InObject(args.Keys, keys[i]) &&
                                    forall j :: 0 <= j < i ==> InObject(args.Keys, keys[j])
  {
    Find(keys, (k: string) => !InObject(args.Keys, k))
  }

  /**
   * `validateArgs(args, item)`: every key of `parameters.properties` (not only those in
   * `required`) must be `in` the arguments, or "缺少参数<key>" is thrown for the first one
   * missing. Values are not checked and extra keys are ignored.
   */
  function ValidateArgs(args: map<string, Json>, tool: ToolDescriptor): (r: Result<bool>)
    ensures r.Ok? <==> forall i :: 0 <= i < |PropertyKeys(tool)| ==> InObject(args.Keys, PropertyKeys(tool)[i])
    ensures r.Ok? ==> r.value
    ensures r.Err? ==> exists i :: 0 <= i < |PropertyKeys(tool)| && r.message == "缺少参数" + PropertyKeys(tool)[i] &&
                                   !InObject(args.Keys, PropertyKeys(tool)[i]) &&
                                   forall j :: 0 <= j < i ==> InObject(args.Keys, PropertyKeys(tool)[j])
  {
    match FirstMissing(args, PropertyKeys(tool))
    case Some(key) => Err("缺少参数" + key)
    case None => Ok(true)
  }

  /** A descriptor without properties accepts any arguments. */
  lemma NoPropertiesAlwaysValid(args: map<string, Json>, tool: ToolDescriptor)
    requires tool.properties.None?
    ensures ValidateArgs(args, tool) == Ok(true)
  {
  }

  /** More arguments never make valid arguments invalid. */
  lemma ExtraArgumentsIgnored(args: map<string, Json>, extra: map<string, Json>, tool: ToolDescriptor)
    requires ValidateArgs(args, tool).Ok?
    ensures ValidateArgs(args + extra, tool).Ok?
  {
    assert forall k :: k in args.Keys ==> k in (args + extra).Keys;
  }

  /** The evidently intended check: only the keys listed in `required` must be present. */
  function ValidateRequired(args: map<string, Json>, tool: ToolDescriptor): (r: Result<bool>)
    ensures r.Ok? <==> forall i :: 0 <= i < |tool.required| ==> InObject(args.Keys, tool.required[i])
    ensures r.Ok? ==> r.value
    ensures r.Err? ==> exists i :: 0 <= i < |tool.required| && r.message == "缺少参数" + tool.required[i] &&
                                   !InObject(args.Keys, tool.required[i])
  {
    match FirstMissing(args, tool.required)
    case Some(key) => Err("缺少参数" + key)
    case None => Ok(true)
  }

  /** When every declared property is required, the two checks agree on acceptance. */
  lemma ChecksAgreeWhenAllRequired(args: map<string, Json>, tool: ToolDescriptor)
    requires forall i :: 0 <= i < |PropertyKeys(tool)| ==> PropertyKeys(tool)[i] in tool.required
    requires forall i :: 0 <= i < |tool.required| ==> tool.required[i] in PropertyKeys(tool)
    ensures ValidateArgs(args, tool).Ok? <==> ValidateRequired(args, tool).Ok?
  {
    if ValidateArgs(args, tool).Ok? {
      assert forall k :: k in PropertyKeys(tool) ==> InObject(args.Keys, k);
    }
    if ValidateRequired(args, tool).Ok? {
      assert forall k :: k in tool.required ==> InObject(args.Keys, k);
    }
  }

  /**
   * An optional property (declared but not required, like the summariser's `count` with
   * its default of 30) is still demanded: leaving it out is rejected, although the
   * `required` list allows it.
   */
  lemma OptionalPropertyDemanded(key: string)
    requires key !in ObjectPrototypeKeys
    ensures ValidateArgs(map[], ToolDescriptor("summarizeChat", "", Some([Property(key, None)]), [])) == Err("缺少参数" + key)
    ensures ValidateRequired(map[], ToolDescriptor("summarizeChat", "", Some([Property(key, None)]), [])) == Ok(true)
  {
    var tool := ToolDescriptor("summarizeChat", "", Some([Property(key, None)]), []);
    assert PropertyKeys(tool) == [key];
  }

  /** A property named like an inherited object member never counts as missing. */
  lemma InheritedNamesAlwaysPresent(args: map<string, Json>, tool: ToolDescriptor)
    requires forall i :: 0 <= i < |PropertyKeys(tool)| ==> PropertyKeys(tool)[i] in ObjectPrototypeKeys
    ensures ValidateArgs(args, tool).Ok?
  {
  }
}
