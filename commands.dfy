/**
 * Slash-command routing of the middle generation: the command table, and
 * `handleCommand`, which runs the named command or answers with the numbered listing of
 * all commands.
 */
module Commands {
  import opened Js
  import opened Schemas
  import OnebotUtils
  import SegmentUtils

  /** A command's handler: its reply for the arguments and the event. */
  type Handler = (seq<string>, GroupMessageEvent) -> HttpResponse

  /** A command: what it does, how it is typed, and its handler. */
  datatype Command<H> = Command(description: string, example: string, handle: H)

  /** `defineCommand(command)`: the command itself. */
  function DefineCommand<H>(command: Command<H>): (r: Command<H>)
    ensures r.description == command.description && r.example == command.example && r.handle == command.handle
  {
    command
  }

  /** An object literal's own entries, in insertion order. */
  type Entries<H> = seq<(string, Command<H>)>

  /** `commandMap`: the weather, model and summary commands under their Chinese keys, in this order. */
  function CommandMap<H>(weather: Command<H>, model: Command<H>, summarize: Command<H>): Entries<H> {
    [("天气", weather), ("模型", model), ("总结一下", summarize)]
  }

  /** The first own entry under `key`. */
  function Lookup<H>(entries: Entries<H>, key: string): (r: Option<Command<H>>)
    ensures r.None? <==> forall i :: 0 <= i < |entries| ==> entries[i].0 != key
    ensures r.Some? ==> exists i :: 0 <= i < |entries| && entries[i] == (key, r.value) &&
                                    forall j :: 0 <= j < i ==> entries[j].0 != key
  {
    if entries == [] then None
    else if entries[0].0 == key then Some(entries[0].1)
    else
      var r := Lookup(entries[1..], key);
      assert r.Some? ==> exists i :: 0 <= i < |entries| - 1 && entries[1..][i] == (key, r.value) &&
                                     forall j :: 0 <= j < i ==> entries[1..][j].0 != key;
      r
  }

  /** The table has exactly the three keys, each once: every one of them finds its own command. */
  lemma CommandMapEntries<H>(weather: Command<H>, model: Command<H>, summarize: Command<H>)
    ensures var entries := CommandMap(weather, model, summarize);
            |entries| == 3 && entries[0].0 == "天气" && entries[1].0 == "模型" && entries[2].0 == "总结一下"
    ensures Lookup(CommandMap(weather, model, summarize), "天气") == Some(weather)
    ensures Lookup(CommandMap(weather, model, summarize), "模型") == Some(model)
    ensures Lookup(CommandMap(weather, model, summarize), "总结一下") == Some(summarize)
  {
  }

  const HelpHeading := "可用的指令有："

  /** The listing line of the command at `index`: its 1-based number, example and description. */
  function HelpLine<H>(index: nat, command: Command<H>): string {
    "\n" + NatToString(index + 1) + ". " + command.example + " - " + command.description + "；"
  }

  /** Each listing line carries its 1-based position, which reads back from the digits after the line break. */
  lemma HelpLineNumber<H>(index: nat, command: Command<H>)
    ensures var digits := NatToString(index + 1);
            var line := HelpLine(index, command);
            |line| > |digits| + 2 && line[0] == '\n' && line[1..|digits| + 1] == digits &&
            line[|digits| + 1..|digits| + 3] == ". " && ParseDigits(line[1..|digits| + 1]) == index + 1
  {
    var digits := NatToString(index + 1);
    var tail := ". " + command.example + " - " + command.description + "；";
    var line := HelpLine(index, command);
    assert line == "\n" + digits + tail;
    assert line[1..|digits| + 1] == digits;
    assert line[|digits| + 1..|digits| + 3] == tail[..2];
    NatToStringRoundTrip(index + 1);
  }

  /** The listing's segments: the heading, then one line per entry, in the table's order. */
  function HelpArgs<H>(entries: Entries<H>): (r: seq<ReplyArg>)
    ensures |r| == |entries| + 1
    ensures r[0] == Seg(SegmentUtils.MakeTextSegment(HelpHeading))
    ensures forall i :: 0 <= i < |entries| ==> r[i + 1] == Seg(SegmentUtils.MakeTextSegment(HelpLine(i, entries[i].1)))
  {
    [Seg(SegmentUtils.MakeTextSegment(HelpHeading))] +
    seq(|entries|, i requires 0 <= i < |entries| => Seg(SegmentUtils.MakeTextSegment(HelpLine(i, entries[i].1))))
  }

  /** The message `commandMap[fn].handle(...)` fails with when `fn` names a member every object inherits. */
  const NotAFunctionMessage := "command.handle is not a function"

  /**
   * `handleCommand(fn, args, e)` AS WRITTEN: `commandMap[fn]` also finds the members every
   * object inherits ("toString", "constructor", ...); those are truthy, have no `handle`,
   * and the call throws instead of listing the commands.
   */
  function HandleCommandAsWritten(entries: Entries<Handler>, fn: string, args: seq<string>, e: GroupMessageEvent): HandlerResult {
    match Lookup(entries, fn)
    case Some(command) => Replied(command.handle(args, e))
    case None =>
      if fn in ObjectPrototypeKeys then Threw(NotAFunctionMessage) else Replied(OnebotUtils.Reply(HelpArgs(entries)))
  }

  /**
   * `handleCommand(fn, args, e)` as evidently intended: a command of the table runs with
   * `(args, e)`; any other name gets the numbered listing.
   */
  function HandleCommand(entries: Entries<Handler>, fn: string, args: seq<string>, e: GroupMessageEvent): (r: HandlerResult)
    ensures Lookup(entries, fn).Some? ==> r == Replied(Lookup(entries, fn).value.handle(args, e))
    ensures Lookup(entries, fn).None? ==> r == Replied(OnebotUtils.Reply(HelpArgs(entries)))
  {
    match Lookup(entries, fn)
    case Some(command) => Replied(command.handle(args, e))
    case None => Replied(OnebotUtils.Reply(HelpArgs(entries)))
  }

  /** The two agree on every name except the inherited members, where only the intended one lists the commands. */
  lemma InheritedNamesThrow(entries: Entries<Handler>, fn: string, args: seq<string>, e: GroupMessageEvent)
    ensures fn !in ObjectPrototypeKeys ==> HandleCommandAsWritten(entries, fn, args, e) == HandleCommand(entries, fn, args, e)
    ensures fn in ObjectPrototypeKeys && Lookup(entries, fn).None? ==>
              HandleCommandAsWritten(entries, fn, args, e) == Threw(NotAFunctionMessage) &&
              HandleCommand(entries, fn, args, e).Replied?
  {
  }

  /** Typing "/toString" in a group throws rather than listing the three commands. */
  lemma ToStringThrows(weather: Command<Handler>, model: Command<Handler>, summarize: Command<Handler>,
                       args: seq<string>, e: GroupMessageEvent)
    ensures HandleCommandAsWritten(CommandMap(weather, model, summarize), "toString", args, e) == Threw(NotAFunctionMessage)
    ensures HandleCommand(CommandMap(weather, model, summarize), "toString", args, e) ==
            Replied(OnebotUtils.Reply(HelpArgs(CommandMap(weather, model, summarize))))
  {
  }

  /**
   * An unknown name gets a 200 reply whose segments are the heading and then, for each
   * command in table order, the text line numbered from 1.
   */
  lemma UnknownNameLists(weather: Command<Handler>, model: Command<Handler>, summarize: Command<Handler>,
                         fn: string, args: seq<string>, e: GroupMessageEvent)
    requires fn !in {"天气", "模型", "总结一下"}
    ensures var entries := CommandMap(weather, model, summarize);
            var r := HandleCommand(entries, fn, args, e);
            r.Replied? && r.response.status == 200 && r.response.body.value.atSender &&
            r.response.body.value.reply == Segments([Text(HelpHeading), Text(HelpLine(0, weather)),
                                                     Text(HelpLine(1, model)), Text(HelpLine(2, summarize))])
  {
    var entries := CommandMap(weather, model, summarize);
    var segments := HandleCommand(entries, fn, args, e).response.body.value.reply.segments;
    assert segments[1] == Text(HelpLine(0, entries[0].1));
    assert segments[2] == Text(HelpLine(1, entries[1].1));
    assert segments[3] == Text(HelpLine(2, entries[2].1));
  }
}
