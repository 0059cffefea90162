/**
 * Slash-command routing of the oldest generation: the same three commands, handlers that
 * take the event first and the arguments spread after it, and the listing sent through
 * that generation's `reply`.
 */
module LegacyCommands {
  import opened Js
  import opened Schemas
  import opened Commands
  import LegacyUtils

  /** A handler of this generation: `handle(e, ...args)`. */
  type LegacyHandler = (GroupMessageEvent, seq<string>) -> HttpResponse

  /** `handleCommand(e, fn, args?)` AS WRITTEN: inherited member names reach a missing `handle` and throw. */
  function HandleCommandAsWritten(entries: Entries<LegacyHandler>, e: GroupMessageEvent, fn: string,
                                  args: Option<seq<string>>): HandlerResult {
    match Lookup(entries, fn)
    case Some(command) => Replied(command.handle(e, args.GetOr([])))
    case None =>
      if fn in ObjectPrototypeKeys then Threw(NotAFunctionMessage) else Replied(LegacyUtils.Reply(HelpArgs(entries)))
  }

  /**
   * `handleCommand(e, fn, args?)` as evidently intended: a command of the table runs with
   * the event and the arguments (none when `args` is missing); any other name gets the listing.
   */
  function HandleCommand(entries: Entries<LegacyHandler>, e: GroupMessageEvent, fn: string,
                         args: Option<seq<string>>): (r: HandlerResult)
    ensures Lookup(entries, fn).Some? ==> r == Replied(Lookup(entries, fn).value.handle(e, args.GetOr([])))
    ensures Lookup(entries, fn).None? ==> r == Replied(LegacyUtils.Reply(HelpArgs(entries)))
  {
    match Lookup(entries, fn)
    case Some(command) => Replied(command.handle(e, args.GetOr([])))
    case None => Replied(LegacyUtils.Reply(HelpArgs(entries)))
  }

  /** Missing arguments and an empty argument list reach the handler identically. */
  lemma MissingArgsAreEmpty(entries: Entries<LegacyHandler>, e: GroupMessageEvent, fn: string)
    ensures HandleCommand(entries, e, fn, None) == HandleCommand(entries, e, fn, Some([]))
    ensures HandleCommandAsWritten(entries, e, fn, None) == HandleCommandAsWritten(entries, e, fn, Some([]))
  {
  }

  /** The two agree on every name except the inherited members. */
  lemma InheritedNamesThrow(entries: Entries<LegacyHandler>, e: GroupMessageEvent, fn: string, args: Option<seq<string>>)
    ensures fn !in ObjectPrototypeKeys ==> HandleCommandAsWritten(entries, e, fn, args) == HandleCommand(entries, e, fn, args)
    ensures fn in ObjectPrototypeKeys && Lookup(entries, fn).None? ==>
              HandleCommandAsWritten(entries, e, fn, args) == Threw(NotAFunctionMessage) &&
              HandleCommand(entries, e, fn, args).Replied?
  {
  }

  /**
   * An unknown name gets a 200 JSON reply whose body is the argument array itself: the
   * heading, then the numbered line of each of the three commands in table order.
   */
  lemma UnknownNameLists(weather: Command<LegacyHandler>, model: Command<LegacyHandler>,
                         summarize: Command<LegacyHandler>, e: GroupMessageEvent, fn: string, args: Option<seq<string>>)
    requires fn !in {"天气", "模型", "总结一下"}
    ensures var r := HandleCommand(CommandMap(weather, model, summarize), e, fn, args);
            r.Replied? && r.response.status == 200 && r.response.jsonContentType &&
            r.response.body.value.reply ==
            RawArgs([Seg(Text(HelpHeading)), Seg(Text(HelpLine(0, weather))), Seg(Text(HelpLine(1, model))),
                     Seg(Text(HelpLine(2, summarize)))])
  {
    var entries := CommandMap(weather, model, summarize);
    var help := HelpArgs(entries);
    assert help[1] == Seg(Text(HelpLine(0, entries[0].1)));
    assert help[2] == Seg(Text(HelpLine(1, entries[1].1)));
    assert help[3] == Seg(Text(HelpLine(2, entries[2].1)));
    assert help == [Seg(Text(HelpHeading)), Seg(Text(HelpLine(0, weather))), Seg(Text(HelpLine(1, model))),
                    Seg(Text(HelpLine(2, summarize)))];
  }
}
