/**
 * The full-chat log of the middle generation: every group message is classified
 * (plain text, an @-mention of the bot followed by text, or a merged forward), turned
 * into chat turns and appended to the group's log, which is created empty on first use.
 */
module GroupData {
  import opened Js
  import opened Schemas
  import opened Store
  import SegmentUtils

  /** The shapes of group message that are logged, in the order they are tried. */
  datatype Shape =
    | TextFirst(text: string)                 // a text segment first
    | AtSelfThenText(qq: string, text: string) // an @-mention of the bot, then a text segment
    | ForwardFirst(id: string)                // a merged forward first
    | Unrecognized

  /** The shape of `message` (texts trimmed), trying plain text, then @+text, then forward. */
  function Classify(message: seq<Segment>, selfId: int, number: string -> Option<int>): (r: Shape)
    ensures r.TextFirst? <==> |message| > 0 && message[0].Text?
    ensures r.TextFirst? ==> r.text == Trim(message[0].text)
    ensures r.AtSelfThenText? <==> !r.TextFirst? && |message| > 1 && message[1].Text? &&
                                   SegmentUtils.IsAtSelfSegmentAt(message, selfId, 0, number).Some?
    ensures r.AtSelfThenText? ==> r.qq == message[0].qq && r.text == Trim(message[1].text)
    ensures r.ForwardFirst? <==> |message| > 0 && message[0].Forward?
    ensures r.ForwardFirst? ==> r.id == message[0].id
  {
    if |message| > 0 && message[0].Text? then TextFirst(Trim(message[0].text))
    else if SegmentUtils.IsAtSelfSegmentAt(message, selfId, 0, number).Some? && |message| > 1 && message[1].Text? then
      AtSelfThenText(message[0].qq, Trim(message[1].text))
    else if |message| > 0 && message[0].Forward? then ForwardFirst(message[0].id)
    else Unrecognized
  }

  /** The turn name `nickname（user_id）`. */
  function SenderName(sender: Sender): string {
    sender.nickname + "（" + IntToString(sender.userId) + "）"
  }

  /** The turns a message of the given shape is logged as. */
  function ShapeTurns(shape: Shape, name: string, fetch: string -> Result<seq<Segment>>, depth: nat): (r: seq<Turn>)
    ensures (shape.TextFirst? || shape.AtSelfThenText?) ==> |r| == 1 && r[0].role == User && r[0].name == Some(name)
    ensures shape.TextFirst? ==> r[0].content == shape.text
    ensures shape.AtSelfThenText? ==> r[0].content == "@" + shape.qq + " " + shape.text
    ensures shape.ForwardFirst? ==> r == SegmentUtils.GetForward(shape.id, [], fetch, depth)
    ensures shape.Unrecognized? ==> r == []
  {
    match shape
    case TextFirst(text) => [Turn(User, text, Some(name), None, None)]
    case AtSelfThenText(qq, text) => [Turn(User, "@" + qq + " " + text, Some(name), None, None)]
    case ForwardFirst(id) => SegmentUtils.GetForward(id, [], fetch, depth)
    case Unrecognized => []
  }

  /** `message[i]` with its text trimmed when it is a text segment. */
  function TrimTextAt(message: seq<Segment>, i: nat): (r: seq<Segment>)
    ensures |r| == |message|
    ensures forall k :: 0 <= k < |message| && k != i ==> r[k] == message[k]
    ensures i < |message| && message[i].Text? ==> r[i] == Text(Trim(message[i].text))
    ensures i < |message| && !message[i].Text? ==> r[i] == message[i]
  {
    if i < |message| && message[i].Text? then message[i := Text(Trim(message[i].text))] else message
  }

  /**
   * The event's message after classification: the first segment's text trimmed when it
   * is text; otherwise the SECOND segment's text trimmed whenever it is text, whether or
   * not the first one mentions the bot.
   */
  function TrimmedAfterClassify(message: seq<Segment>): seq<Segment> {
    if |message| > 0 && message[0].Text? then TrimTextAt(message, 0) else TrimTextAt(message, 1)
  }

  /** The classification part of `saveGroupMessage`, trimming the event's texts in place as it tests them. */
  method ClassifyGroupMessage(selfId: int, sender: Sender, message: array<Segment>,
                              number: string -> Option<int>, fetch: string -> Result<seq<Segment>>, depth: nat)
    returns (messages: seq<Turn>)
    modifies message
    ensures messages == ShapeTurns(Classify(old(message[..]), selfId, number), SenderName(sender), fetch, depth)
    ensures message[..] == TrimmedAfterClassify(old(message[..]))
  {
    ghost var original := message[..];
    var name := SenderName(sender);
    var textSegment := SegmentUtils.IsTextSegment(message, 0);
    if textSegment.Some? {
      assert Classify(original, selfId, number) == TextFirst(textSegment.value.text);
      messages := [Turn(User, textSegment.value.text, Some(name), None, None)];
      assert message[..] == TrimTextAt(original, 0);
    } else {
      assert message[..] == original;
      messages := ClassifyNonText(selfId, name, message, number, fetch, depth);
    }
  }

  /** The `else` branch of the classification: @-mention plus text, then forward. */
  method ClassifyNonText(selfId: int, name: string, message: array<Segment>,
                         number: string -> Option<int>, fetch: string -> Result<seq<Segment>>, depth: nat)
    returns (messages: seq<Turn>)
    requires message.Length == 0 || !message[0].Text?
    modifies message
    ensures messages == ShapeTurns(Classify(old(message[..]), selfId, number), name, fetch, depth)
    ensures message[..] == TrimTextAt(old(message[..]), 1)
  {
    messages := [];
    var atSegment := SegmentUtils.IsAtSelfSegmentAt(message[..], selfId, 0, number);
    var textSegment2 := SegmentUtils.IsTextSegment(message, 1);
    if atSegment.Some? && textSegment2.Some? {
      messages := [Turn(User, "@" + atSegment.value.qq + " " + textSegment2.value.text, Some(name), None, None)];
    } else {
      var forwardSegment := SegmentUtils.IsForwardSegmentAt(message[..], 0);
      if forwardSegment.Some? {
        messages := SegmentUtils.GetForwardMessage(forwardSegment.value.id, [], fetch, depth);
      }
    }
  }

  /**
   * `saveGroupMessage(e)` AS WRITTEN: `readGroupFullMessages` is async and not awaited, so
   * the final `push` is looked up on a Promise and throws a TypeError. The read itself
   * rejects too: the `Ai` object it reads the map from is `{}`, so no log is ever created.
   * The event's tested text segments are still trimmed in place before the throw.
   */
  method SaveGroupMessageAsWritten(store: GroupHistories, groupId: int, selfId: int, sender: Sender, message: array<Segment>,
                                   number: string -> Option<int>, fetch: string -> Result<seq<Segment>>, depth: nat)
    returns (r: Result<()>)
    modifies message
    ensures r.Err?
    ensures store.lists == old(store.lists)
    ensures message[..] == TrimmedAfterClassify(old(message[..]))
  {
    var messages := ClassifyGroupMessage(selfId, sender, message, number, fetch, depth);
    r := Err("TypeError: groupFullMessages.push is not a function");
  }

  /**
   * `saveGroupMessage(e)` with the log awaited, as evidently intended: the message's turns
   * are appended to the group's log (created empty on first use); no other group's log changes.
   */
  method SaveGroupMessage(store: GroupHistories, groupId: int, selfId: int, sender: Sender, message: array<Segment>,
                          number: string -> Option<int>, fetch: string -> Result<seq<Segment>>, depth: nat)
    requires store.Valid()
    modifies store, store.lists.Values, message
    ensures store.Valid()
    ensures groupId in store.lists
    ensures store.lists[groupId].turns ==
            (if groupId in old(store.lists) then old(store.lists[groupId].turns) else []) +
            ShapeTurns(Classify(old(message[..]), selfId, number), SenderName(sender), fetch, depth)
    ensures message[..] == TrimmedAfterClassify(old(message[..]))
    ensures forall g :: g in old(store.lists) && g != groupId ==>
              g in store.lists && store.lists[g] == old(store.lists[g]) && store.lists[g].turns == old(store.lists[g].turns)
  {
    var groupFullMessages := store.Read(groupId, []);
    var messages := ClassifyGroupMessage(selfId, sender, message, number, fetch, depth);
    groupFullMessages.PushAll(messages);
  }

  /** A leading text decides the shape whatever follows it. */
  lemma TextFirstWins(text: string, rest: seq<Segment>, selfId: int, number: string -> Option<int>)
    ensures Classify([Text(text)] + rest, selfId, number) == TextFirst(Trim(text))
  {
  }

  /** "@all" is not an @-mention of the bot, so "@all text" is not logged. */
  lemma AtAllNotLogged(text: string, selfId: int, number: string -> Option<int>)
    requires number("all") == None
    ensures Classify([At("all"), Text(text)], selfId, number) == Unrecognized
  {
  }

  /** An @-mention of someone else followed by text is not logged either. */
  lemma AtOtherNotLogged(qq: string, text: string, selfId: int, number: string -> Option<int>)
    requires number(qq) != Some(selfId)
    ensures Classify([At(qq), Text(text)], selfId, number) == Unrecognized
  {
  }
}
