/**
 * OneBot helpers of the newer generation: segment predicates, `/fn args` parsing,
 * recursive flattening of merged forwards, text-segment construction, and the
 * quick-operation reply.
 */
module OnebotUtils {
  import opened Js
  import opened Schemas

  // ---------------------------------------------------------------------------
  // Segment predicates
  // ---------------------------------------------------------------------------

  /** `isAtSegment(segment)`: a present segment of type "at". */
  predicate IsAtSegment(segment: Option<Segment>) {
    segment.Some? && segment.value.At?
  }

  /**
   * `isAtSelfSegment(segment, e)`: an @-segment whose `Number(qq)` equals `e.self_id`.
   * `selfId` is what reading `e.self_id` gives (`None` when the argument has no such
   * property); `number` is `Number(...)`, `None` standing for NaN. Since NaN equals
   * nothing, `@all` never matches.
   */
  predicate IsAtSelfSegment(segment: Option<Segment>, selfId: Option<int>, number: string -> Option<int>) {
    IsAtSegment(segment) && number(segment.value.qq).Some? && number(segment.value.qq) == selfId
  }

  /** `isTextSegment(segment)` */
  predicate IsTextSegment(segment: Option<Segment>) {
    segment.Some? && segment.value.Text?
  }

  /** `isForwardSegment(segment)` */
  predicate IsForwardSegment(segment: Option<Segment>) {
    segment.Some? && segment.value.Forward?
  }

  /** `isImageSegment(segment)` */
  predicate IsImageSegment(segment: Option<Segment>) {
    segment.Some? && segment.value.Image?
  }

  /**
   * `e.message.findIndex(isAtSelfSegment)` as the two request handlers write it.
   * `findIndex` calls its callback with (segment, index, array), so `isAtSelfSegment`
   * receives the INDEX, a number, as its `e`: `e.self_id` is undefined and no segment matches.
   */
  function AtSelfIndexAsWritten(message: seq<Segment>, number: string -> Option<int>): (r: int)
    ensures r == -1
  {
    FindIndex(message, (s: Segment) => IsAtSelfSegment(Some(s), None, number))
  }

  /** The evidently intended lookup: the first segment that @-mentions `e.self_id`, or -1. */
  function AtSelfIndex(e: GroupMessageEvent, number: string -> Option<int>): (r: int)
    ensures -1 <= r < |e.message|
    ensures r == -1 <==> forall k :: 0 <= k < |e.message| ==> !IsAtSelfSegment(Some(e.message[k]), Some(e.selfId), number)
    ensures r >= 0 ==> IsAtSelfSegment(Some(e.message[r]), Some(e.selfId), number) &&
                       forall k :: 0 <= k < r ==> !IsAtSelfSegment(Some(e.message[k]), Some(e.selfId), number)
  {
    FindIndex(e.message, (s: Segment) => IsAtSelfSegment(Some(s), Some(e.selfId), number))
  }

  // ---------------------------------------------------------------------------
  // Commands
  // ---------------------------------------------------------------------------

  /** `{ fn, args }`; `fn` is `None` for `undefined`. */
  datatype Command = Command(fn: Option<string>, args: seq<string>)

  /**
   * `textSegmentToCommand(segment)`: the trimmed text must start with "/"; what follows
   * is split on single spaces into the function name and its arguments (empty pieces kept).
   */
  function TextSegmentToCommand(text: string): (r: Command)
    ensures !StartsWith(Trim(text), "/") ==> r == Command(None, [])
    ensures StartsWith(Trim(text), "/") ==>
              r.fn.Some? && ' ' !in r.fn.value &&
              (forall k :: 0 <= k < |r.args| ==> ' ' !in r.args[k]) &&
              "/" + Join([r.fn.value] + r.args, ' ') == Trim(text)
  {
    var t := Trim(text);
    if !StartsWith(t, "/") then Command(None, [])
    else
      var parts := Split(t[1..], ' ');
      SlashCommandJoin(t);
      Command(Some(parts[0]), parts[1..])
  }

  /** A command text is its slash followed by its words joined back on spaces; no word holds a space. */
  lemma SlashCommandJoin(t: string)
    requires StartsWith(t, "/")
    ensures var parts := Split(t[1..], ' ');
            "/" + Join([parts[0]] + parts[1..], ' ') == t && ' ' !in parts[0] &&
            forall k :: 0 <= k < |parts[1..]| ==> ' ' !in parts[1..][k]
  {
    var parts := Split(t[1..], ' ');
    JoinSplit(t[1..], ' ');
    assert [parts[0]] + parts[1..] == parts;
    assert forall k :: 0 <= k < |parts| - 1 ==> parts[1..][k] == parts[k + 1];
    assert t == "/" + t[1..];
  }

  // ---------------------------------------------------------------------------
  // Merged forwards
  // ---------------------------------------------------------------------------

  /**
   * `flattenForwardSegment(id, { processMessage })`: the forwarded messages behind `id`,
   * one item per text segment, nested forwards expanded in place, other segments dropped,
   * nothing when `get_forward_msg` fails. `fetch` is `get_forward_msg`; `depth` bounds
   * how deep nested forwards are followed.
   */
  function FlattenForward<T>(id: string, fetch: string -> Result<seq<ForwardMessage>>,
                             process: ForwardMessageSingle -> T, depth: nat): (r: seq<T>)
    ensures fetch(id).Err? ==> r == []
    decreases depth, 2
  {
    match fetch(id)
    case Err(_) => []
    case Ok(msgs) => FlattenMessages(msgs, fetch, process, depth)
  }

  function FlattenMessages<T>(msgs: seq<ForwardMessage>, fetch: string -> Result<seq<ForwardMessage>>,
                              process: ForwardMessageSingle -> T, depth: nat): seq<T>
    decreases depth, 1, |msgs|
  {
    if msgs == [] then []
    else FlattenSegments(msgs[0].content, msgs[0], fetch, process, depth) +
         FlattenMessages(msgs[1..], fetch, process, depth)
  }

  function FlattenSegments<T>(segs: seq<Segment>, msg: ForwardMessage, fetch: string -> Result<seq<ForwardMessage>>,
                              process: ForwardMessageSingle -> T, depth: nat): seq<T>
    decreases depth, 0, |segs|
  {
    if segs == [] then []
    else SegmentItems(segs[0], msg, fetch, process, depth) + FlattenSegments(segs[1..], msg, fetch, process, depth)
  }

  /** What one segment of a forwarded message contributes: a nested forward's items, a text's item, or nothing. */
  function SegmentItems<T>(s: Segment, msg: ForwardMessage, fetch: string -> Result<seq<ForwardMessage>>,
                           process: ForwardMessageSingle -> T, depth: nat): seq<T>
    decreases depth, 0, 0
  {
    match s
    case Forward(id) => if depth == 0 then [] else FlattenForward(id, fetch, process, depth - 1)
    case Text(_) => [process(ForwardMessageSingle(s, msg.sender, msg.time))]
    case _ => []
  }

  /** The loop-and-recursion implementation, item by item as the source pushes them. */
  method FlattenForwardSegment<T>(messageId: string, fetch: string -> Result<seq<ForwardMessage>>,
                                  process: ForwardMessageSingle -> T, depth: nat) returns (items: seq<T>)
    ensures items == FlattenForward(messageId, fetch, process, depth)
    decreases depth, 2
  {
    items := [];
    var response := fetch(messageId);
    if response.Err? {
      return;
    }
    var forwardMessages := response.value;
    var i := 0;
    while i < |forwardMessages|
      invariant 0 <= i <= |forwardMessages|
      invariant items + FlattenMessages(forwardMessages[i..], fetch, process, depth) ==
                FlattenMessages(forwardMessages, fetch, process, depth)
    {
      assert forwardMessages[i..][0] == forwardMessages[i];
      assert forwardMessages[i..][1..] == forwardMessages[i + 1..];
      var messageItems := FlattenMessageSegments(forwardMessages[i], fetch, process, depth);
      items := items + messageItems;
      i := i + 1;
    }
    assert forwardMessages[i..] == [];
  }

  /** The inner loop, over one forwarded message's segments. */
  method FlattenMessageSegments<T>(message: ForwardMessage, fetch: string -> Result<seq<ForwardMessage>>,
                                   process: ForwardMessageSingle -> T, depth: nat) returns (items: seq<T>)
    ensures items == FlattenSegments(message.content, message, fetch, process, depth)
    decreases depth, 1
  {
    items := [];
    var j := 0;
    while j < |message.content|
      invariant 0 <= j <= |message.content|
      invariant items + FlattenSegments(message.content[j..], message, fetch, process, depth) ==
                FlattenSegments(message.content, message, fetch, process, depth)
    {
      assert message.content[j..][0] == message.content[j];
      assert message.content[j..][1..] == message.content[j + 1..];
      var segmentItems := FlattenSegment(message.content[j], message, fetch, process, depth);
      items := items + segmentItems;
      j := j + 1;
    }
    assert message.content[j..] == [];
  }

  /** The body of the inner loop: a nested forward recurses, a text is processed, anything else is skipped. */
  method FlattenSegment<T>(segment: Segment, message: ForwardMessage, fetch: string -> Result<seq<ForwardMessage>>,
                           process: ForwardMessageSingle -> T, depth: nat) returns (items: seq<T>)
    ensures items == SegmentItems(segment, message, fetch, process, depth)
    decreases depth, 0
  {
    items := [];
    if segment.Forward? {
      if depth > 0 {
        items := FlattenForwardSegment(segment.id, fetch, process, depth - 1);
      }
    } else if segment.Text? {
      items := [process(ForwardMessageSingle(segment, message.sender, message.time))];
    }
  }

  /** Messages are flattened one after the other: order across messages is kept. */
  lemma {:induction false} FlattenMessagesAppend<T>(a: seq<ForwardMessage>, b: seq<ForwardMessage>,
                                                  fetch: string -> Result<seq<ForwardMessage>>,
                                                  process: ForwardMessageSingle -> T, depth: nat)
    ensures FlattenMessages(a + b, fetch, process, depth) ==
            FlattenMessages(a, fetch, process, depth) + FlattenMessages(b, fetch, process, depth)
  {
    if a == [] {
      assert a + b == b;
    } else {
      assert (a + b)[1..] == a[1..] + b;
      FlattenMessagesAppend(a[1..], b, fetch, process, depth);
    }
  }

  /** Segments are flattened one after the other: order within a message is kept. */
  lemma {:induction false} FlattenSegmentsAppend<T>(a: seq<Segment>, b: seq<Segment>, msg: ForwardMessage,
                                                  fetch: string -> Result<seq<ForwardMessage>>,
                                                  process: ForwardMessageSingle -> T, depth: nat)
    ensures FlattenSegments(a + b, msg, fetch, process, depth) ==
            FlattenSegments(a, msg, fetch, process, depth) + FlattenSegments(b, msg, fetch, process, depth)
  {
    if a == [] {
      assert a + b == b;
    } else {
      assert (a + b)[1..] == a[1..] + b;
      FlattenSegmentsAppend(a[1..], b, msg, fetch, process, depth);
    }
  }

  /** A nested forward is replaced, in place, by its own flattening. */
  lemma NestedForwardInPlace<T>(a: seq<Segment>, id: string, b: seq<Segment>, msg: ForwardMessage,
                                fetch: string -> Result<seq<ForwardMessage>>,
                                process: ForwardMessageSingle -> T, depth: nat)
    requires depth > 0
    ensures FlattenSegments(a + [Forward(id)] + b, msg, fetch, process, depth) ==
            FlattenSegments(a, msg, fetch, process, depth) + FlattenForward(id, fetch, process, depth - 1) +
            FlattenSegments(b, msg, fetch, process, depth)
  {
    FlattenSegmentsAppend(a + [Forward(id)], b, msg, fetch, process, depth);
    FlattenSegmentsAppend(a, [Forward(id)], msg, fetch, process, depth);
    assert [Forward(id)][1..] == [];
  }

  /** The segments that survive flattening: texts and forwards. */
  function TextsAndForwards(segs: seq<Segment>): (r: seq<Segment>)
    ensures forall k :: 0 <= k < |r| ==> r[k].Text? || r[k].Forward?
  {
    if segs == [] then []
    else if segs[0].Text? || segs[0].Forward? then [segs[0]] + TextsAndForwards(segs[1..])
    else TextsAndForwards(segs[1..])
  }

  /** Segments that are neither text nor forward contribute nothing. */
  lemma {:induction false} OtherSegmentsDropped<T>(segs: seq<Segment>, msg: ForwardMessage,
                                                 fetch: string -> Result<seq<ForwardMessage>>,
                                                 process: ForwardMessageSingle -> T, depth: nat)
    ensures FlattenSegments(TextsAndForwards(segs), msg, fetch, process, depth) ==
            FlattenSegments(segs, msg, fetch, process, depth)
  {
    if segs != [] {
      OtherSegmentsDropped(segs[1..], msg, fetch, process, depth);
      if segs[0].Text? || segs[0].Forward? {
        assert ([segs[0]] + TextsAndForwards(segs[1..]))[1..] == TextsAndForwards(segs[1..]);
      }
    }
  }

  /** A message made only of text segments yields one processed item per segment, in order. */
  lemma {:induction false} TextOnlyMessage<T>(segs: seq<Segment>, msg: ForwardMessage,
                                            fetch: string -> Result<seq<ForwardMessage>>,
                                            process: ForwardMessageSingle -> T, depth: nat)
    requires forall k :: 0 <= k < |segs| ==> segs[k].Text?
    ensures |FlattenSegments(segs, msg, fetch, process, depth)| == |segs|
    ensures forall k :: 0 <= k < |segs| ==>
              FlattenSegments(segs, msg, fetch, process, depth)[k] ==
              process(ForwardMessageSingle(segs[k], msg.sender, msg.time))
  {
    if segs != [] {
      TextOnlyMessage(segs[1..], msg, fetch, process, depth);
    }
  }

  // ---------------------------------------------------------------------------
  // Replies
  // ---------------------------------------------------------------------------

  /** `textToSegment(text)` */
  function TextToSegment(text: string): Segment {
    Text(text)
  }

  function NormalizeReplyArg(a: ReplyArg): Segment {
    match a
    case Str(s) => TextToSegment(s)
    case Seg(g) => g
  }

  /**
   * `reply(...segments)`: no arguments gives an empty 204 response (OneBot must always be
   * answered); otherwise a 200 quick operation replying with the arguments as segments,
   * strings turned into text segments, in the given order, and `at_sender` set.
   */
  function Reply(args: seq<ReplyArg>): (r: HttpResponse)
    ensures args == [] <==> r.status == 204
    ensures args == [] ==> r.body.None?
    ensures args != [] ==>
              r.status == 200 && r.body.Some? && r.body.value.atSender && r.body.value.reply.Segments? &&
              |r.body.value.reply.segments| == |args| &&
              forall k :: 0 <= k < |args| ==>
                r.body.value.reply.segments[k] == (if args[k].Str? then Text(args[k].s) else args[k].segment)
  {
    if args == [] then HttpResponse(204, None, false)
    else HttpResponse(200, Some(QuickReply(Segments(seq(|args|, k requires 0 <= k < |args| => NormalizeReplyArg(args[k]))), true)), false)
  }

  /** `reply(text)` */
  function ReplyText(text: string): HttpResponse {
    Reply([Str(text)])
  }

}
