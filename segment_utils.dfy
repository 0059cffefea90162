/**
 * Segment helpers of the middle generation (the same helpers also sit, copied, in the
 * oldest generation's single utility file): index-based segment tests over an event's
 * message, the untrimmed `/fn args` parser, and the accumulator-passing expansion of
 * merged forwards into chat turns.
 */
module SegmentUtils {
  import opened Js
  import opened Schemas
  import OnebotUtils

  /** `e.message[segIndex]`, `None` for an index out of range. */
  function SegmentAt(message: seq<Segment>, segIndex: int): (r: Option<Segment>)
    ensures r.Some? <==> 0 <= segIndex < |message|
    ensures r.Some? ==> r.value == message[segIndex]
  {
    if 0 <= segIndex < |message| then Some(message[segIndex]) else None
  }

  /**
   * `isAtSelfSegment(e, segIndex)` over `e.message` and `e.self_id`: the segment at
   * `segIndex` when it exists, is an @-segment and `Number(qq)` equals `e.self_id`;
   * `false` (here `None`) otherwise.
   */
  function IsAtSelfSegmentAt(message: seq<Segment>, selfId: int, segIndex: int, number: string -> Option<int>): (r: Option<Segment>)
    ensures r.Some? <==> 0 <= segIndex < |message| && message[segIndex].At? &&
                         number(message[segIndex].qq) == Some(selfId)
    ensures r.Some? ==> r.value == message[segIndex]
  {
    match SegmentAt(message, segIndex)
    case None => None
    case Some(segment) =>
      if !segment.At? || number(segment.qq) != Some(selfId) then None else Some(segment)
  }

  /** The index-based test agrees with the segment-based predicate applied to the event's own `self_id`. */
  lemma IsAtSelfSegmentAgrees(message: seq<Segment>, selfId: int, segIndex: int, number: string -> Option<int>)
    ensures IsAtSelfSegmentAt(message, selfId, segIndex, number).Some? <==>
            OnebotUtils.IsAtSelfSegment(SegmentAt(message, segIndex), Some(selfId), number)
  {
  }

  /**
   * `isTextSegment(e, segIndex)`: when the segment at `segIndex` is a text segment, its
   * text is trimmed IN PLACE in the event, and the (trimmed) segment is returned.
   */
  method IsTextSegment(message: array<Segment>, segIndex: int) returns (r: Option<Segment>)
    modifies message
    ensures r.Some? <==> 0 <= segIndex < message.Length && old(message[segIndex]).Text?
    ensures r.Some? ==> r.value == Text(Trim(old(message[segIndex]).text)) &&
                        message[..] == old(message[..])[segIndex := r.value] &&
                        Trim(r.value.text) == r.value.text
    ensures r.None? ==> message[..] == old(message[..])
  {
    if segIndex < 0 || segIndex >= message.Length || !message[segIndex].Text? {
      return None;
    }
    TrimIdempotent(message[segIndex].text);
    message[segIndex] := Text(Trim(message[segIndex].text));
    r := Some(message[segIndex]);
  }

  /** `isForwardSegment(e, segIndex)` */
  function IsForwardSegmentAt(message: seq<Segment>, segIndex: int): (r: Option<Segment>)
    ensures r.Some? <==> 0 <= segIndex < |message| && message[segIndex].Forward?
    ensures r.Some? ==> r.value == message[segIndex]
  {
    match SegmentAt(message, segIndex)
    case Some(segment) => if segment.Forward? then Some(segment) else None
    case None => None
  }

  /** `makeTextSegment(text)` */
  function MakeTextSegment(text: string): Segment {
    Text(text)
  }

  /**
   * `isCommandText(segment)` (and `isCommand` of the oldest generation): the text, NOT
   * trimmed, must start with "/"; the rest is split on single spaces into name and arguments.
   */
  function IsCommandText(text: string): (r: Option<OnebotUtils.Command>)
    ensures r.None? <==> !StartsWith(text, "/")
    ensures r.Some? ==>
              r.value.fn.Some? && ' ' !in r.value.fn.value &&
              (forall k :: 0 <= k < |r.value.args| ==> ' ' !in r.value.args[k]) &&
              "/" + Join([r.value.fn.value] + r.value.args, ' ') == text
  {
    if !StartsWith(text, "/") then None
    else
      var parts := Split(text[1..], ' ');
      JoinSplit(text[1..], ' ');
      assert [parts[0]] + parts[1..] == parts;
      assert text == "/" + text[1..];
      Some(OnebotUtils.Command(Some(parts[0]), parts[1..]))
  }

  /** The newer parser is the older one applied to the trimmed text. */
  lemma CommandParsersAgree(text: string)
    ensures StartsWith(Trim(text), "/") ==> IsCommandText(Trim(text)) == Some(OnebotUtils.TextSegmentToCommand(text))
    ensures !StartsWith(Trim(text), "/") ==> IsCommandText(Trim(text)).None? &&
                                             OnebotUtils.TextSegmentToCommand(text) == OnebotUtils.Command(None, [])
  {
  }

  /** A leading blank defeats the older parser, though the newer one accepts the same text. */
  lemma LeadingBlankDefeatsIsCommandText()
    ensures IsCommandText(" /a").None?
    ensures OnebotUtils.TextSegmentToCommand(" /a") == OnebotUtils.Command(Some("a"), [])
  {
    TrimBlankSlashA();
    SplitNoSeparator("a", ' ');
    assert "/a"[1..] == "a";
    assert Split("/a"[1..], ' ') == ["a"];
  }

  /** Trimming drops the one leading blank of " /a". */
  lemma TrimBlankSlashA()
    ensures Trim(" /a") == "/a"
  {
    assert " /a"[1..] == "/a";
    assert IsWhitespace(" /a"[0]);
    TrimStartNoop("/a");
    assert TrimStart(" /a") == "/a";
    TrimEndNoop("/a");
  }

  // ---------------------------------------------------------------------------
  // Merged forwards
  // ---------------------------------------------------------------------------

  /** The chat turn a forwarded text becomes: a user turn with the trimmed text. */
  function ForwardedTextTurn(text: string): Turn {
    Turn(User, Trim(text), None, None, None)
  }

  /**
   * `getForwardMessage(messageId, result)`: `result` followed by the turns of the forward
   * behind `messageId`; `result` alone when `get_forward_msg` fails. Every nested forward
   * is expanded with the SAME `result`, so a non-empty accumulator reappears once per
   * nesting. `fetch` is `get_forward_msg`; `depth` bounds how deep nested forwards are followed.
   */
  function GetForward(id: string, result: seq<Turn>, fetch: string -> Result<seq<Segment>>, depth: nat): (r: seq<Turn>)
    ensures fetch(id).Err? ==> r == result
    ensures |r| >= |result| && r[..|result|] == result
    decreases depth, 1
  {
    match fetch(id)
    case Err(_) => result
    case Ok(segs) => result + CurrentMessages(segs, result, fetch, depth)
  }

  /** The turns one level of a forward contributes, in segment order. */
  function CurrentMessages(segs: seq<Segment>, result: seq<Turn>, fetch: string -> Result<seq<Segment>>, depth: nat): seq<Turn>
    decreases depth, 0, |segs|
  {
    if segs == [] then []
    else SegmentTurns(segs[0], result, fetch, depth) + CurrentMessages(segs[1..], result, fetch, depth)
  }

  /** What one segment contributes: a nested forward's expansion, a text's turn, or nothing. */
  function SegmentTurns(s: Segment, result: seq<Turn>, fetch: string -> Result<seq<Segment>>, depth: nat): seq<Turn>
    decreases depth, 0, 0
  {
    match s
    case Forward(id) => if depth == 0 then [] else GetForward(id, result, fetch, depth - 1)
    case Text(t) => [ForwardedTextTurn(t)]
    case _ => []
  }

  /** Peeling the segment at `i` off the turns of `segs[i..]`. */
  lemma CurrentMessagesStep(segs: seq<Segment>, i: nat, result: seq<Turn>, fetch: string -> Result<seq<Segment>>, depth: nat)
    requires i < |segs|
    ensures CurrentMessages(segs[i..], result, fetch, depth) ==
            SegmentTurns(segs[i], result, fetch, depth) + CurrentMessages(segs[i + 1..], result, fetch, depth)
  {
    assert segs[i..][0] == segs[i];
    assert segs[i..][1..] == segs[i + 1..];
  }

  /** The loop-and-recursion implementation. */
  method GetForwardMessage(messageId: string, result: seq<Turn>, fetch: string -> Result<seq<Segment>>, depth: nat)
    returns (r: seq<Turn>)
    ensures r == GetForward(messageId, result, fetch, depth)
    decreases depth, 1
  {
    var response := fetch(messageId);
    if response.Err? {
      return result;
    }
    var data := response.value;
    var currentMessages: seq<Turn> := [];
    var i := 0;
    while i < |data|
      invariant 0 <= i <= |data|
      invariant currentMessages + CurrentMessages(data[i..], result, fetch, depth) ==
                CurrentMessages(data, result, fetch, depth)
    {
      CurrentMessagesStep(data, i, result, fetch, depth);
      var turns := SegmentTurnsOf(data[i], result, fetch, depth);
      ghost var rest := CurrentMessages(data[i + 1..], result, fetch, depth);
      assert (currentMessages + turns) + rest == currentMessages + (turns + rest);
      currentMessages := currentMessages + turns;
      i := i + 1;
    }
    assert data[i..] == [];
    assert currentMessages == CurrentMessages(data, result, fetch, depth);
    r := result + currentMessages;
  }

  /** The body of the loop over a forward's segments: a nested forward recurses, a text becomes a turn. */
  method SegmentTurnsOf(segment: Segment, result: seq<Turn>, fetch: string -> Result<seq<Segment>>, depth: nat)
    returns (turns: seq<Turn>)
    ensures turns == SegmentTurns(segment, result, fetch, depth)
    decreases depth, 0
  {
    turns := [];
    if segment.Forward? {
      if depth > 0 {
        turns := GetForwardMessage(segment.id, result, fetch, depth - 1);
      }
    } else if segment.Text? {
      turns := [ForwardedTextTurn(segment.text)];
    }
  }

  /** Segments are expanded one after the other: order is kept. */
  lemma {:induction false} CurrentMessagesAppend(a: seq<Segment>, b: seq<Segment>, result: seq<Turn>,
                                               fetch: string -> Result<seq<Segment>>, depth: nat)
    ensures CurrentMessages(a + b, result, fetch, depth) ==
            CurrentMessages(a, result, fetch, depth) + CurrentMessages(b, result, fetch, depth)
  {
    if a == [] {
      assert a + b == b;
    } else {
      assert (a + b)[1..] == a[1..] + b;
      CurrentMessagesAppend(a[1..], b, result, fetch, depth);
    }
  }

  /** A forward of plain texts gives one user turn per text, trimmed, in order, after `result`. */
  lemma {:induction false} TextOnlyForward(segs: seq<Segment>, result: seq<Turn>,
                                           fetch: string -> Result<seq<Segment>>, depth: nat)
    requires forall k :: 0 <= k < |segs| ==> segs[k].Text?
    ensures |CurrentMessages(segs, result, fetch, depth)| == |segs|
    ensures forall k :: 0 <= k < |segs| ==>
              CurrentMessages(segs, result, fetch, depth)[k] == ForwardedTextTurn(segs[k].text)
  {
    if segs != [] {
      TextOnlyForward(segs[1..], result, fetch, depth);
      var rest := CurrentMessages(segs[1..], result, fetch, depth);
      var head := ForwardedTextTurn(segs[0].text);
      assert SegmentTurns(segs[0], result, fetch, depth) == [head];
      assert CurrentMessages(segs, result, fetch, depth) == [head] + rest;
      forall k | 0 <= k < |segs|
        ensures CurrentMessages(segs, result, fetch, depth)[k] == ForwardedTextTurn(segs[k].text)
      {
        if k > 0 {
          assert segs[k] == segs[1..][k - 1];
        }
      }
    }
  }

  /** A segment that is neither text nor forward contributes nothing. */
  lemma OtherSegmentContributesNothing(s: Segment, result: seq<Turn>, fetch: string -> Result<seq<Segment>>, depth: nat)
    requires !s.Text? && !s.Forward?
    ensures CurrentMessages([s], result, fetch, depth) == []
  {
    assert [s][1..] == [];
  }

  /** With a non-empty accumulator, a forward wrapping an empty forward yields the accumulator twice. */
  lemma AccumulatorRepeated(outer: string, inner: string, result: seq<Turn>,
                            fetch: string -> Result<seq<Segment>>, depth: nat)
    requires fetch(outer) == Ok([Forward(inner)]) && fetch(inner) == Ok([]) && depth > 0
    ensures GetForward(outer, result, fetch, depth) == result + result
  {
    assert [Forward(inner)][1..] == [];
    assert GetForward(inner, result, fetch, depth - 1) == result;
    assert CurrentMessages([Forward(inner)], result, fetch, depth) == SegmentTurns(Forward(inner), result, fetch, depth);
  }
}
