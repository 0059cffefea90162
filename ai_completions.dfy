/**
 * The completion call shared by the AI handlers: its error checks, and the in-place
 * truncation of an over-long conversation that keeps the system turns; plus the guards
 * in front of image understanding.
 */
module AiCompletions {
  import opened Js
  import opened Schemas
  import opened Store

  const NoModelMessage := "当前没有运行中的模型，@我并输入“/模型 <模型名称>”启用一个"
  const EmptyContentMessage := "生成的消息为空，快找群主排查！"
  const NoImageModelMessage := "请先配置一个图片理解模型"
  const AnimatedImageMessage := "不支持动图"

  /**
   * What the completion endpoint answered: the first choice's content (`None` when there
   * is no choice or no content) and `usage.total_tokens` (`None` when absent).
   */
  datatype ApiResponse = ApiResponse(content: Option<string>, totalTokens: Option<int>)

  /** `messages.filter(m => m.role === "system")` */
  function SystemTurns(s: seq<Turn>): (r: seq<Turn>)
    ensures forall k :: 0 <= k < |r| ==> r[k].role == System
    ensures forall t: Turn :: multiset(r)[t] == if t.role == System then multiset(s)[t] else 0
  {
    if s == [] then []
    else
      assert s == [s[0]] + s[1..];
      if s[0].role == System then [s[0]] + SystemTurns(s[1..]) else SystemTurns(s[1..])
  }

  /** The filter keeps the system turns of each part, in order: it distributes over concatenation. */
  lemma {:induction false} SystemTurnsAppend(a: seq<Turn>, b: seq<Turn>)
    ensures SystemTurns(a + b) == SystemTurns(a) + SystemTurns(b)
  {
    if a == [] {
      assert a + b == b;
    } else {
      assert (a + b)[0] == a[0] && (a + b)[1..] == a[1..] + b;
      SystemTurnsAppend(a[1..], b);
    }
  }

  /** The conversation after truncation: its system turns, then its second half. */
  function Truncated(s: seq<Turn>): seq<Turn> {
    SystemTurns(s) + s[|s| / 2..]
  }

  /** The answer of a completion call: the generated text, or the error it throws. */
  function Completion(model: Option<Model>, response: Result<ApiResponse>): (r: Result<string>)
    ensures r.Ok? <==> model.Some? && response.Ok? && response.value.content.Some? && response.value.content.value != ""
    ensures model.None? ==> r == Err(NoModelMessage)
    ensures model.Some? && response.Err? ==> r == Err(response.message)
    ensures model.Some? && response.Ok? && !r.Ok? ==> r == Err(EmptyContentMessage)
    ensures r.Ok? ==> r.value == response.value.content.value
  {
    if model.None? then Err(NoModelMessage)
    else if response.Err? then Err(response.message)
    else if response.value.content.None? || response.value.content.value == "" then Err(EmptyContentMessage)
    else Ok(response.value.content.value)
  }

  /** Truncation is due when the reported token count (0 when missing) reaches the model's limit. */
  predicate ShouldTruncate(model: Model, response: ApiResponse) {
    response.totalTokens.GetOr(0) >= model.maxTokens
  }

  /**
   * `chatCompletions(messages, model)`. `response` is what the endpoint answered, or the
   * message of the error it failed with. Every failure leaves `messages` untouched; a
   * success truncates `messages` in place when the token count reached the limit.
   */
  method ChatCompletions(messages: TurnList, model: Option<Model>, response: Result<ApiResponse>) returns (r: Result<string>)
    modifies messages
    ensures r == Completion(model, response)
    ensures messages.turns ==
            if r.Ok? && ShouldTruncate(model.value, response.value) then Truncated(old(messages.turns))
            else old(messages.turns)
  {
    if model.None? {
      return Err(NoModelMessage);
    }
    if response.Err? {
      return Err(response.message);
    }
    var content := response.value.content;
    if content.None? || content.value == "" {
      return Err(EmptyContentMessage);
    }
    var totalTokens := response.value.totalTokens.GetOr(0);
    if totalTokens >= model.value.maxTokens {
      var systemPrompts := SystemTurns(messages.turns);
      messages.SpliceFront(|messages.turns| / 2);
      if |systemPrompts| > 0 {
        messages.Unshift(systemPrompts);
      }
    }
    return Ok(content.value);
  }

  /** Without a usage report and with a positive limit, the conversation is never truncated. */
  lemma MissingUsageNeverTruncates(model: Model, content: Option<string>)
    requires model.maxTokens > 0
    ensures !ShouldTruncate(model, ApiResponse(content, None))
  {
  }

  /** The layout after truncation: all system turns first, then the second half in its original order. */
  lemma TruncatedLayout(s: seq<Turn>)
    ensures |Truncated(s)| == |s| - |s| / 2 + |SystemTurns(s)|
    ensures forall k :: 0 <= k < |SystemTurns(s)| ==> Truncated(s)[k].role == System
    ensures Truncated(s)[|SystemTurns(s)|..] == s[|s| / 2..]
  {
  }

  /**
   * Counting turns: a non-system turn survives only as often as it occurs in the kept
   * half (those of the first half are gone); a system turn is never lost, and one that
   * lies in the kept half now appears twice.
   */
  lemma TruncatedCounts(s: seq<Turn>)
    ensures forall t: Turn :: t.role != System ==> multiset(Truncated(s))[t] == multiset(s[|s| / 2..])[t]
    ensures forall t: Turn :: t.role == System ==> multiset(Truncated(s))[t] == multiset(s)[t] + multiset(s[|s| / 2..])[t]
  {
    assert multiset(Truncated(s)) == multiset(SystemTurns(s)) + multiset(s[|s| / 2..]);
  }

  /** Every system turn of the conversation is still there after truncation. */
  lemma SystemTurnsSurvive(s: seq<Turn>, t: Turn)
    requires t in s && t.role == System
    ensures t in Truncated(s)
  {
    TruncatedCounts(s);
    assert multiset(s)[t] > 0;
  }

  /** `specialModels.find(m => m.useCase === "image-understanding")` */
  function ImageModel(specialModels: seq<Model>): (r: Option<Model>)
    ensures r.None? <==> forall k :: 0 <= k < |specialModels| ==> specialModels[k].useCase != Some("image-understanding")
    ensures r.Some? ==> r.value in specialModels && r.value.useCase == Some("image-understanding")
  {
    Find(specialModels, (m: Model) => m.useCase == Some("image-understanding"))
  }

  /**
   * `imageToText(image)`: needs an image-understanding model, a successful base64
   * conversion of the image (`base64`, or the converter's `retmsg`), and an image that is
   * not a GIF; only then is that model asked, through `complete`, to describe the image.
   */
  function ImageToText(specialModels: seq<Model>, base64: Result<string>,
                       complete: (Model, string) -> Result<ApiResponse>): (r: Result<string>)
    ensures ImageModel(specialModels).None? ==> r == Err(NoImageModelMessage)
    ensures ImageModel(specialModels).Some? && base64.Err? ==> r == Err(base64.message)
    ensures ImageModel(specialModels).Some? && base64.Ok? && Includes(base64.value, "image/gif;base64") ==>
              r == Err(AnimatedImageMessage)
    ensures ImageModel(specialModels).Some? && base64.Ok? && !Includes(base64.value, "image/gif;base64") ==>
              r == Completion(ImageModel(specialModels), complete(ImageModel(specialModels).value, base64.value))
  {
    match ImageModel(specialModels)
    case None => Err(NoImageModelMessage)
    case Some(model) =>
      if base64.Err? then Err(base64.message)
      else if Includes(base64.value, "image/gif;base64") then Err(AnimatedImageMessage)
      else Completion(Some(model), complete(model, base64.value))
  }
}
