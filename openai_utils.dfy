/** Building chat turns from plain text. */
module OpenAiUtils {
  import opened Js
  import opened Schemas

  /** The optional fields a caller may pass along with the text; all `None` stands for no `args` at all. */
  datatype MessageArgs = MessageArgs(role: Option<Role>, name: Option<string>, toolCallId: Option<string>)

  /**
   * `textToMessage(text, args)`: a turn with the text verbatim, the given role or "user",
   * and the name only when it is a non-empty string. Nothing else of `args` is copied.
   */
  function TextToMessage(text: string, args: MessageArgs): (r: Turn)
    ensures r.content == text
    ensures r.role == args.role.GetOr(User)
    ensures r.name.Some? <==> args.name.Some? && args.name.value != ""
    ensures r.name.Some? ==> r.name == args.name
    ensures r.toolCallId.None? && r.toolCalls.None?
  {
    var message := Turn(args.role.GetOr(User), text, None, None, None);
    if args.name.Some? && args.name.value != "" then message.(name := args.name) else message
  }

  /** A turn without tool fields and without an empty name is rebuilt exactly from its text, role and name. */
  lemma TextToMessageRebuilds(t: Turn)
    requires t.toolCallId.None? && t.toolCalls.None?
    requires t.name != Some("")
    ensures TextToMessage(t.content, MessageArgs(Some(t.role), t.name, None)) == t
  {
  }

  /** A tool-call id passed along is dropped. */
  lemma ToolCallIdDropped(text: string, id: string)
    ensures TextToMessage(text, MessageArgs(Some(Tool), None, Some(id))).toolCallId.None?
  {
  }
}
