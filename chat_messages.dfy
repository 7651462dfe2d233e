/**
 * The chat-completion envelopes shared by the mock Flask server (`/api/chat`)
 * and the OpenAI wrapper: a request is a model name and a list of
 * role-tagged messages; a completion is a list of choices, each of which may
 * carry message content.
 */
module ChatMessages {
  import opened Wrappers

  datatype Message = Message(role: string, content: string)

  datatype ChatRequest = ChatRequest(model: string, messages: seq<Message>)

  /** One choice of a completion; `None` when its `message` or `message.content` is absent. */
  datatype Choice = Choice(content: Option<string>)

  datatype Completion = Completion(choices: seq<Choice>)

  /** Message `i` is the first one whose role is `role`. */
  predicate IsFirstWithRole(messages: seq<Message>, role: string, i: int) {
    0 <= i < |messages| && messages[i].role == role
    && forall j :: 0 <= j < i ==> messages[j].role != role
  }

  /**
   * The content of the first message with the given role, or `""` when there
   * is none: Python's `next((m['content'] for m in ms if m['role'] == role), "")`
   * and JavaScript's `ms.find(m => m.role === role)?.content || ""`.
   */
  function FirstContent(messages: seq<Message>, role: string): (r: string)
    ensures (exists i :: IsFirstWithRole(messages, role, i) && r == messages[i].content)
            || (r == "" && forall i :: 0 <= i < |messages| ==> messages[i].role != role)
  {
    if messages == [] then ""
    else if messages[0].role == role then
      assert IsFirstWithRole(messages, role, 0);
      messages[0].content
    else
      var r := FirstContent(messages[1..], role);
      assert forall i :: IsFirstWithRole(messages[1..], role, i) ==> IsFirstWithRole(messages, role, i + 1);
      r
  }

  /** A completion as the wrapper's mock and error paths build it: one choice with non-empty text. */
  predicate IsSingleText(c: Completion) {
    |c.choices| == 1 && c.choices[0].content.Some? && c.choices[0].content.value != ""
  }

  function SingleText(text: string): (c: Completion)
    requires text != ""
    ensures IsSingleText(c) && c.choices[0].content.value == text
  {
    Completion([Choice(Some(text))])
  }
}
