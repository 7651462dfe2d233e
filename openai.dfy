/**
 * The OpenAI wrapper of the mobile app (src/services/openai.ts):
 * `openai.chat.completions.create` answers from canned mock texts while the
 * key constant is empty, and turns every client failure into a one-choice
 * completion carrying an error text instead of throwing.
 */
module OpenAIService {
  import opened Wrappers
  import opened Text
  import opened ChatMessages

  /** The key constant; it is empty, so the real client is never reached. */
  const ApiKey: string := ""

  /** What the real SDK call produces: a completion, or an error with an optional HTTP status and a message. */
  datatype ClientOutcome =
    | Responds(completion: Completion)
    | Fails(status: Option<int>, message: string)

  // ---------------------------------------------------------------------
  // getMockResponse (lines 56-85)

  const FeelingsText: string :=
    "I understand you're sharing " +
    "your feelings. It's important " +
    "to acknowledge your emotions. " +
    "Based on what you've shared, it " +
    "seems like you're experiencing " +
    "a mix of emotions. Remember " +
    "that it's okay to feel this " +
    "way, and taking time to reflect " +
    "on your emotions is a healthy " +
    "practice."

  const SummaryText: string :=
    "Based on your journal entry, " +
    "you seem to be feeling a mix of " +
    "emotions. Your thoughts reflect " +
    "both positive and challenging " +
    "aspects of your experience. " +
    "Remember that acknowledging " +
    "these feelings is an important " +
    "step in emotional well-being."

  const ThanksText: string :=
    "Thank you for sharing. I'm here " +
    "to support you through your " +
    "emotional journey. Remember " +
    "that acknowledging your " +
    "feelings is an important step " +
    "toward emotional well-being."

  /**
   * The mock text for a user message: the feelings text when it contains
   * "feeling" (whether or not it also says "summarize"), the summary text
   * when it contains only "summarize", the thank-you text otherwise.
   */
  function MockText(userMessage: string): (r: string)
    ensures Contains(userMessage, "feeling") ==> r == FeelingsText
    ensures !Contains(userMessage, "feeling") && Contains(userMessage, "summarize") ==> r == SummaryText
    ensures !Contains(userMessage, "feeling") && !Contains(userMessage, "summarize") ==> r == ThanksText
    ensures r != ""
  {
    if Contains(userMessage, "feeling") then FeelingsText
    else if Contains(userMessage, "summarize") then SummaryText
    else ThanksText
  }

  /** The mock completion, keyed on the content of the first message whose role is "user". */
  function GetMockResponse(request: ChatRequest): (c: Completion)
    ensures IsSingleText(c)
    ensures c.choices[0].content.value == MockText(FirstContent(request.messages, "user"))
  {
    SingleText(MockText(FirstContent(request.messages, "user")))
  }

  // ---------------------------------------------------------------------
  // The catch block of create (lines 31-49)

  const DefaultErrorText: string :=
    "Sorry, I encountered an error " +
    "processing your request."

  const RateLimitText: string :=
    "Rate limit exceeded. Please try " +
    "again later or check your API " +
    "quota."

  const AuthText: string :=
    "Authentication error. Please " +
    "check your API key."

  /**
   * The error text: the status is tested before the message, 429 before
   * 401; a non-empty message gives "Error: " and the message; anything else
   * gives the default apology.
   */
  function ErrorText(status: Option<int>, message: string): (r: string)
    ensures status == Some(429) ==> r == RateLimitText
    ensures status == Some(401) ==> r == AuthText
    ensures status != Some(429) && status != Some(401) && message != "" ==> r == "Error: " + message
    ensures status != Some(429) && status != Some(401) && message == "" ==> r == DefaultErrorText
    ensures r != ""
  {
    if status == Some(429) then RateLimitText
    else if status == Some(401) then AuthText
    else if message != "" then "Error: " + message
    else DefaultErrorText
  }

  // ---------------------------------------------------------------------
  // create (lines 18-50)

  /**
   * `create` for a given key: with an empty key the mock, whatever the
   * client would have done; otherwise the client's completion, or the error
   * envelope when it fails. It never fails itself.
   */
  function Create(key: string, request: ChatRequest, client: ClientOutcome): (c: Completion)
    ensures key == "" ==> c == GetMockResponse(request)
    ensures key != "" && client.Responds? ==> c == client.completion
    ensures key != "" && client.Fails? ==> c == SingleText(ErrorText(client.status, client.message))
  {
    if key == "" then GetMockResponse(request)
    else
      match client
      case Responds(completion) => completion
      case Fails(status, message) => SingleText(ErrorText(status, message))
  }

  /**
   * `openai.chat.completions.create` as shipped: the key constant is empty,
   * so every request gets the mock completion and the client is never used.
   */
  function CreateCompletion(request: ChatRequest, client: ClientOutcome): (c: Completion)
    ensures c == GetMockResponse(request)
    ensures IsSingleText(c)
  {
    Create(ApiKey, request, client)
  }
}
