/**
 * The AI response screen of the mobile app (src/screens/AIResponseScreen.tsx):
 * the prompt it builds for each response type, the request it sends through
 * the OpenAI wrapper, the text it then shows, its title and its Continue
 * button.
 */
module MobileAIResponse {
  import opened Wrappers
  import opened Text
  import opened ChatMessages
  import opened Types
  import opened OpenAIService

  // ---------------------------------------------------------------------
  // Prompts (lines 21-39)

  /** `${x}` for the optional intensity: its decimal digits, or "undefined" when absent. */
  function IntensityText(intensity: Option<int>): (r: string)
    ensures intensity.None? ==> r == "undefined"
    ensures intensity.Some? ==> r == IntToString(intensity.value)
    ensures intensity.Some? && intensity.value >= 0 ==> DecimalValue(r) == intensity.value
  {
    match intensity
    case None => "undefined"
    case Some(n) => IntToString(n)
  }

  function Quoted(s: string): string { "\"" + s + "\"" }

  /** The line break of the template literals: a newline and the twelve spaces of source indentation. */
  const Indent: string := "\n            "

  /** The first line of the advice and expression prompts. */
  function FirstLine(entry: JournalEntry): (r: string)
    ensures Contains(r, Quoted(entry.emotion.name))
    ensures Contains(r, IntensityText(entry.intensity) + "/10")
    ensures Contains(r, "feeling")
  {
    var head := "The user is feeling ";
    var name := Quoted(entry.emotion.name);
    var mid := " with intensity ";
    var i10 := IntensityText(entry.intensity) + "/10";
    ContainsAt(head, "feeling", 12);
    ContainsAppend(head, name, "feeling");
    ContainsAt(name, name, 0);
    ContainsAppend(name, head, name);
    ContainsAppend(head + name, mid, name);
    ContainsAppend(head + name, mid, "feeling");
    ContainsAppend(head + name + mid, i10, name);
    ContainsAppend(head + name + mid, i10, "feeling");
    ContainsAt(i10, i10, 0);
    ContainsAppend(i10, head + name + mid, i10);
    ContainsAppend(head + name + mid + i10, ".", name);
    ContainsAppend(head + name + mid + i10, ".", "feeling");
    ContainsAppend(head + name + mid + i10, ".", i10);
    head + name + mid + i10 + "."
  }

  /** The second line: the entry's text in quotes. */
  function SecondLine(entry: JournalEntry): (r: string)
    ensures Contains(r, Quoted(entry.content))
  {
    Embed("Their thoughts: ", Quoted(entry.content), "")
  }

  /** The first two lines shared by the advice and expression prompts, up to the final instruction. */
  function EntryLines(entry: JournalEntry): (r: string)
    ensures Contains(r, Quoted(entry.emotion.name))
    ensures Contains(r, IntensityText(entry.intensity) + "/10")
    ensures Contains(r, Quoted(entry.content))
    ensures Contains(r, "feeling")
  {
    var first := FirstLine(entry);
    var second := SecondLine(entry);
    var name := Quoted(entry.emotion.name);
    var i10 := IntensityText(entry.intensity) + "/10";
    var content := Quoted(entry.content);
    ContainsAppend(first, Indent, name);
    ContainsAppend(first, Indent, i10);
    ContainsAppend(first, Indent, "feeling");
    ContainsAppend(first + Indent, second, name);
    ContainsAppend(first + Indent, second, i10);
    ContainsAppend(first + Indent, second, "feeling");
    ContainsAppend(second, first + Indent, content);
    ContainsAppend(first + Indent + second, Indent, name);
    ContainsAppend(first + Indent + second, Indent, i10);
    ContainsAppend(first + Indent + second, Indent, "feeling");
    ContainsAppend(first + Indent + second, Indent, content);
    first + Indent + second + Indent
  }

  const AdviceInstruction: string :=
    "Please provide practical, " +
    "empathetic advice for dealing " +
    "with these feelings."

  const ExpressionInstruction: string :=
    "Please help them express these " +
    "feelings in a clear, thoughtful " +
    "message that they could share " +
    "with others."

  /**
   * The prompt for a response type: the entry lines followed by the advice or
   * the expression instruction, and no prompt at all (the logged branch) for
   * any other response type, an absent one included.
   */
  function Prompt(responseType: Option<string>, entry: JournalEntry): (r: Option<string>)
    ensures responseType == Some("advice") ==> r == Some(EntryLines(entry) + AdviceInstruction)
    ensures responseType == Some("expression") ==> r == Some(EntryLines(entry) + ExpressionInstruction)
    ensures responseType != Some("advice") && responseType != Some("expression") ==> r.None?
    ensures r.Some? ==>
              && Contains(r.value, Quoted(entry.emotion.name))
              && Contains(r.value, IntensityText(entry.intensity) + "/10")
              && Contains(r.value, Quoted(entry.content))
              && Contains(r.value, "feeling")
  {
    var lines := EntryLines(entry);
    ContainsAppend(lines, AdviceInstruction, Quoted(entry.emotion.name));
    ContainsAppend(lines, ExpressionInstruction, Quoted(entry.emotion.name));
    ContainsAppend(lines, AdviceInstruction, IntensityText(entry.intensity) + "/10");
    ContainsAppend(lines, ExpressionInstruction, IntensityText(entry.intensity) + "/10");
    ContainsAppend(lines, AdviceInstruction, Quoted(entry.content));
    ContainsAppend(lines, ExpressionInstruction, Quoted(entry.content));
    ContainsAppend(lines, AdviceInstruction, "feeling");
    ContainsAppend(lines, ExpressionInstruction, "feeling");
    if responseType == Some("advice") then Some(lines + AdviceInstruction)
    else if responseType == Some("expression") then Some(lines + ExpressionInstruction)
    else None
  }

  /** The text shown, without any call, in the logged branch. */
  function LoggedText(entry: JournalEntry): (r: string)
    ensures Contains(r, Quoted(entry.emotion.name))
  {
    Embed("Thank you for sharing your feelings. Your emotion ", Quoted(entry.emotion.name), " has been logged.")
  }

  // ---------------------------------------------------------------------
  // The call and its result (lines 41-55)

  const SystemText: string :=
    "You are a supportive emotional " +
    "companion app that offers " +
    "empathy and understanding."

  /** The request sent for a prompt: the fixed system message, then the prompt as the user message. */
  function RequestFor(prompt: string): (q: ChatRequest)
    ensures q.model == "gpt-3.5-turbo" && |q.messages| == 2
    ensures q.messages[0] == Message("system", SystemText)
    ensures q.messages[1] == Message("user", prompt)
    ensures FirstContent(q.messages, "user") == prompt
  {
    var q := ChatRequest("gpt-3.5-turbo", [Message("system", SystemText), Message("user", prompt)]);
    assert !IsFirstWithRole(q.messages, "user", 0);
    assert IsFirstWithRole(q.messages, "user", 1);
    q
  }

  /** What awaiting the wrapper's promise gives: its completion, or a thrown error. */
  datatype CallResult = Returned(completion: Completion) | Threw

  const NoResponseText: string := "I couldn't generate a response."

  const TroubleText: string :=
    "Sorry, I had trouble generating " +
    "a response. Please try again."

  /**
   * The text shown for the call's result: the first choice's content when it
   * is present and non-empty, the "couldn't generate" text when it is not,
   * and the apology when the call threw.
   */
  function ResultText(result: CallResult): (r: string)
    ensures result.Returned? && |result.completion.choices| > 0
            && result.completion.choices[0].content.Some?
            && result.completion.choices[0].content.value != ""
            ==> r == result.completion.choices[0].content.value
    ensures result.Returned? && !(|result.completion.choices| > 0
            && result.completion.choices[0].content.Some?
            && result.completion.choices[0].content.value != "")
            ==> r == NoResponseText
    ensures result.Threw? ==> r == TroubleText
    ensures r != ""
  {
    match result
    case Threw => TroubleText
    case Returned(c) =>
      if |c.choices| > 0 && c.choices[0].content.Some? && c.choices[0].content.value != ""
      then c.choices[0].content.value
      else NoResponseText
  }

  /** The title above the response. */
  function Title(responseType: Option<string>): string {
    if responseType == Some("advice") then "💡 Advice"
    else if responseType == Some("expression") then "💬 Expression"
    else "📝 Logged"
  }

  /** The title says "Logged" exactly when no prompt is built, that is when no call is made. */
  lemma TitleAgreesWithBranch(responseType: Option<string>, entry: JournalEntry)
    ensures Title(responseType) == "📝 Logged" <==> Prompt(responseType, entry).None?
  {
  }

  /**
   * Through the shipped wrapper (empty key), advice and expression requests
   * both contain "feeling" in their user message, so both always show the
   * feelings mock text, whatever the client would have done.
   */
  lemma OfflinePromptsGetFeelingsText(responseType: Option<string>, entry: JournalEntry, client: ClientOutcome)
    requires Prompt(responseType, entry).Some?
    ensures ResultText(Returned(CreateCompletion(RequestFor(Prompt(responseType, entry).value), client))) == FeelingsText
  {
    var prompt := Prompt(responseType, entry).value;
    var c := CreateCompletion(RequestFor(prompt), client);
    assert MockText(prompt) == FeelingsText;
    assert c.choices[0].content.value == FeelingsText;
  }

  // ---------------------------------------------------------------------
  // The screen

  class AIResponseScreen {
    const journalEntry: JournalEntry
    const responseType: Option<string>
    var loading: bool
    var response: string

    /** The route parameters, and the initial state: loading, no response. */
    constructor(params: AIResponseParams)
      ensures journalEntry == params.journalEntry && responseType == params.responseType
      ensures loading && response == ""
    {
      journalEntry := params.journalEntry;
      responseType := params.responseType;
      loading := true;
      response := "";
    }

    /**
     * `generateResponse`, with `service` standing for the awaited wrapper
     * call. Returns the request it made, if any. In the logged branch no
     * request is made and the logged text is shown; otherwise the text shown
     * is the call's result. Loading is off afterwards either way.
     */
    method GenerateResponse(service: ChatRequest -> CallResult) returns (issued: Option<ChatRequest>)
      modifies this
      ensures issued == match Prompt(responseType, journalEntry)
                        case None => None
                        case Some(p) => Some(RequestFor(p))
      ensures issued.None? ==> response == LoggedText(journalEntry)
      ensures issued.Some? ==> response == ResultText(service(issued.value))
      ensures !loading
    {
      loading := true;
      var prompt := "";
      if responseType == Some("advice") {
        prompt := EntryLines(journalEntry) + AdviceInstruction;
      } else if responseType == Some("expression") {
        prompt := EntryLines(journalEntry) + ExpressionInstruction;
      } else {
        response := LoggedText(journalEntry);
        loading := false;
        return None;
      }
      var request := RequestFor(prompt);
      var result := service(request);
      response := ResultText(result);
      loading := false;
      issued := Some(request);
    }

    /** Continue goes to Gratitude with the entry unchanged. */
    method HandleContinue() returns (nav: Navigation)
      ensures nav == ToGratitude(journalEntry) && nav.Target() == Gratitude
    {
      nav := ToGratitude(journalEntry);
    }
  }
}
