/**
 * The wizard as App.tsx wires it: the screens, the navigate edges between
 * them, and one pass through the first four screens composed from the
 * screen models.
 */
module Flow {
  import opened Wrappers
  import opened Types
  import Text
  import ChatMessages
  import EmotionSelectionScreen
  import RecordingMethodScreen
  import AnalysisScreen
  import MobileAIResponse

  /** The navigator's initial route. */
  const Initial: Screen := EmotionSelection

  /**
   * The navigate calls of each screen: the four wizard steps, Gratitude's
   * "Record Another Emotion" and "View Your Journey", Profile's "New Entry".
   */
  predicate Step(from: Screen, to: Screen) {
    match from
    case EmotionSelection => to == RecordingMethod
    case RecordingMethod => to == Analysis
    case Analysis => to == AIResponse
    case AIResponse => to == Gratitude
    case Gratitude => to == Profile || to == EmotionSelection
    case Profile => to == EmotionSelection
  }

  /** A sequence of screens the user can visit, from the initial one. */
  predicate IsRun(run: seq<Screen>) {
    && |run| > 0 && run[0] == Initial
    && forall i :: 0 < i < |run| ==> Step(run[i - 1], run[i])
  }

  /** The only way into each of the later wizard screens is from the screen before it. */
  lemma OnlyPredecessor(from: Screen, to: Screen)
    requires Step(from, to)
    ensures to == RecordingMethod ==> from == EmotionSelection
    ensures to == Analysis ==> from == RecordingMethod
    ensures to == AIResponse ==> from == Analysis
    ensures to == Gratitude ==> from == AIResponse
    ensures to == Profile ==> from == Gratitude
  {
  }

  /**
   * No screen of the wizard can be skipped: every visit to the AI response
   * is the fourth of a pass that started at emotion selection.
   */
  lemma AIResponseFollowsWizard(run: seq<Screen>, i: nat)
    requires IsRun(run) && i < |run| && run[i] == AIResponse
    ensures i >= 3
    ensures run[i - 3..i + 1] == [EmotionSelection, RecordingMethod, Analysis, AIResponse]
  {
    assert i > 0;
    OnlyPredecessor(run[i - 1], run[i]);
    assert i - 1 > 0;
    OnlyPredecessor(run[i - 2], run[i - 1]);
    assert i - 2 > 0;
    OnlyPredecessor(run[i - 3], run[i - 2]);
  }

  /**
   * One pass through the first three screens of the wired wizard: pick a
   * tile (opening "More Emotions" for a detailed one, typing a custom name
   * for "Other"), set the intensity, type the
   * text, wait for the analysis, pick an advisor and a recipient, continue.
   * Each step takes an edge of `Step`, and what reaches the AI response is
   * the built entry, logged and carrying the fixed summary, with no
   * response type and no intensity.
   */
  method WizardToAIResponse(tile: Emotion, custom: string, intensity: int, text: string,
                            advisor: string, recipient: string, now: int)
    returns (nav: Navigation)
    requires tile in EmotionSelectionScreen.BaseEmotions + EmotionSelectionScreen.DetailedEmotions
    requires tile == EmotionSelectionScreen.OtherTile ==> custom != ""
    requires 1 <= intensity <= 10 && text != ""
    requires advisor in AnalysisScreen.AdvisorIds && recipient in AnalysisScreen.RecipientIds
    ensures nav.ToAIResponse? && nav.aiResponse.responseType.None?
    ensures var entry := nav.aiResponse.journalEntry;
            && entry.emotion == EmotionSelectionScreen.ResolveEmotion(tile, if tile == EmotionSelectionScreen.OtherTile then custom else "")
            && entry.content == text && !entry.isVoiceNote
            && entry.advisorPerspective == Some(advisor) && entry.recipient == Some(recipient)
            && entry.aiSummary == Some(AnalysisScreen.SummaryText) && entry.isLogged
            && entry.id == Text.IntToString(now) && entry.date == now
            && entry.intensity.None?
  {
    var selection := new EmotionSelectionScreen.EmotionSelectionScreen();
    if tile !in EmotionSelectionScreen.BaseEmotions {
      selection.ToggleDetailedEmotions();
    }
    selection.HandleEmotionSelect(tile);
    if tile == EmotionSelectionScreen.OtherTile {
      selection.SetCustomEmotion(custom);
    }
    selection.SetIntensity(intensity);
    assert selection.ContinueEnabled();
    var toRecording := selection.HandleContinue();
    assert Step(EmotionSelection, toRecording.value.Target());

    var recording := new RecordingMethodScreen.RecordingMethodScreen(toRecording.value.recording);
    recording.SetTextContent(text);
    assert recording.ContinueEnabled();
    var toAnalysis := recording.HandleSubmit();
    assert Step(RecordingMethod, toAnalysis.Target());

    var analysis := new AnalysisScreen.AnalysisScreen(toAnalysis.analysis);
    analysis.CompleteAnalysis();
    analysis.SelectAdvisor(advisor);
    analysis.SelectRecipient(recipient);
    assert analysis.ContinueEnabled();
    nav := analysis.HandleContinue(now);
    assert Step(Analysis, nav.Target());
  }

  /**
   * The AI response screen as the wired wizard opens it: the forwarded
   * parameters carry no response type, so it always takes the logged branch.
   * No request is made, whatever `service` would answer, and the logged text
   * is shown under the "Logged" title.
   */
  method OpenWiredAIResponse(params: AIResponseParams,
                             service: ChatMessages.ChatRequest -> MobileAIResponse.CallResult)
    returns (screen: MobileAIResponse.AIResponseScreen, issued: Option<ChatMessages.ChatRequest>)
    requires params.responseType.None?
    ensures issued.None?
    ensures screen.journalEntry == params.journalEntry && !screen.loading
    ensures screen.response == MobileAIResponse.LoggedText(params.journalEntry)
    ensures MobileAIResponse.Title(screen.responseType) == "📝 Logged"
  {
    screen := new MobileAIResponse.AIResponseScreen(params);
    issued := screen.GenerateResponse(service);
  }
}
