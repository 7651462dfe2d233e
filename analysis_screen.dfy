/**
 * The third screen of the wizard (src/screens/AnalysisScreen.tsx): a
 * simulated analysis, the advisor and recipient choices, the save toggle,
 * and the journal entry Continue builds.
 */
module AnalysisScreen {
  import opened Wrappers
  import opened Text
  import opened Types

  const AdvisorIds: seq<string> := ["therapist", "friend", "parent", "mentor"]
  const RecipientIds: seq<string> := ["self", "friend", "partner", "family"]

  /** The summary the two-second timer installs. */
  const SummaryText: string :=
    "Based on your entry, it seems " +
    "you're experiencing strong " +
    "emotions due to a challenging " +
    "situation. Your response shows " +
    "self-awareness and a desire to " +
    "understand these feelings " +
    "better."

  class AnalysisScreen {
    const emotion: Emotion
    const content: string
    const isVoiceNote: bool
    var loading: bool
    var aiSummary: string
    var selectedAdvisor: string
    var selectedRecipient: string
    var saveToJournal: bool

    /** A selection is either empty or one of the offered ids. */
    ghost predicate Valid()
      reads this
    {
      && (selectedAdvisor == "" || selectedAdvisor in AdvisorIds)
      && (selectedRecipient == "" || selectedRecipient in RecipientIds)
    }

    /** The route parameters; loading, no summary, nothing chosen, saving on. */
    constructor(params: AnalysisParams)
      ensures Valid()
      ensures emotion == params.emotion && content == params.content && isVoiceNote == params.isVoiceNote
      ensures loading && aiSummary == "" && selectedAdvisor == "" && selectedRecipient == ""
      ensures saveToJournal
    {
      emotion := params.emotion;
      content := params.content;
      isVoiceNote := params.isVoiceNote;
      loading := true;
      aiSummary := "";
      selectedAdvisor := "";
      selectedRecipient := "";
      saveToJournal := true;
    }

    /** The timer callback: the fixed summary, and loading ends. */
    method CompleteAnalysis()
      requires Valid()
      modifies this
      ensures Valid()
      ensures aiSummary == SummaryText && !loading
      ensures selectedAdvisor == old(selectedAdvisor) && selectedRecipient == old(selectedRecipient)
      ensures saveToJournal == old(saveToJournal)
    {
      aiSummary := SummaryText;
      loading := false;
    }

    /** Tapping an advisor card, shown once loading is over. */
    method SelectAdvisor(id: string)
      requires Valid() && !loading && id in AdvisorIds
      modifies this
      ensures Valid()
      ensures selectedAdvisor == id
      ensures selectedRecipient == old(selectedRecipient) && saveToJournal == old(saveToJournal)
      ensures aiSummary == old(aiSummary) && loading == old(loading)
    {
      selectedAdvisor := id;
    }

    /** Tapping a recipient card, shown once loading is over. */
    method SelectRecipient(id: string)
      requires Valid() && !loading && id in RecipientIds
      modifies this
      ensures Valid()
      ensures selectedRecipient == id
      ensures selectedAdvisor == old(selectedAdvisor) && saveToJournal == old(saveToJournal)
      ensures aiSummary == old(aiSummary) && loading == old(loading)
    {
      selectedRecipient := id;
    }

    /** The save checkbox flips the flag. */
    method ToggleSave()
      requires Valid() && !loading
      modifies this
      ensures Valid()
      ensures saveToJournal == !old(saveToJournal)
      ensures selectedAdvisor == old(selectedAdvisor) && selectedRecipient == old(selectedRecipient)
      ensures aiSummary == old(aiSummary) && loading == old(loading)
    {
      saveToJournal := !saveToJournal;
    }

    /** Continue is enabled when both an advisor and a recipient are chosen. */
    predicate ContinueEnabled()
      reads this
    {
      selectedAdvisor != "" && selectedRecipient != ""
    }

    /**
     * The entry Continue builds at clock reading `now` (milliseconds): the
     * route's emotion, content and voice flag, the current summary and
     * choices, `isLogged` from the save flag, and no intensity.
     */
    function BuildEntry(now: int): (e: JournalEntry)
      reads this
      ensures e.id == IntToString(now) && e.date == now
      ensures e.emotion == emotion && e.content == content && e.isVoiceNote == isVoiceNote
      ensures e.aiSummary == Some(aiSummary)
      ensures e.advisorPerspective == Some(selectedAdvisor) && e.recipient == Some(selectedRecipient)
      ensures e.isLogged == saveToJournal
      ensures e.intensity.None?
    {
      JournalEntry(IntToString(now), now, emotion, content, isVoiceNote,
        Some(aiSummary), Some(selectedAdvisor), Some(selectedRecipient), saveToJournal, None)
    }

    /** `handleContinue`: to AIResponse with the built entry and no response type. */
    method HandleContinue(now: int) returns (nav: Navigation)
      ensures nav.Target() == AIResponse
      ensures nav == ToAIResponse(AIResponseParams(BuildEntry(now), None))
    {
      var entry := BuildEntry(now);
      nav := ToAIResponse(AIResponseParams(entry, None));
    }
  }

  /** Toggling the save flag twice restores it. */
  method ToggleSaveTwice(s: AnalysisScreen)
    requires s.Valid() && !s.loading
    modifies s
    ensures s.Valid()
    ensures s.saveToJournal == old(s.saveToJournal)
    ensures s.selectedAdvisor == old(s.selectedAdvisor) && s.selectedRecipient == old(s.selectedRecipient)
    ensures s.aiSummary == old(s.aiSummary) && s.loading == old(s.loading)
  {
    s.ToggleSave();
    s.ToggleSave();
  }

  /** An enabled Continue builds an entry whose advisor and recipient are offered ids. */
  lemma EnabledEntryHasOfferedChoices(s: AnalysisScreen, now: int)
    requires s.Valid() && s.ContinueEnabled()
    ensures s.BuildEntry(now).advisorPerspective.value in AdvisorIds
    ensures s.BuildEntry(now).recipient.value in RecipientIds
  {
  }
}
