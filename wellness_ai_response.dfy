/**
 * The AI response screen of the wellness web client
 * (wellness/WellnessCompanion-ui/src/screens/AIResponseScreen.tsx): it asks
 * the local service for a reply and, when either call fails, shows an error
 * banner and the advisor's fallback text.
 */
module WellnessAIResponse {
  import opened Wrappers
  import opened Types

  // The fallback texts of lines 39-44, keyed by advisor

  const TherapistText: string :=
    "From a therapeutic perspective, " +
    "it's important to acknowledge " +
    "that your feelings are valid. " +
    "Your emotional response is a " +
    "natural reaction to this " +
    "situation. Let's explore some " +
    "coping strategies that might " +
    "help you process these emotions " +
    "in a healthy way..."

  const FriendText: string :=
    "Hey, I hear you and I totally " +
    "get what you're going through. " +
    "It's completely normal to feel " +
    "this way, and I want you to " +
    "know that I'm here for you. " +
    "Have you considered looking at " +
    "it this way..."

  const ParentText: string :=
    "I care about you deeply and it " +
    "hurts to see you going through " +
    "this. Remember that challenges " +
    "help us grow stronger, and I " +
    "believe in your ability to " +
    "handle this situation. Here's " +
    "what I've learned from my " +
    "experience..."

  const MentorText: string :=
    "Looking at this situation " +
    "objectively, I can see several " +
    "learning opportunities here. " +
    "Your emotional awareness is " +
    "commendable, and we can use " +
    "this experience to develop " +
    "stronger emotional " +
    "intelligence..."

  const FallbackTexts: map<string, string> :=
    map["therapist" := TherapistText, "friend" := FriendText, "parent" := ParentText, "mentor" := MentorText]

  const ConnectErrorText: string :=
    "Failed to connect to the AI " +
    "service. Using fallback response."

  /** The fallback for the entry's advisor; the friend's text when the advisor is absent or not in the table. */
  function FallbackText(advisor: Option<string>): (r: string)
    ensures advisor.Some? && advisor.value in FallbackTexts ==> r == FallbackTexts[advisor.value]
    ensures !(advisor.Some? && advisor.value in FallbackTexts) ==> r == FriendText
    ensures r in FallbackTexts.Values
  {
    assert FallbackTexts["friend"] == FriendText;
    if advisor.Some? && advisor.value in FallbackTexts then FallbackTexts[advisor.value] else FriendText
  }

  class AIResponseScreen {
    const journalEntry: JournalEntry
    var loading: bool
    var response: string
    var error: Option<string>

    /** The route's entry; loading, no response, no error. */
    constructor(entry: JournalEntry)
      ensures journalEntry == entry
      ensures loading && response == "" && error.None?
    {
      journalEntry := entry;
      loading := true;
      response := "";
      error := None;
    }

    /**
     * `getAIResponse`. `modelsReachable` is whether `getModels` resolved;
     * `reply` is what `getResponse` resolved to, `None` when it rejected.
     * Returns whether `getResponse` was called at all. On success the reply
     * is shown and the error cleared; if either call fails the error banner
     * and the fallback text are shown. Loading is off afterwards either way.
     */
    method GetAIResponse(modelsReachable: bool, reply: Option<string>) returns (requested: bool)
      modifies this
      ensures requested == modelsReachable
      ensures modelsReachable && reply.Some? ==> response == reply.value && error.None?
      ensures !(modelsReachable && reply.Some?) ==>
                error == Some(ConnectErrorText) && response == FallbackText(journalEntry.advisorPerspective)
      ensures !loading
    {
      loading := true;
      requested := false;
      var succeeded := false;
      if modelsReachable {
        requested := true;
        if reply.Some? {
          response := reply.value;
          error := None;
          succeeded := true;
        }
      }
      if !succeeded {
        error := Some(ConnectErrorText);
        response := FallbackText(journalEntry.advisorPerspective);
      }
      loading := false;
    }

    /** Continue goes to Gratitude with the entry unchanged. */
    method HandleContinue() returns (nav: Navigation)
      ensures nav == ToGratitude(journalEntry) && nav.Target() == Gratitude
    {
      nav := ToGratitude(journalEntry);
    }
  }
}
