/**
 * The first screen of the wizard (src/screens/EmotionSelectionScreen.tsx):
 * the emotion tiles, the custom-emotion text, the intensity slider, the
 * "More Emotions" toggle and the Continue button.
 */
module EmotionSelectionScreen {
  import opened Wrappers
  import opened Types

  const BaseEmotions: seq<Emotion> := [
    Emotion("Happy", "😊", "#FFD700"),
    Emotion("Sad", "😢", "#87CEEB"),
    Emotion("Angry", "😠", "#FF6B6B"),
    Emotion("Worried", "😨", "#DDA0DD"),
    Emotion("Other", "➕", "#A9A9A9")
  ]

  const DetailedEmotions: seq<Emotion> := [
    Emotion("Overwhelmed", "😫", "#E6B0AA"),
    Emotion("Stressed", "😓", "#D7BDE2"),
    Emotion("Anxious", "😰", "#A9CCE3"),
    Emotion("Frustrated", "😤", "#F5B7B1"),
    Emotion("Nervous", "😅", "#FAD7A0")
  ]

  /** The "Other" tile. */
  const OtherTile: Emotion := BaseEmotions[4]

  /**
   * The emotion forwarded by Continue: "Other" with a non-empty custom text
   * becomes a fresh emotion named by that text; any other selection goes
   * through unchanged.
   */
  function ResolveEmotion(selected: Emotion, custom: string): (e: Emotion)
    ensures selected.name == "Other" && custom != "" ==> e == Emotion(custom, "📝", "#A9A9A9")
    ensures !(selected.name == "Other" && custom != "") ==> e == selected
  {
    if selected.name == "Other" && custom != "" then Emotion(custom, "📝", "#A9A9A9") else selected
  }

  class EmotionSelectionScreen {
    var selectedEmotion: Option<Emotion>
    var customEmotion: string
    var emotionIntensity: int
    var showDetailedEmotions: bool

    /** The intensity stays on the slider's range and a selection is always one of the tiles. */
    ghost predicate Valid()
      reads this
    {
      && 1 <= emotionIntensity <= 10
      && (selectedEmotion.Some? ==> selectedEmotion.value in BaseEmotions + DetailedEmotions)
    }

    /** Nothing selected, no custom text, intensity 5, detailed tiles hidden. */
    constructor()
      ensures Valid()
      ensures selectedEmotion.None? && customEmotion == ""
      ensures emotionIntensity == 5 && !showDetailedEmotions
    {
      selectedEmotion := None;
      customEmotion := "";
      emotionIntensity := 5;
      showDetailedEmotions := false;
    }

    /** Tapping a visible tile replaces the selection and changes nothing else. */
    method HandleEmotionSelect(emotion: Emotion)
      requires Valid()
      requires emotion in BaseEmotions || (showDetailedEmotions && emotion in DetailedEmotions)
      modifies this
      ensures Valid()
      ensures selectedEmotion == Some(emotion)
      ensures customEmotion == old(customEmotion) && emotionIntensity == old(emotionIntensity)
      ensures showDetailedEmotions == old(showDetailedEmotions)
    {
      selectedEmotion := Some(emotion);
    }

    /** Typing in the custom field, which is shown only while "Other" is selected. */
    method SetCustomEmotion(text: string)
      requires Valid()
      requires selectedEmotion == Some(OtherTile)
      modifies this
      ensures Valid()
      ensures customEmotion == text
      ensures selectedEmotion == old(selectedEmotion) && emotionIntensity == old(emotionIntensity)
      ensures showDetailedEmotions == old(showDetailedEmotions)
    {
      customEmotion := text;
    }

    /** Moving the slider, shown only once an emotion is selected: whole values from 1 to 10. */
    method SetIntensity(value: int)
      requires Valid()
      requires selectedEmotion.Some? && 1 <= value <= 10
      modifies this
      ensures Valid()
      ensures emotionIntensity == value
      ensures selectedEmotion == old(selectedEmotion) && customEmotion == old(customEmotion)
      ensures showDetailedEmotions == old(showDetailedEmotions)
    {
      emotionIntensity := value;
    }

    /** "More Emotions" / "Show Less" flips the visibility of the detailed tiles. */
    method ToggleDetailedEmotions()
      requires Valid()
      modifies this
      ensures Valid()
      ensures showDetailedEmotions == !old(showDetailedEmotions)
      ensures selectedEmotion == old(selectedEmotion) && customEmotion == old(customEmotion)
      ensures emotionIntensity == old(emotionIntensity)
    {
      showDetailedEmotions := !showDetailedEmotions;
    }

    /** Continue is enabled when an emotion is selected, unless it is "Other" with no custom text. */
    predicate ContinueEnabled()
      reads this
    {
      selectedEmotion.Some? && !(selectedEmotion.value.name == "Other" && customEmotion == "")
    }

    /**
     * `handleContinue`: nothing without a selection; otherwise navigation to
     * RecordingMethod with the resolved emotion and the current intensity.
     */
    method HandleContinue() returns (nav: Option<Navigation>)
      ensures selectedEmotion.None? ==> nav.None?
      ensures selectedEmotion.Some? ==>
        nav == Some(ToRecordingMethod(RecordingMethodParams(
                 ResolveEmotion(selectedEmotion.value, customEmotion), emotionIntensity)))
    {
      nav := None;
      if selectedEmotion.Some? {
        var emotion := ResolveEmotion(selectedEmotion.value, customEmotion);
        nav := Some(ToRecordingMethod(RecordingMethodParams(emotion, emotionIntensity)));
      }
    }
  }

  /**
   * Whenever Continue is enabled, what it forwards is never the "Other" tile
   * itself, and its intensity is on the slider's range.
   */
  lemma EnabledContinueForwardsRealEmotion(s: EmotionSelectionScreen)
    requires s.Valid() && s.ContinueEnabled()
    ensures ResolveEmotion(s.selectedEmotion.value, s.customEmotion) != OtherTile
    ensures ResolveEmotion(s.selectedEmotion.value, s.customEmotion).name != ""
    ensures 1 <= s.emotionIntensity <= 10
  {
    var e := s.selectedEmotion.value;
    if e.name == "Other" {
      assert ResolveEmotion(e, s.customEmotion).icon == "📝" != "➕";
    } else {
      assert e != OtherTile;
      assert e in BaseEmotions + DetailedEmotions;
    }
  }

  /** Flipping the detailed list twice restores its visibility and nothing else changes. */
  method ToggleTwice(s: EmotionSelectionScreen)
    requires s.Valid()
    modifies s
    ensures s.Valid()
    ensures s.showDetailedEmotions == old(s.showDetailedEmotions)
    ensures s.selectedEmotion == old(s.selectedEmotion) && s.customEmotion == old(s.customEmotion)
    ensures s.emotionIntensity == old(s.emotionIntensity)
  {
    s.ToggleDetailedEmotions();
    s.ToggleDetailedEmotions();
  }
}
