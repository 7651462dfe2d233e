/**
 * The second screen of the wizard (src/screens/RecordingMethodScreen.tsx):
 * a text field, a voice-recording toggle that records nothing, and a
 * Continue button forwarding the text to the analysis.
 */
module RecordingMethodScreen {
  import opened Types

  class RecordingMethodScreen {
    const emotion: Emotion
    const intensity: int
    var isRecording: bool
    var textContent: string

    /** The route parameters; not recording, empty text. */
    constructor(params: RecordingMethodParams)
      ensures emotion == params.emotion && intensity == params.intensity
      ensures !isRecording && textContent == ""
    {
      emotion := params.emotion;
      intensity := params.intensity;
      isRecording := false;
      textContent := "";
    }

    /** The voice button only flips the recording flag; the text is untouched. */
    method HandleVoiceRecord()
      modifies this
      ensures isRecording == !old(isRecording)
      ensures textContent == old(textContent)
    {
      isRecording := !isRecording;
    }

    /** Typing in the text field. */
    method SetTextContent(text: string)
      modifies this
      ensures textContent == text
      ensures isRecording == old(isRecording)
    {
      textContent := text;
    }

    /** Continue is disabled while the text is empty. */
    predicate ContinueEnabled()
      reads this
    {
      textContent != ""
    }

    /**
     * `handleSubmit`: the only navigation of this screen, to Analysis, with
     * the route's emotion and intensity, the typed text, and never a voice note.
     */
    method HandleSubmit() returns (nav: Navigation)
      ensures nav.Target() == Analysis
      ensures nav == ToAnalysis(AnalysisParams(emotion, intensity, textContent, false))
    {
      nav := ToAnalysis(AnalysisParams(emotion, intensity, textContent, false));
    }
  }

  /** Pressing the voice button twice restores the flag and leaves the text alone. */
  method VoiceToggleTwice(s: RecordingMethodScreen)
    modifies s
    ensures s.isRecording == old(s.isRecording) && s.textContent == old(s.textContent)
  {
    s.HandleVoiceRecord();
    s.HandleVoiceRecord();
  }
}
