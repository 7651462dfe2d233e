/**
 * The records the wizard passes between screens (src/types/index.ts) and the
 * navigation targets with the parameters each screen actually sends.
 */
module Types {
  import opened Wrappers

  datatype Emotion = Emotion(name: string, icon: string, color: string)

  /**
   * A journal entry. `date` is the clock reading in milliseconds. The last
   * field, `intensity`, is not part of the declared type: AIResponseScreen
   * reads `journalEntry.intensity` from an untyped route parameter, so the
   * model carries it as optional, `None` standing for `undefined`.
   */
  datatype JournalEntry = JournalEntry(
    id: string,
    date: int,
    emotion: Emotion,
    content: string,
    isVoiceNote: bool,
    aiSummary: Option<string>,
    advisorPerspective: Option<string>,
    recipient: Option<string>,
    isLogged: bool,
    intensity: Option<int>)

  /** What EmotionSelection sends to RecordingMethod (the declared type omits `intensity`). */
  datatype RecordingMethodParams = RecordingMethodParams(emotion: Emotion, intensity: int)

  /** What RecordingMethod sends to Analysis (the declared type omits `intensity`). */
  datatype AnalysisParams = AnalysisParams(emotion: Emotion, intensity: int, content: string, isVoiceNote: bool)

  /** What AIResponse reads from its route: `responseType` is `None` when not passed. */
  datatype AIResponseParams = AIResponseParams(journalEntry: JournalEntry, responseType: Option<string>)

  /** The screens registered in the navigator of App.tsx. */
  datatype Screen = EmotionSelection | RecordingMethod | Analysis | AIResponse | Gratitude | Profile

  /** A `navigation.navigate` call: its target and the parameters it passes. */
  datatype Navigation =
    | ToEmotionSelection
    | ToRecordingMethod(recording: RecordingMethodParams)
    | ToAnalysis(analysis: AnalysisParams)
    | ToAIResponse(aiResponse: AIResponseParams)
    | ToGratitude(entry: JournalEntry)
    | ToProfile
  {
    function Target(): Screen {
      match this
      case ToEmotionSelection => EmotionSelection
      case ToRecordingMethod(_) => RecordingMethod
      case ToAnalysis(_) => Analysis
      case ToAIResponse(_) => AIResponse
      case ToGratitude(_) => Gratitude
      case ToProfile => Profile
    }
  }
}
