/** The records the session passes around (the TypeScript types of
    components/PromptGenerator.tsx and services/geminiService.ts). */
module Records {

  /** The eight user-chosen generation parameters; an empty (or blank)
      optional field means "not specified". */
  datatype Inputs = Inputs(
    verse: string,
    language: string,
    videoLength: string,
    cutLength: string,
    style: string,
    era: string,
    country: string,
    colorTone: string)

  datatype Character = Character(name: string, description: string)

  datatype SceneCut = SceneCut(
    cutNumber: string,
    description: string,
    narration: string,
    backgroundMusic: string,
    soundEffects: string,
    dynamicElements: string)

  datatype GeneratedResult = GeneratedResult(
    fullPrompt: string,
    characters: seq<Character>,
    sceneCuts: seq<SceneCut>)

  /** A stored generation: `id` and `timestamp` are derived from the clock. */
  datatype HistoryItem = HistoryItem(
    id: string,
    timestamp: int,
    verse: string,
    generatedResult: GeneratedResult,
    inputs: Inputs)

  /** The scene-cut fields the editor may change (`cutNumber` and
      `description` are read-only). */
  datatype CutField = Narration | BackgroundMusic | SoundEffects | DynamicElements

  /** The character fields the editor may change. */
  datatype CharacterField = Name | Description
}
