/** The pure updates behind the result editor (`map` over the arrays and
    object spread, components/PromptGenerator.tsx) and the clipboard text
    built from a character or a scene cut. */
module Edits {
  import opened Wrappers
  import opened Records

  /** `cut[field]` for an editable field. */
  function CutFieldValue(cut: SceneCut, field: CutField): string {
    match field
    case Narration => cut.narration
    case BackgroundMusic => cut.backgroundMusic
    case SoundEffects => cut.soundEffects
    case DynamicElements => cut.dynamicElements
  }

  /** `{ ...cut, [field]: value }`: the named field takes the value, every
      other field keeps its own. */
  function WithCutField(cut: SceneCut, field: CutField, value: string): (c: SceneCut)
    ensures CutFieldValue(c, field) == value
    ensures forall g :: g != field ==> CutFieldValue(c, g) == CutFieldValue(cut, g)
    ensures c.cutNumber == cut.cutNumber && c.description == cut.description
  {
    match field
    case Narration => cut.(narration := value)
    case BackgroundMusic => cut.(backgroundMusic := value)
    case SoundEffects => cut.(soundEffects := value)
    case DynamicElements => cut.(dynamicElements := value)
  }

  /** `cuts.map((cut, i) => i === index ? {...cut, [field]: value} : cut)`:
      same length, only the cut at `index` changes, and an index outside the
      array changes nothing. */
  function EditSceneCuts(cuts: seq<SceneCut>, index: int, field: CutField, value: string): (r: seq<SceneCut>)
    ensures |r| == |cuts|
    ensures forall j :: 0 <= j < |cuts| && j != index ==> r[j] == cuts[j]
    ensures 0 <= index < |cuts| ==>
      && CutFieldValue(r[index], field) == value
      && (forall g :: g != field ==> CutFieldValue(r[index], g) == CutFieldValue(cuts[index], g))
      && r[index].cutNumber == cuts[index].cutNumber
      && r[index].description == cuts[index].description
    ensures !(0 <= index < |cuts|) ==> r == cuts
  {
    seq(|cuts|, j requires 0 <= j < |cuts| => if j == index then WithCutField(cuts[j], field, value) else cuts[j])
  }

  /** `char[field]`. */
  function CharacterFieldValue(c: Character, field: CharacterField): string {
    match field
    case Name => c.name
    case Description => c.description
  }

  /** `{ ...char, [field]: value }`. */
  function WithCharacterField(c: Character, field: CharacterField, value: string): (d: Character)
    ensures CharacterFieldValue(d, field) == value
    ensures forall g :: g != field ==> CharacterFieldValue(d, g) == CharacterFieldValue(c, g)
  {
    match field
    case Name => c.(name := value)
    case Description => c.(description := value)
  }

  /** `characters.map(...)`: only the character at `index` changes. */
  function EditCharacters(characters: seq<Character>, index: int, field: CharacterField, value: string)
    : (r: seq<Character>)
    ensures |r| == |characters|
    ensures forall j :: 0 <= j < |characters| && j != index ==> r[j] == characters[j]
    ensures 0 <= index < |characters| ==>
      && CharacterFieldValue(r[index], field) == value
      && (forall g :: g != field ==> CharacterFieldValue(r[index], g) == CharacterFieldValue(characters[index], g))
    ensures !(0 <= index < |characters|) ==> r == characters
  {
    seq(|characters|, j requires 0 <= j < |characters| =>
      if j == index then WithCharacterField(characters[j], field, value) else characters[j])
  }

  /** `handleFullPromptChange`'s new result: nothing without a result,
      otherwise only `fullPrompt` changes. */
  function EditFullPrompt(result: Option<GeneratedResult>, value: string): (r: Option<GeneratedResult>)
    ensures result.None? ==> r.None?
    ensures result.Some? ==> && r.Some? && r.value.fullPrompt == value
                             && r.value.characters == result.value.characters
                             && r.value.sceneCuts == result.value.sceneCuts
  {
    match result
    case None => None
    case Some(res) => Some(res.(fullPrompt := value))
  }

  /** `handleSceneCutChange`'s new result: nothing without a result,
      otherwise only the cut at `index` changes. */
  function EditSceneCut(result: Option<GeneratedResult>, field: CutField, value: string, index: int)
    : (r: Option<GeneratedResult>)
    ensures result.None? ==> r.None?
    ensures result.Some? ==> && r.Some? && r.value.fullPrompt == result.value.fullPrompt
                             && r.value.characters == result.value.characters
                             && r.value.sceneCuts == EditSceneCuts(result.value.sceneCuts, index, field, value)
  {
    match result
    case None => None
    case Some(res) => Some(res.(sceneCuts := EditSceneCuts(res.sceneCuts, index, field, value)))
  }

  /** `handleCharacterChange`'s new result: nothing without a result,
      otherwise only the character at `index` changes. */
  function EditCharacter(result: Option<GeneratedResult>, field: CharacterField, value: string, index: int)
    : (r: Option<GeneratedResult>)
    ensures result.None? ==> r.None?
    ensures result.Some? ==> && r.Some? && r.value.fullPrompt == result.value.fullPrompt
                             && r.value.sceneCuts == result.value.sceneCuts
                             && r.value.characters == EditCharacters(result.value.characters, index, field, value)
  {
    match result
    case None => None
    case Some(res) => Some(res.(characters := EditCharacters(res.characters, index, field, value)))
  }

  // ---- clipboard text -------------------------------------------------------

  const BlockSeparator := "\n\n"

  /** Blocks joined by a separator, the reference layout of copied text. */
  function Join(blocks: seq<string>, sep: string): string
    decreases |blocks|
  {
    if blocks == [] then ""
    else if |blocks| == 1 then blocks[0]
    else blocks[0] + sep + Join(blocks[1..], sep)
  }

  /** The text copied for a character. */
  function CharacterCopyText(c: Character): (t: string)
    ensures t == Join([c.name, c.description], BlockSeparator)
  {
    c.name + BlockSeparator + c.description
  }

  const DynamicElementsHeading := "Dynamic Elements:\n"
  const BackgroundMusicHeading := "Background Music:\n"
  const SoundEffectsHeading := "Sound Effects:\n"
  const NarrationHeading := "Narration:\n"

  /** The headed blocks a scene cut is copied as, in their fixed order. */
  function CutBlocks(cut: SceneCut): seq<string> {
    [ cut.cutNumber,
      cut.description,
      DynamicElementsHeading + cut.dynamicElements,
      BackgroundMusicHeading + cut.backgroundMusic,
      SoundEffectsHeading + cut.soundEffects,
      NarrationHeading + cut.narration ]
  }

  /** The text copied for a scene cut, as the template string builds it:
      it is the six headed blocks of the cut joined by blank lines. */
  function CutCopyText(cut: SceneCut): (t: string)
    ensures t == Join(CutBlocks(cut), BlockSeparator)
  {
    var sep := BlockSeparator;
    var b := CutBlocks(cut);
    JoinSix(b, sep);
    cut.cutNumber + sep + cut.description
      + sep + (DynamicElementsHeading + cut.dynamicElements)
      + sep + (BackgroundMusicHeading + cut.backgroundMusic)
      + sep + (SoundEffectsHeading + cut.soundEffects)
      + sep + (NarrationHeading + cut.narration)
  }

  /** Joining six blocks spelled out. */
  lemma JoinSix(b: seq<string>, sep: string)
    requires |b| == 6
    ensures Join(b, sep) == b[0] + sep + b[1] + sep + b[2] + sep + b[3] + sep + b[4] + sep + b[5]
  {
    assert Join(b[5..], sep) == b[5];
    assert b[4..][1..] == b[5..];
    assert Join(b[4..], sep) == b[4] + sep + b[5];
    assert b[3..][1..] == b[4..];
    assert Join(b[3..], sep) == b[3] + sep + Join(b[4..], sep);
    assert b[2..][1..] == b[3..];
    assert Join(b[2..], sep) == b[2] + sep + Join(b[3..], sep);
    assert b[1..][1..] == b[2..];
    assert Join(b[1..], sep) == b[1] + sep + Join(b[2..], sep);
    var j := b[0] + sep + (b[1] + sep + (b[2] + sep + (b[3] + sep + (b[4] + sep + b[5]))));
    assert Join(b, sep) == j;
    assert j == b[0] + sep + b[1] + sep + b[2] + sep + b[3] + sep + b[4] + sep + b[5];
  }
}
