/** The `PromptGenerator` component as a state machine: its state hooks are
    the fields of a class, and each handler is a method (an asynchronous
    handler is split into the step that starts the request and the step that
    receives its outcome). */
module Session {
  import opened Wrappers
  import opened Text
  import opened Records
  import opened Edits
  import opened History
  import Constants

  datatype Tab = Full | Cuts

  /** The form fields, one per input setter. */
  datatype InputField = VerseField | LanguageField | VideoLengthField | CutLengthField
                      | StyleField | EraField | CountryField | ColorToneField

  const VerseRequired := "성경 구절을 입력해주세요."
  const GenerationFailed := "프롬프트 생성에 실패했습니다. 나중에 다시 시도해주세요."
  const ToneVerseRequired := "색상톤을 추천받으려면 먼저 성경 구절을 입력해주세요."
  const ToneFailed := "색상톤 추천에 실패했습니다."

  /** The inputs the form starts with and returns to on reset: every choice
      is an option its select box offers, and the free-text fields are empty. */
  function DefaultInputs(): (i: Inputs)
    ensures Constants.Offers(Constants.Languages, i.language)
    ensures Constants.Offers(Constants.VisualStyles, i.style)
    ensures Constants.Offers(Constants.HistoricalEras, i.era)
    ensures i.verse == i.videoLength == i.cutLength == i.country == i.colorTone == ""
  {
    Constants.DefaultsOffered();
    Inputs("", Constants.DefaultLanguage, "", "", Constants.DefaultStyle, Constants.DefaultEra, "", "")
  }

  /** `inputs` after the setter of `field` stored `value`. */
  function WithInput(inputs: Inputs, field: InputField, value: string): Inputs {
    match field
    case VerseField => inputs.(verse := value)
    case LanguageField => inputs.(language := value)
    case VideoLengthField => inputs.(videoLength := value)
    case CutLengthField => inputs.(cutLength := value)
    case StyleField => inputs.(style := value)
    case EraField => inputs.(era := value)
    case CountryField => inputs.(country := value)
    case ColorToneField => inputs.(colorTone := value)
  }

  class PromptGenerator {
    var verse: string
    var language: string
    var videoLength: string
    var cutLength: string
    var style: string
    var era: string
    var country: string
    var colorTone: string
    var isRecommendingTone: bool
    var generatedResult: Option<GeneratedResult>
    var isLoading: bool
    var error: Option<string>
    var activeTab: Tab
    var isHistoryOpen: bool
    var history: seq<HistoryItem>
    /** The eight inputs captured when the generation in flight started. */
    var pending: Option<Inputs>

    /** A generation is in flight exactly when inputs were captured for it. */
    ghost predicate Valid()
      reads this`isLoading, this`pending
    {
      isLoading <==> pending.Some?
    }

    /** The eight form inputs as one record. */
    function CurrentInputs(): Inputs
      reads this`verse, this`language, this`videoLength, this`cutLength,
            this`style, this`era, this`country, this`colorTone
    {
      Inputs(verse, language, videoLength, cutLength, style, era, country, colorTone)
    }

    /** The initial state, with the history read from storage at start-up. */
    constructor (stored: Option<string>, parse: string -> Option<seq<HistoryItem>>)
      ensures Valid()
      ensures CurrentInputs() == DefaultInputs()
      ensures !isRecommendingTone && generatedResult.None? && !isLoading && error.None?
      ensures activeTab == Full && !isHistoryOpen
      ensures history == LoadHistory(stored, parse)
    {
      verse, language, videoLength, cutLength := "", Constants.DefaultLanguage, "", "";
      style, era, country, colorTone := Constants.DefaultStyle, Constants.DefaultEra, "", "";
      isRecommendingTone := false;
      generatedResult := None;
      isLoading := false;
      error := None;
      activeTab := Full;
      isHistoryOpen := false;
      history := LoadHistory(stored, parse);
      pending := None;
    }

    /** The `onChange` setter of one form field. */
    method SetInput(field: InputField, value: string)
      modifies this`verse, this`language, this`videoLength, this`cutLength,
               this`style, this`era, this`country, this`colorTone
      ensures CurrentInputs() == WithInput(old(CurrentInputs()), field, value)
    {
      match field
      case VerseField => verse := value;
      case LanguageField => language := value;
      case VideoLengthField => videoLength := value;
      case CutLengthField => cutLength := value;
      case StyleField => style := value;
      case EraField => era := value;
      case CountryField => country := value;
      case ColorToneField => colorTone := value;
    }

    /** `handleGenerate` up to the request: a blank verse only sets the
      validation error; otherwise the result and error are cleared, loading
      starts and the eight inputs are captured for the completion step. The
      Generate button is disabled while loading. */
    method StartGenerate()
      requires Valid() && !isLoading
      modifies this`error, this`isLoading, this`generatedResult, this`pending
      ensures Valid()
      ensures Blank(verse) ==> && error == Some(VerseRequired) && !isLoading
                               && generatedResult == old(generatedResult) && pending == old(pending)
      ensures !Blank(verse) ==> && isLoading && error.None? && generatedResult.None?
                                && pending == Some(CurrentInputs())
    {
      if Blank(verse) {
        error := Some(VerseRequired);
        return;
      }
      isLoading := true;
      error := None;
      generatedResult := None;
      pending := Some(CurrentInputs());
    }

    /** `handleGenerate` after a successful request: the result is shown on
      the full-prompt tab and recorded first in the history, with the verse
      and inputs captured when the request started; loading ends. */
    method CompleteGenerateOk(result: GeneratedResult, id: string, timestamp: int)
      requires Valid() && isLoading
      modifies this`generatedResult, this`activeTab, this`history, this`isLoading, this`pending
      ensures Valid() && !isLoading
      ensures generatedResult == Some(result) && activeTab == Full
      ensures var captured := old(pending).value;
        history == Prepend(HistoryItem(id, timestamp, captured.verse, result, captured), old(history))
      ensures |history| <= HistoryLimit && history[0].inputs == old(pending).value
    {
      var captured := pending.value;
      generatedResult := Some(result);
      activeTab := Full;
      history := Prepend(HistoryItem(id, timestamp, captured.verse, result, captured), history);
      isLoading := false;
      pending := None;
    }

    /** `handleGenerate` after a failed request: only the error is set and
      loading ends; the history and the (cleared) result stay as they are. */
    method CompleteGenerateErr()
      requires Valid() && isLoading
      modifies this`error, this`isLoading, this`pending
      ensures Valid() && !isLoading
      ensures error == Some(GenerationFailed)
    {
      error := Some(GenerationFailed);
      isLoading := false;
      pending := None;
    }

    /** `handleRecommendTone` up to the request: a blank verse only sets the
      validation error; otherwise the request starts and the error is
      cleared. The button is disabled while a recommendation is in flight. */
    method StartRecommendTone()
      requires !isRecommendingTone
      modifies this`isRecommendingTone, this`error
      ensures Blank(verse) ==> error == Some(ToneVerseRequired) && !isRecommendingTone
      ensures !Blank(verse) ==> isRecommendingTone && error.None?
    {
      if Blank(verse) {
        error := Some(ToneVerseRequired);
        return;
      }
      isRecommendingTone := true;
      error := None;
    }

    /** `handleRecommendTone` after the request: a recommendation becomes the
      colour tone; a failure sets the error and keeps the tone. */
    method CompleteRecommendTone(outcome: Result<string, string>)
      requires isRecommendingTone
      modifies this`colorTone, this`error, this`isRecommendingTone
      ensures !isRecommendingTone
      ensures outcome.Ok? ==> colorTone == outcome.value && error == old(error)
      ensures outcome.Err? ==> colorTone == old(colorTone) && error == Some(ToneFailed)
    {
      match outcome {
        case Ok(tone) => colorTone := tone;
        case Err(_) => error := Some(ToneFailed);
      }
      isRecommendingTone := false;
    }

    /** `handleFullPromptChange`. */
    method ChangeFullPrompt(value: string)
      modifies this`generatedResult
      ensures generatedResult == EditFullPrompt(old(generatedResult), value)
    {
      generatedResult := EditFullPrompt(generatedResult, value);
    }

    /** `handleSceneCutChange`. */
    method ChangeSceneCut(field: CutField, value: string, index: int)
      modifies this`generatedResult
      ensures generatedResult == EditSceneCut(old(generatedResult), field, value, index)
    {
      generatedResult := EditSceneCut(generatedResult, field, value, index);
    }

    /** `handleCharacterChange`. */
    method ChangeCharacter(field: CharacterField, value: string, index: int)
      modifies this`generatedResult
      ensures generatedResult == EditCharacter(old(generatedResult), field, value, index)
    {
      generatedResult := EditCharacter(generatedResult, field, value, index);
    }

    /** `handleReset`: the inputs return to their defaults and the result,
      error, flags and tab are cleared; the history is kept. The Reset button
      is disabled while loading. */
    method Reset()
      requires Valid() && !isLoading
      modifies this`verse, this`language, this`videoLength, this`cutLength,
               this`style, this`era, this`country, this`colorTone,
               this`isRecommendingTone, this`generatedResult, this`isLoading,
               this`error, this`activeTab
      ensures Valid()
      ensures CurrentInputs() == DefaultInputs()
      ensures !isRecommendingTone && generatedResult.None? && !isLoading && error.None?
      ensures activeTab == Full
    {
      verse, language, videoLength, cutLength := "", Constants.DefaultLanguage, "", "";
      style, era, country, colorTone := Constants.DefaultStyle, Constants.DefaultEra, "", "";
      isRecommendingTone := false;
      generatedResult := None;
      isLoading := false;
      error := None;
      activeTab := Full;
    }

    /** `handleLoadHistoryItem`: the item's inputs and result replace the
      current ones, shown on the full-prompt tab with the panel closed and
      no error; the history is kept. */
    method LoadHistoryItem(item: HistoryItem)
      modifies this`verse, this`language, this`videoLength, this`cutLength,
               this`style, this`era, this`country, this`colorTone,
               this`generatedResult, this`activeTab, this`isHistoryOpen, this`error
      ensures CurrentInputs() == item.inputs
      ensures generatedResult == Some(item.generatedResult)
      ensures activeTab == Full && !isHistoryOpen && error.None?
    {
      verse, language := item.inputs.verse, item.inputs.language;
      videoLength, cutLength := item.inputs.videoLength, item.inputs.cutLength;
      style, era := item.inputs.style, item.inputs.era;
      country, colorTone := item.inputs.country, item.inputs.colorTone;
      generatedResult := Some(item.generatedResult);
      activeTab := Full;
      isHistoryOpen := false;
      error := None;
    }

    /** `handleDeleteHistoryItem`. */
    method DeleteHistoryItem(id: string)
      modifies this`history
      ensures history == RemoveId(old(history), id)
      ensures |history| <= |old(history)|
    {
      history := RemoveId(history, id);
    }

    /** `handleClearHistory`. */
    method ClearHistory()
      modifies this`history
      ensures history == []
    {
      history := [];
    }

    /** The tab buttons. */
    method SelectTab(tab: Tab)
      modifies this`activeTab
      ensures activeTab == tab
    {
      activeTab := tab;
    }

    /** The history button and the panel's close action. */
    method SetHistoryOpen(open: bool)
      modifies this`isHistoryOpen
      ensures isHistoryOpen == open
    {
      isHistoryOpen := open;
    }
  }

  /** A blank verse is refused without starting a request or touching the history. */
  method BlankVerseScenario()
  {
    var s := new PromptGenerator(None, _ => None);
    assert s.history == [];
    s.StartGenerate();
    assert s.error == Some(VerseRequired) && !s.isLoading && s.history == [];
  }

  /** One successful generation of "John 3:16" records exactly one entry for that verse. */
  method GenerationScenario(result: GeneratedResult, id: string, timestamp: int)
  {
    var s := new PromptGenerator(None, _ => None);
    s.SetInput(VerseField, "John 3:16");
    s.SetInput(LanguageField, "English");
    assert !IsWs(s.verse[0]);
    s.StartGenerate();
    assert s.isLoading && s.pending.value.language == "English";
    s.CompleteGenerateOk(result, id, timestamp);
    assert |s.history| == 1 && s.history[0].verse == "John 3:16";
    assert s.generatedResult == Some(result) && s.activeTab == Full;
  }
}
