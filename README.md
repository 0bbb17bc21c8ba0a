# Bible-verse video prompt generator — a Dafny model of its core

The application turns a Bible verse and a handful of creative choices into a
structured, editable cinematic video script. Its logic lives in three places,
and each is modelled here:

- **The instruction compiler** (`getMetaPrompt`, `metaprompt.dfy`): a pure
  string template over the eight form inputs. The optional fragments (cultural
  context, colour grading, and the two lines of the timing block) appear
  exactly when their input is non-blank after `trim`, and they carry the
  untrimmed input. The instruction always holds the verse in quotes, the
  style/era directives (twice), and the language rule.
- **The response checks** (`generateVideoPrompt`,
  `generateColorToneRecommendation`; `validation.dfy`): a shallow shape check
  of the parsed service answer over a JSON value type. It uses JavaScript
  truthiness and funnels every failure into one message. The tone check
  trims the text and rejects a blank one.
- **The session** (`PromptGenerator`; `session.dfy`, with the pure updates in
  `edits.dfy` and `history.dfy`): a class whose fields are the component's
  state hooks. Each handler is a method that may change only the fields it
  names. A generation is split into a start step, which captures the eight
  inputs, and a completion step, which records the result in a history
  capped at 50 entries, newest first.

`constants.dfy` holds the select-box domains, and `text.dfy` holds
ECMAScript's `trim` over its exact whitespace set. The service call,
`JSON.parse` and the storage slot are function parameters. Clock-derived ids
and timestamps are method parameters.

The model keeps these behaviours of the code:

- Every failure of a request surfaces as one fixed message.
- Only the first scene cut is checked, and only for `dynamicElements`.
- `fullPrompt` may be any truthy value, not only a string.
- An edit at an out-of-range index changes nothing; it does not fail.
- Deleting by id removes every entry with that id.

## Model

| member | source | states |
|---|---|---|
| Text.Trim | services/geminiService.ts:33-40 | `s.trim()` is the infix left after removing a blank prefix and a blank suffix; it is empty exactly when `s` is blank, and otherwise neither starts nor ends with whitespace |
| Text.TrimUnchanged | services/geminiService.ts:176-180 | a text with no surrounding whitespace is its own trim |
| Constants.LanguagesWellFormed | constants.ts:1-11 | 9 languages, pairwise-distinct values (used as option keys), no empty value or label |
| Constants.VisualStylesWellFormed | constants.ts:13-21 | 7 styles, pairwise-distinct values, no empty value or label |
| Constants.HistoricalErasWellFormed | constants.ts:23-36 | 12 eras, pairwise-distinct values, no empty value or label |
| Constants.DefaultsOffered | constants.ts:1-36 | 'Korean', 'Cinematic Realism' and "Filmmaker's Interpretation" are options of their lists |
| Session.DefaultInputs | components/PromptGenerator.tsx:70-77 | the initial and reset inputs pick offered options and leave every free-text field empty |
| MetaPrompt.DurationLine | services/geminiService.ts:35 | the Total Duration line is empty iff the trimmed length is empty, else starts with its label followed by the untrimmed length |
| MetaPrompt.PacingLine | services/geminiService.ts:36 | the Pacing line is empty iff the trimmed cut length is empty, else starts with its label followed by the untrimmed cut length |
| MetaPrompt.TimingBlock | services/geminiService.ts:33-37 | the timing block is empty iff both timing inputs are blank; otherwise it opens with the Timing and Pacing header |
| MetaPrompt.TimingLines | services/geminiService.ts:33-37 | inside a present block, the duration slot holds its label iff the length is given (then followed by the untrimmed length), and the pacing slot likewise for the cut length |
| MetaPrompt.CountryFragment | services/geminiService.ts:39 | the Cultural Context fragment is `""` iff the country is blank, else carries the untrimmed country after its label |
| MetaPrompt.ColorFragment | services/geminiService.ts:40 | the Color Grading fragment is `""` iff the colour tone is blank, else carries the untrimmed tone after its label |
| MetaPrompt.CoreVisuals | services/geminiService.ts:39-42 | always starts with the quoted style and era; the next slot holds the Cultural Context label iff a country is given, followed by the untrimmed country; the slot after that fragment holds the Color Grading label iff a tone is given, followed by the untrimmed tone |
| MetaPrompt.GetMetaPrompt | services/geminiService.ts:32-84 | total; the verse appears verbatim in quotes after the opening; the core visuals occur twice, in the fullPrompt requirement and in the scene description; the text ends with `All generated text MUST be in <language>.` followed by the timing block |
| Validation.ValidateResponse | services/geminiService.ts:131-152 | accepted iff the text is present and non-empty, parses, and the value is an object with a truthy `fullPrompt`, array `characters` and `sceneCuts`, and a first cut (if any) that is an object holding `dynamicElements`; accepted values are returned unchanged; every failure carries "Failed to generate video prompt." |
| Validation.GenerateVideoPrompt | services/geminiService.ts:86-153 | the service receives the compiled instruction; it succeeds iff the answer is present, non-empty, parses and is well shaped, and then returns that parse; every failure carries the single message |
| Validation.ShallowCheck | services/geminiService.ts:139-147 | replacing the characters' elements or any scene cut after the first never changes the verdict |
| Validation.ShallowAcceptance | services/geminiService.ts:139-147 | an answer with a truthy non-string `fullPrompt`, a null character, a first cut holding only an empty `dynamicElements` and a null second cut is accepted |
| Validation.RecommendedTone | services/geminiService.ts:176-185 | a tone is returned iff the text is present and not blank; it is the trimmed text, non-empty and without surrounding whitespace; every failure carries one fixed message |
| Validation.TonePrompt | services/geminiService.ts:157-169 | the tone request holds the verse verbatim right after its fixed lead |
| Validation.GenerateColorToneRecommendation | services/geminiService.ts:155-186 | it succeeds iff the answer to the tone request is present and not blank, and then returns its trim, which is non-empty; every failure carries the single message |
| Edits.WithCutField | components/PromptGenerator.tsx:196 | the named editable field takes the value; the other editable fields, `cutNumber` and `description` keep theirs |
| Edits.EditSceneCuts | components/PromptGenerator.tsx:194-199 | same length; every cut other than `index` is unchanged; the cut at `index` changes only the named field; an out-of-range index leaves the cuts equal |
| Edits.WithCharacterField | components/PromptGenerator.tsx:216 | the named field takes the value, the other keeps its own |
| Edits.EditCharacters | components/PromptGenerator.tsx:214-219 | same length; only the character at `index` changes, and only in the named field; an out-of-range index changes nothing |
| Edits.EditFullPrompt | components/PromptGenerator.tsx:178-185 | no result stays no result; otherwise only `fullPrompt` changes |
| Edits.EditSceneCut | components/PromptGenerator.tsx:187-205 | no result stays no result; otherwise `fullPrompt` and `characters` are kept and only the scene cuts are edited |
| Edits.EditCharacter | components/PromptGenerator.tsx:207-225 | no result stays no result; otherwise `fullPrompt` and `sceneCuts` are kept and only the characters are edited |
| Edits.CharacterCopyText | components/PromptGenerator.tsx:172 | the copied text is the name and the description joined by a blank line |
| Edits.CutCopyText | components/PromptGenerator.tsx:516 | the copied text is the cut number, the description, and the headed dynamic elements, music, effects and narration blocks, in that order, joined by blank lines |
| History.Prepend | components/PromptGenerator.tsx:129 | the new item is first, followed by the older entries in order; the length is min(50, old length + 1) |
| History.PrependAllKeepsNewest | components/PromptGenerator.tsx:129 | recording several items onto a history within the cap yields the first 50 of (items newest first, then the old history) |
| History.FiftyOneRecorded | components/PromptGenerator.tsx:129 | recording 51 items onto an empty history leaves exactly the last 50, most recent first |
| History.RemoveId | components/PromptGenerator.tsx:262 | the result holds exactly the entries whose id differs, is no longer than the history, and equals it when the id is absent |
| History.RemoveIdConcat | components/PromptGenerator.tsx:262 | filtering distributes over concatenation, so the kept entries keep their relative order |
| History.LoadHistory | components/PromptGenerator.tsx:89-99 | an absent or empty slot, or one that does not parse, gives the empty history; otherwise the parsed history is used as it is |
| Session.PromptGenerator.constructor | components/PromptGenerator.tsx:69-99 | default inputs, no result, nothing loading, no error, full tab, panel closed, history loaded from storage |
| Session.PromptGenerator.SetInput | components/PromptGenerator.tsx:292-398 | a field setter changes that one input and nothing else |
| Session.PromptGenerator.StartGenerate | components/PromptGenerator.tsx:109-116 | a blank verse only sets the validation error; otherwise loading starts, error and result are cleared, and the eight inputs are captured |
| Session.PromptGenerator.CompleteGenerateOk | components/PromptGenerator.tsx:117-136 | the result is shown on the full tab; the history becomes Prepend of an item built from the captured inputs, so it holds at most 50 entries with the new one first; loading ends |
| Session.PromptGenerator.CompleteGenerateErr | components/PromptGenerator.tsx:131-136 | the failure message is set and loading ends; history and result are untouched |
| Session.PromptGenerator.StartRecommendTone | components/PromptGenerator.tsx:139-145 | a blank verse only sets the validation error; otherwise the request starts and the error is cleared |
| Session.PromptGenerator.CompleteRecommendTone | components/PromptGenerator.tsx:146-154 | a recommendation becomes the colour tone; a failure sets the error and keeps the tone; the in-flight flag drops |
| Session.PromptGenerator.ChangeFullPrompt | components/PromptGenerator.tsx:178-185 | the result becomes EditFullPrompt of the old one; nothing else changes |
| Session.PromptGenerator.ChangeSceneCut | components/PromptGenerator.tsx:187-205 | the result becomes EditSceneCut of the old one; nothing else changes |
| Session.PromptGenerator.ChangeCharacter | components/PromptGenerator.tsx:207-225 | the result becomes EditCharacter of the old one; nothing else changes |
| Session.PromptGenerator.Reset | components/PromptGenerator.tsx:227-244 | inputs return to the defaults; result, error, flags and tab are cleared; history is kept |
| Session.PromptGenerator.LoadHistoryItem | components/PromptGenerator.tsx:246-259 | the item's inputs and result replace the current ones, on the full tab with the panel closed and no error; history is kept |
| Session.PromptGenerator.DeleteHistoryItem | components/PromptGenerator.tsx:261-263 | the history becomes RemoveId of the old one and never grows |
| Session.PromptGenerator.ClearHistory | components/PromptGenerator.tsx:265-267 | the history becomes empty |
| Session.PromptGenerator.SelectTab | components/PromptGenerator.tsx:441-448 | the chosen tab becomes active |
| Session.PromptGenerator.SetHistoryOpen | components/PromptGenerator.tsx:278 | opens or closes the history panel |

## Left out

- Rendering: the JSX of components/PromptGenerator.tsx (269-583), the icon components, HistoryPanel.tsx, Header.tsx, App.tsx and LoadingSpinner.tsx. The only logic there is the buttons' `disabled` conditions, which are the methods' preconditions.
- The Gemini client, the `API_KEY` check and the network calls are left out. The service is a function parameter from request text to optional answer text. The `responseSchema` is a request hint to the remote service and is never checked locally.
- `JSON.parse` is a parameter from text to an optional value. JSON numbers are integers only, so fractional numbers and NaN are not modelled. `Validation.Member` does not model inherited prototype properties.
- The validated JSON value is not projected into `GeneratedResult`. The source only casts it through its TypeScript type, while the session stores typed records. A result whose elements lack fields therefore cannot be represented in the session.
- Writing the history to `localStorage` after every change (101-107) is not modelled, and neither is the failure of that write. A history read from storage is not validated and is not capped until the next generation.
- History.LoadHistory: `parse` yields a list of history items or nothing, so a stored text that parses to some other JSON value is not representable. The component would adopt such a value as its history; `"null"` is an example.
- The clipboard writes, the copy-feedback flags (`fullPromptCopySuccess`, `copiedCutIndex`, `copiedCharacterIndex`), their timers and their resets in `handleReset` are not modelled. The copied texts themselves are modelled.
- Interleavings of in-flight requests are not modelled. In particular, a tone recommendation that completes after a reset is excluded, because `CompleteRecommendTone` requires the in-flight flag that reset clears.
- `console.error` logging is not modelled.
- The ids and timestamps taken from the clock are parameters.
- The long fixed paragraphs of the two instructions are abridged in their named constants. The labels that properties mention are exact.
- Session.PromptGenerator.StartRecommendTone: only the `isRecommendingTone` half of the button's disabled condition (402) is a precondition. The blank-verse half is kept as the handler's own error path, which the handler implements.
- History.PrependAllKeepsNewest: requires the starting history to be within the cap, because a longer history loaded from storage is only truncated by the next generation.
