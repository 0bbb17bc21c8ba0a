/** The enumerated parameter domains offered by the form's select boxes
    (constants.ts), and the session defaults chosen from them. */
module Constants {

  /** One `<option>`: the value stored in the session and the caption shown (`label` in the source). */
  datatype SelectOption = SelectOption(value: string, caption: string)

  /** The options of a select box, pairing each value with the caption at the same position. */
  function Options(values: seq<string>, captions: seq<string>): (r: seq<SelectOption>)
    requires |values| == |captions|
    ensures |r| == |values|
    ensures forall i :: 0 <= i < |r| ==> r[i].value == values[i] && r[i].caption == captions[i]
  {
    seq(|values|, i requires 0 <= i < |values| => SelectOption(values[i], captions[i]))
  }

  const LanguageValues: seq<string> := [
    "Korean",
    "English",
    "Spanish",
    "French",
    "German",
    "Japanese",
    "Chinese",
    "Russian",
    "Arabic"
  ]
  const LanguageCaptions: seq<string> := [
    "한국어 (Korean)",
    "English",
    "Español (Spanish)",
    "Français (French)",
    "Deutsch (German)",
    "日本語 (Japanese)",
    "中文 (Chinese)",
    "Русский (Russian)",
    "العربية (Arabic)"
  ]
  const Languages: seq<SelectOption> := Options(LanguageValues, LanguageCaptions)

  const VisualStyleValues: seq<string> := [
    "Cinematic Realism",
    "Epic Animation",
    "Painterly Style",
    "Documentary Style",
    "Vintage Film Look",
    "Science Fiction",
    "Fantasy Art"
  ]
  const VisualStyleCaptions: seq<string> := [
    "영화적 사실주의 (Cinematic Realism)",
    "에픽 애니메이션 (Epic Animation)",
    "회화적 스타일 (Painterly Style)",
    "다큐멘터리 스타일 (Documentary Style)",
    "빈티지 필름룩 (Vintage Film Look)",
    "공상 과학 (Science Fiction)",
    "판타지 아트 (Fantasy Art)"
  ]
  const VisualStyles: seq<SelectOption> := Options(VisualStyleValues, VisualStyleCaptions)

  const HistoricalEraValues: seq<string> := [
    "Filmmaker's Interpretation",
    "Primeval History (e.g., Creation, Flood)",
    "Patriarchal Era (e.g., Abraham, Moses)",
    "Old Testament Kingdom Era (e.g., David, Solomon)",
    "Second Temple & Roman Empire (New Testament)",
    "Early Church & Byzantine Era",
    "Medieval European Setting",
    "Renaissance & Reformation Era",
    "Victorian Era Setting",
    "Modern Day Reinterpretation",
    "Near Future Sci-Fi",
    "Dystopian / Cyberpunk Future"
  ]
  const HistoricalEraCaptions: seq<string> := [
    "감독의 창의적 해석 (Filmmaker's Interpretation)",
    "태초 시대 (창조, 홍수 등)",
    "족장 시대 (아브라함, 모세 등)",
    "구약 왕국 시대 (다윗, 솔로몬 등)",
    "신약 시대 (제2성전, 로마 제국)",
    "초대 교회 및 비잔틴 시대",
    "중세 유럽 배경",
    "르네상스 및 종교개혁 시대",
    "빅토리아 시대 배경",
    "현대적 재해석",
    "가까운 미래 (SF)",
    "디스토피아 / 사이버펑크 미래"
  ]
  const HistoricalEras: seq<SelectOption> := Options(HistoricalEraValues, HistoricalEraCaptions)

  /** The defaults the session starts from and returns to on reset. */
  const DefaultLanguage := "Korean"
  const DefaultStyle := "Cinematic Realism"
  const DefaultEra := "Filmmaker's Interpretation"

  /** Option values serve as React keys, so no two may coincide. */
  predicate DistinctValues(opts: seq<SelectOption>) {
    forall i, j :: 0 <= i < j < |opts| ==> opts[i].value != opts[j].value
  }

  /** Every option has something to store and something to show. */
  predicate NonEmptyEntries(opts: seq<SelectOption>) {
    forall i :: 0 <= i < |opts| ==> opts[i].value != "" && opts[i].caption != ""
  }

  /** `v` can be chosen from the select box built from `opts`. */
  predicate Offers(opts: seq<SelectOption>, v: string) {
    exists i :: 0 <= i < |opts| && opts[i].value == v
  }

  /** No two strings of `xs` coincide. */
  predicate Distinct(xs: seq<string>) {
    forall i, j :: 0 <= i < j < |xs| ==> xs[i] != xs[j]
  }

  /** A select box built from distinct non-empty values and non-empty captions is well formed. */
  lemma OptionsWellFormed(values: seq<string>, captions: seq<string>)
    requires |values| == |captions| && Distinct(values)
    requires forall i :: 0 <= i < |values| ==> values[i] != "" && captions[i] != ""
    ensures DistinctValues(Options(values, captions)) && NonEmptyEntries(Options(values, captions))
  {
  }

  lemma LanguagesWellFormed()
    ensures |Languages| == 9
    ensures DistinctValues(Languages) && NonEmptyEntries(Languages)
  {
    OptionsWellFormed(LanguageValues, LanguageCaptions);
  }

  lemma VisualStylesWellFormed()
    ensures |VisualStyles| == 7
    ensures DistinctValues(VisualStyles) && NonEmptyEntries(VisualStyles)
  {
    OptionsWellFormed(VisualStyleValues, VisualStyleCaptions);
  }

  lemma HistoricalErasWellFormed()
    ensures |HistoricalEras| == 12
    ensures DistinctValues(HistoricalEras) && NonEmptyEntries(HistoricalEras)
  {
    OptionsWellFormed(HistoricalEraValues, HistoricalEraCaptions);
  }

  /** The session defaults are options of their select boxes. */
  lemma DefaultsOffered()
    ensures Offers(Languages, DefaultLanguage)
    ensures Offers(VisualStyles, DefaultStyle)
    ensures Offers(HistoricalEras, DefaultEra)
  {
    assert Languages[0].value == DefaultLanguage;
    assert VisualStyles[0].value == DefaultStyle;
    assert HistoricalEras[0].value == DefaultEra;
  }
}
