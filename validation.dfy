/** The checks `generateVideoPrompt` and `generateColorToneRecommendation`
    (services/geminiService.ts) apply to what the text-generation service
    returns. The service call itself and `JSON.parse` are parameters. */
module Validation {
  import opened Wrappers
  import opened Text
  import opened Records
  import MetaPrompt

  /** A parsed JSON value, one constructor per value kind of section 3 of
      RFC 8259 (numbers restricted to integers). */
  datatype Json =
    | Null
    | Bool(b: bool)
    | Number(n: int)
    | Str(s: string)
    | Array(elems: seq<Json>)
    | Object(members: map<string, Json>)

  /** `v[key]` on a value that is not null: the member of an object, and
      `undefined` (None) for a missing key or any other kind of value. */
  function Member(v: Json, key: string): Option<Json> {
    if v.Object? && key in v.members then Some(v.members[key]) else None
  }

  /** JavaScript truthiness: `undefined`, null, false, 0 and "" are falsy. */
  predicate Truthy(v: Option<Json>) {
    match v
    case None => false
    case Some(Null) => false
    case Some(Bool(b)) => b
    case Some(Number(n)) => n != 0
    case Some(Str(s)) => s != ""
    case Some(_) => true
  }

  /** `Array.isArray` of a possibly-undefined value. */
  predicate IsArray(v: Option<Json>) {
    v.Some? && v.value.Array?
  }

  /** The one message every failed generation is reported with. */
  const GenerateFailure := "Failed to generate video prompt."

  /** The one message every failed tone recommendation is reported with. */
  const ToneFailure := "Failed to generate color tone recommendation."

  /** The shape the service's answer must have to be accepted: an object
      with a truthy `fullPrompt` (of any kind), arrays `characters` and
      `sceneCuts`, and, when there are scene cuts, a first cut that is an
      object carrying `dynamicElements`. Nothing else is looked at. */
  predicate WellShaped(v: Json) {
    && v.Object?
    && Truthy(Member(v, "fullPrompt"))
    && IsArray(Member(v, "characters"))
    && IsArray(Member(v, "sceneCuts"))
    && var cuts := Member(v, "sceneCuts").value.elems;
       cuts == [] || Member(cuts[0], "dynamicElements").Some?
  }

  /** The validation steps of `generateVideoPrompt`, in the source's order.
      Every thrown error, including the TypeError of reading a member of
      null, ends in the single message of the catch block. */
  function ValidateResponse(text: Option<string>, parse: string -> Option<Json>): (r: Result<Json, string>)
    ensures r.Ok? <==> && text.Some? && text.value != ""
                       && parse(text.value).Some? && WellShaped(parse(text.value).value)
    ensures r.Ok? ==> r.value == parse(text.value).value
    ensures r.Err? ==> r.error == GenerateFailure
  {
    if text.None? || text.value == "" then Err(GenerateFailure)
    else match parse(text.value)
      case None => Err(GenerateFailure)
      case Some(v) =>
        if v.Null? then Err(GenerateFailure)
        else if !Truthy(Member(v, "fullPrompt"))
             || !IsArray(Member(v, "characters"))
             || !IsArray(Member(v, "sceneCuts")) then Err(GenerateFailure)
        else
          var cuts := Member(v, "sceneCuts").value.elems;
          if |cuts| > 0 && cuts[0].Null? then Err(GenerateFailure)
          else if |cuts| > 0 && Member(cuts[0], "dynamicElements").None? then Err(GenerateFailure)
          else Ok(v)
  }

  /** `generateVideoPrompt` end to end: the service receives exactly the
      compiled instruction, and only a well-shaped parse of its answer is
      returned, unchanged. */
  function GenerateVideoPrompt(p: Inputs, service: string -> Option<string>, parse: string -> Option<Json>)
    : (r: Result<Json, string>)
    ensures r.Ok? ==> var text := service(MetaPrompt.GetMetaPrompt(p));
      text.Some? && parse(text.value) == Some(r.value) && WellShaped(r.value)
    ensures r.Err? ==> r.error == GenerateFailure
    ensures var text := service(MetaPrompt.GetMetaPrompt(p));
      r.Ok? <==> text.Some? && text.value != "" && parse(text.value).Some? && WellShaped(parse(text.value).value)
  {
    ValidateResponse(service(MetaPrompt.GetMetaPrompt(p)), parse)
  }

  /** The elements of `characters` and every scene cut after the first are
      never inspected: replacing them leaves the verdict as it was. */
  lemma {:induction false} ShallowCheck(v: Json, characters: seq<Json>, later: seq<Json>)
    requires v.Object? && IsArray(Member(v, "characters")) && IsArray(Member(v, "sceneCuts"))
    requires Member(v, "sceneCuts").value.elems != []
    ensures var first := Member(v, "sceneCuts").value.elems[0];
      var w := Object(v.members["characters" := Array(characters)]["sceneCuts" := Array([first] + later)]);
      WellShaped(w) == WellShaped(v)
  {
    var first := Member(v, "sceneCuts").value.elems[0];
    var w := Object(v.members["characters" := Array(characters)]["sceneCuts" := Array([first] + later)]);
    assert "fullPrompt" != "characters" && "fullPrompt" != "sceneCuts";
    assert Member(w, "fullPrompt") == Member(v, "fullPrompt");
    assert Member(w, "sceneCuts").value.elems[0] == first;
  }

  /** A concrete answer the shallow check lets through: a non-string but
      truthy `fullPrompt`, a null character, a first cut with nothing but an
      empty `dynamicElements`, and a null second cut. */
  lemma ShallowAcceptance(text: string, parse: string -> Option<Json>)
    requires text != ""
    requires parse(text) == Some(Object(map[
      "fullPrompt" := Bool(true),
      "characters" := Array([Null]),
      "sceneCuts" := Array([Object(map["dynamicElements" := Str("")]), Null])]))
    ensures ValidateResponse(Some(text), parse) == Ok(parse(text).value)
  {
    var v := parse(text).value;
    assert Member(v, "fullPrompt") == Some(Bool(true));
    assert Member(v, "characters") == Some(Array([Null]));
    assert Member(v, "sceneCuts").value.elems[0] == Object(map["dynamicElements" := Str("")]);
  }

  /** `response.text.trim()` and its emptiness check: an absent text (the
      TypeError of calling `trim` on undefined) and a blank text both fail;
      otherwise the trimmed text is the recommendation. */
  function RecommendedTone(text: Option<string>): (r: Result<string, string>)
    ensures r.Ok? <==> text.Some? && !Blank(text.value)
    ensures r.Ok? ==> && r.value == Trim(text.value) && r.value != ""
                      && !IsWs(r.value[0]) && !IsWs(r.value[|r.value| - 1])
    ensures r.Err? ==> r.error == ToneFailure
  {
    if text.None? then Err(ToneFailure)
    else
      var t := Trim(text.value);
      if t == "" then Err(ToneFailure) else Ok(t)
  }

  const ToneInstruction := "Based on the mood, themes, and content of the following Bible verse, suggest a single, creative, and highly descriptive color tone for a cinematic video. … Provide only the name of the color tone and artistic style, and nothing else.\n\nBible Verse: \""
  const ToneExamples := "\"\n\nExample outputs:\n…\n\nSuggested Color Tone & Style:"

  /** The tone request: the verse, verbatim and quoted, inside fixed prose. */
  function TonePrompt(verse: string): (r: string)
    ensures MetaPrompt.Occurs(verse, r, |ToneInstruction|)
  {
    MetaPrompt.OccursBetween(ToneInstruction, verse, ToneExamples);
    ToneInstruction + verse + ToneExamples
  }

  /** `generateColorToneRecommendation` end to end. */
  function GenerateColorToneRecommendation(verse: string, service: string -> Option<string>)
    : (r: Result<string, string>)
    ensures r.Ok? ==> var text := service(TonePrompt(verse));
      text.Some? && r.value == Trim(text.value) && r.value != ""
    ensures r.Err? ==> r.error == ToneFailure
    ensures var text := service(TonePrompt(verse));
      r.Ok? <==> text.Some? && !Blank(text.value)
  {
    RecommendedTone(service(TonePrompt(verse)))
  }
}
