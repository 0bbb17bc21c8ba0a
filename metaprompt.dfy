/** The instruction compiler: `getMetaPrompt` in services/geminiService.ts.
    The instruction is a fixed sequence of named pieces; the long fixed
    paragraphs are named constants (their wording is abridged here, and no
    property below depends on it), while every label a property mentions is
    spelled exactly as the service sends it. */
module MetaPrompt {
  import opened Text
  import opened Records

  /** `t` stands in `s` starting at index `k`. */
  predicate Occurs(t: string, s: string, k: nat) {
    k + |t| <= |s| && s[k..k + |t|] == t
  }

  /** `t` is how `s` ends. */
  predicate EndsWith(s: string, t: string) {
    |t| <= |s| && s[|s| - |t|..] == t
  }

  lemma OccursBetween(a: string, b: string, c: string)
    ensures Occurs(b, a + b + c, |a|)
  {
    assert (a + b + c)[|a|..|a| + |b|] == b;
  }

  // ---- the timing block -------------------------------------------------

  const TimingHeader := "\n*   **Timing and Pacing:**\n    "
  const LineIndent := "\n    "
  /** Every line of the timing block is a Markdown bullet. */
  const Bullet := "*   "
  const DurationLead := Bullet + "**Total Duration:** The full video should be approximately "
  const PacingLead := Bullet + "**Pacing/Cut Length:** Each scene in the breakdown should represent an average of "
  const Seconds := " seconds."

  /** The Total Duration line: present exactly when the trimmed length is
      non-empty, and then carrying the length as the user typed it. */
  function DurationLine(videoLength: string): (r: string)
    ensures r == "" <==> Blank(videoLength)
    ensures !Blank(videoLength) ==> DurationLead + videoLength <= r
  {
    if Blank(videoLength) then "" else DurationLead + videoLength + Seconds
  }

  /** The Pacing/Cut Length line, likewise conditional on its own input. */
  function PacingLine(cutLength: string): (r: string)
    ensures r == "" <==> Blank(cutLength)
    ensures !Blank(cutLength) ==> PacingLead + cutLength <= r
  {
    if Blank(cutLength) then "" else PacingLead + cutLength + Seconds
  }

  /** `timingInstructions`: emitted only when some timing hint is given. */
  function TimingBlock(videoLength: string, cutLength: string): (r: string)
    ensures r == "" <==> Blank(videoLength) && Blank(cutLength)
    ensures r != "" ==> TimingHeader <= r
  {
    if !Blank(videoLength) || !Blank(cutLength) then
      TimingHeader + DurationLine(videoLength) + (LineIndent + PacingLine(cutLength) + "\n")
    else ""
  }

  /** Inside a present timing block, each line occupies its own slot, and a
      slot holds its line's label exactly when that line's input is given. */
  lemma TimingLines(videoLength: string, cutLength: string)
    requires !Blank(videoLength) || !Blank(cutLength)
    ensures var r := TimingBlock(videoLength, cutLength);
      && (Occurs(DurationLead, r, |TimingHeader|) <==> !Blank(videoLength))
      && (!Blank(videoLength) ==> Occurs(videoLength, r, |TimingHeader| + |DurationLead|))
    ensures var r := TimingBlock(videoLength, cutLength);
      var k := |TimingHeader| + |DurationLine(videoLength)| + |LineIndent|;
      && (Occurs(PacingLead, r, k) <==> !Blank(cutLength))
      && (!Blank(cutLength) ==> Occurs(cutLength, r, k + |PacingLead|))
  {
    var d, p := DurationLine(videoLength), PacingLine(cutLength);
    DurationSlot(videoLength, LineIndent + p + "\n");
    PacingSlot(TimingHeader + d, cutLength);
  }

  lemma DurationSlot(videoLength: string, post: string)
    requires post != [] && post[0] == '\n'
    ensures var r := TimingHeader + DurationLine(videoLength) + post;
      && (Occurs(DurationLead, r, |TimingHeader|) <==> !Blank(videoLength))
      && (!Blank(videoLength) ==> Occurs(videoLength, r, |TimingHeader| + |DurationLead|))
  {
    assert DurationLead[0] == Bullet[0] == '*';
    LabelSlot(TimingHeader, DurationLine(videoLength), post, DurationLead, videoLength, Seconds);
  }

  lemma PacingSlot(pre: string, cutLength: string)
    ensures var r := pre + (LineIndent + PacingLine(cutLength) + "\n");
      var k := |pre| + |LineIndent|;
      && (Occurs(PacingLead, r, k) <==> !Blank(cutLength))
      && (!Blank(cutLength) ==> Occurs(cutLength, r, k + |PacingLead|))
  {
    var p := PacingLine(cutLength);
    assert PacingLead[0] == Bullet[0] == '*';
    assert pre + (LineIndent + p + "\n") == (pre + LineIndent) + p + "\n";
    LabelSlot(pre + LineIndent, p, "\n", PacingLead, cutLength, Seconds);
  }

  /** A slot that holds either nothing or a labelled line: the label is found
      there exactly when the line is present, provided what follows the slot
      does not itself start with the label. */
  lemma LabelSlot(pre: string, line: string, post: string, lead: string, v: string, tail: string)
    requires line == "" || line == lead + v + tail
    requires lead != [] && (post != [] ==> post[0] != lead[0])
    ensures Occurs(lead, pre + line + post, |pre|) <==> line != ""
    ensures line != "" ==> Occurs(v, pre + line + post, |pre| + |lead|)
  {
    var r := pre + line + post;
    if line == "" {
      if post != [] {
        assert r[|pre|] == post[0];
      }
    } else {
      assert r == pre + lead + (v + tail + post);
      OccursBetween(pre, lead, v + tail + post);
      assert r == (pre + lead) + v + (tail + post);
      OccursBetween(pre + lead, v, tail + post);
    }
  }

  // ---- the core visual parameters ---------------------------------------

  const StyleLead := "Visual Style='"
  const EraLead := "', Historical Era='"
  const CulturalLead := ", Cultural Context: '"
  const ColorLead := ", Color Grading: '"

  /** `countryInstruction`: present exactly when the trimmed country is
      non-empty, and then carrying the country as the user typed it. */
  function CountryFragment(country: string): (r: string)
    ensures r == "" <==> Blank(country)
    ensures !Blank(country) ==> CulturalLead + country <= r
  {
    if Blank(country) then "" else CulturalLead + country + "'"
  }

  /** `colorToneInstruction`, likewise conditional on the colour tone. */
  function ColorFragment(colorTone: string): (r: string)
    ensures r == "" <==> Blank(colorTone)
    ensures !Blank(colorTone) ==> ColorLead + colorTone <= r
  {
    if Blank(colorTone) then "" else ColorLead + colorTone + "'"
  }

  /** The mandatory style and era directives, quoted. */
  function VisualsHead(style: string, era: string): string {
    StyleLead + style + EraLead + era + "'"
  }

  /** `coreVisuals`: it always opens with the style and the era; right after
      them comes the cultural-context slot, which holds its label exactly
      when a country is given, and after that fragment the colour-grading
      slot, which holds its label exactly when a colour tone is given. */
  function CoreVisuals(p: Inputs): (r: string)
    ensures VisualsHead(p.style, p.era) <= r
    ensures var h := |VisualsHead(p.style, p.era)|;
      && (Occurs(CulturalLead, r, h) <==> !Blank(p.country))
      && (!Blank(p.country) ==> Occurs(p.country, r, h + |CulturalLead|))
    ensures var k := |VisualsHead(p.style, p.era)| + |CountryFragment(p.country)|;
      && (Occurs(ColorLead, r, k) <==> !Blank(p.colorTone))
      && (!Blank(p.colorTone) ==> Occurs(p.colorTone, r, k + |ColorLead|))
      && |r| == k + |ColorFragment(p.colorTone)|
  {
    var head := VisualsHead(p.style, p.era);
    var country := CountryFragment(p.country);
    var color := ColorFragment(p.colorTone);
    var r := head + country + color;
    CoreVisualsSlots(head, country, color, p.country, p.colorTone);
    r
  }

  lemma CoreVisualsSlots(head: string, country: string, color: string, c: string, t: string)
    requires country == CountryFragment(c) && color == ColorFragment(t)
    ensures head <= head + country + color
    ensures Occurs(CulturalLead, head + country + color, |head|) <==> !Blank(c)
    ensures Occurs(ColorLead, head + country + color, |head| + |country|) <==> !Blank(t)
  {
    var r := head + country + color;
    var h := |head|;
    assert r[..h] == head;
    if Blank(c) {
      if Blank(t) {
        assert |r| == h;
      } else {
        assert r[h..] == color;
        assert r[h + 3] == ColorLead[3] != CulturalLead[3];
      }
    } else {
      assert r == head + (CulturalLead + c + "'") + color;
      assert r[h..h + |CulturalLead|] == CulturalLead;
    }
    var k := h + |country|;
    if Blank(t) {
      assert |r| == k;
    } else {
      assert r == (head + country) + ColorLead + (t + "'");
      OccursBetween(head + country, ColorLead, t + "'");
    }
  }

  // ---- the whole instruction ----------------------------------------------

  const Opening := "\nYou are a world-class AI prompt engineer for text-to-video models … convert a Bible verse into a structured, cinematic video script.\n\n**Input Verse:** \""
  const OutputRequirementsLead := "\n\n**Output Requirements:**\nYou must generate a JSON object with three main properties: \"fullPrompt\", \"characters\", and \"sceneCuts\".\n\n1.  **fullPrompt:** … This prompt must incorporate these core creative choices: "
  const CutFieldsLead := ". This is the master prompt for the video.\n\n2.  **characters**: …\n\n3.  **sceneCuts:** …\n    *   `cutNumber`: …\n    *   `description`: "
  /** `sceneDescriptionInstruction` is the core visual parameters between these two. */
  const SceneDescriptionLead := "A detailed visual and cinematic plan for this specific scene. CRITICAL: … consistent with the following user-defined parameters: "
  const SceneDescriptionTail := ". Also describe the setting & action …, characters …, and core cinematography …."
  const LaterCutFields := "\n    *   `narration`: …\n    *   `backgroundMusic`: …\n    *   `soundEffects`: …\n    *   `dynamicElements`: "
  const DynamicElementsInstruction := "Describe specific, dynamic cinematic elements for this scene. …"
  const CreativeInstructions := "\n\n---\n**Comprehensive Creative Instructions (Apply to EACH scene):**\n\n…\n\n---\n**General Rules:**\n"
  const LanguageLead := "*   **Language:** All generated text MUST be in "

  /** The language rule every instruction ends its general rules with. */
  function LanguageRule(language: string): string {
    LanguageLead + language + "."
  }

  /** Where the core visual parameters start inside the fullPrompt
      requirement. */
  function FullPromptVisualsAt(p: Inputs): nat {
    |Opening| + |p.verse| + 1 + |OutputRequirementsLead|
  }

  /** Where they start again inside the scene description. */
  function SceneVisualsAt(p: Inputs): nat {
    FullPromptVisualsAt(p) + |CoreVisuals(p)| + |CutFieldsLead| + |SceneDescriptionLead|
  }

  /** `getMetaPrompt`: total, with no failure path. The verse appears
      verbatim between quotes right after the opening; the core visual
      parameters are spliced in twice, once into the fullPrompt requirement
      and once into the scene description; the instruction ends with the
      language rule followed by the (possibly empty) timing block. */
  function GetMetaPrompt(p: Inputs): (r: string)
    ensures Opening + p.verse + "\"" <= r
    ensures Occurs(CoreVisuals(p), r, FullPromptVisualsAt(p))
    ensures Occurs(CoreVisuals(p), r, SceneVisualsAt(p))
    ensures FullPromptVisualsAt(p) + |CoreVisuals(p)| <= SceneVisualsAt(p)
    ensures EndsWith(r, LanguageRule(p.language) + "\n" + TimingBlock(p.videoLength, p.cutLength) + "\n")
  {
    var cv := CoreVisuals(p);
    var quoted := Opening + p.verse + "\"";
    var head := quoted + OutputRequirementsLead;
    var middle := CutFieldsLead + SceneDescriptionLead;
    var rest := SceneDescriptionTail + LaterCutFields + DynamicElementsInstruction + CreativeInstructions;
    var tail := LanguageRule(p.language) + "\n" + TimingBlock(p.videoLength, p.cutLength) + "\n";
    var r := head + cv + middle + cv + rest + tail;
    MetaPromptLayout(head, cv, middle, rest, tail, quoted, FullPromptVisualsAt(p), SceneVisualsAt(p));
    r
  }

  lemma MetaPromptLayout(head: string, cv: string, middle: string, rest: string, tail: string, opening: string,
                         first: nat, second: nat)
    requires |opening| <= |head| && head[..|opening|] == opening
    requires first == |head| && second == |head| + |cv| + |middle|
    ensures var r := head + cv + middle + cv + rest + tail;
      && opening <= r
      && Occurs(cv, r, first)
      && Occurs(cv, r, second)
      && EndsWith(r, tail)
  {
    var r := head + cv + middle + cv + rest + tail;
    assert r == head + cv + (middle + cv + rest + tail);
    OccursBetween(head, cv, middle + cv + rest + tail);
    assert r == (head + cv + middle) + cv + (rest + tail);
    OccursBetween(head + cv + middle, cv, rest + tail);
    assert r[|r| - |tail|..] == tail;
    assert r[..|opening|] == head[..|opening|];
  }
}
