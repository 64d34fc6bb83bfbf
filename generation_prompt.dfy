/** The text the generator sends and shows: the fixed style lookup, the
    background phrase, the three prompt templates, the retry schedule of the
    AI call and the mapping from an error's message to what the user reads. */
module GenerationPrompt {
  import opened Text
  import opened WizardForm

  const FigureStudy: string := "Figure Study"
  const ClassicalArt: string := "Classical Art"
  const Renaissance: string := "Renaissance"
  const Artistic: string := "Artistic"

  const FigureStudyDescription: string := "classical figure study in the style of renaissance masters"
  const ClassicalArtDescription: string := "classical art inspired attire"
  const RenaissanceDescription: string := "renaissance period inspired clothing"
  const ArtisticDescription: string := "elegant artistic attire"

  const FigureStudyExtra: string :=
    ("fine art photography, classical artistic composition, renaissance " + "painting style, museum quality lighting, artistic portrait "
     + "photography, elegant and sophisticated, professional art photography, " + "timeless classical art, academic figure study")
  const ClassicalArtExtra: string := "in the style of classical paintings, elegant and refined"
  const RenaissanceExtra: string := "renaissance art style, classical and elegant"

  /** One of the four styles with fixed wording. */
  predicate NamedStyle(style: string)
  {
    style in {FigureStudy, ClassicalArt, Renaissance, Artistic}
  }

  /** The clothing phrase for a fashion style: four styles have fixed wording,
      any other is named as "<style> style clothing". */
  function StyleDescription(style: string): string
  {
    if style == FigureStudy then FigureStudyDescription
    else if style == ClassicalArt then ClassicalArtDescription
    else if style == Renaissance then RenaissanceDescription
    else if style == Artistic then ArtisticDescription
    else style + " style clothing"
  }

  /** The clothing phrase is never empty and tells the chosen style apart:
      two styles outside the four named ones get the same phrase only when
      they are the same style, and the four named styles get four different phrases. */
  lemma StyleDescriptionIdentifiesStyle(a: string, b: string)
    ensures StyleDescription(a) != ""
    ensures (!NamedStyle(a) && !NamedStyle(b) && StyleDescription(a) == StyleDescription(b)) ==> a == b
    ensures (NamedStyle(a) && NamedStyle(b) && StyleDescription(a) == StyleDescription(b)) ==> a == b
  {
    var suffix := " style clothing";
    if !NamedStyle(a) && !NamedStyle(b) && StyleDescription(a) == StyleDescription(b) {
      assert |a| == |b|;
      assert a == (a + suffix)[..|a|];
      assert b == (b + suffix)[..|b|];
    }
  }

  /** The text appended at the end of the first prompt. */
  function AdditionalPrompt(style: string): string
  {
    if style == FigureStudy then FigureStudyExtra
    else if style == ClassicalArt then ClassicalArtExtra
    else if style == Renaissance then RenaissanceExtra
    else ""
  }

  /** The lookup is fixed: extra text exactly for the three classical styles,
      and the generic phrase for every style outside the four named ones. */
  lemma StyleLookup(style: string)
    ensures AdditionalPrompt(style) != "" <==> style in {FigureStudy, ClassicalArt, Renaissance}
    ensures !NamedStyle(style) ==> StyleDescription(style) == style + " style clothing"
  {
  }

  /** The background phrase: the bare background unless the trimmed custom
      prompt is non-empty, in which case that text follows it. */
  function BackgroundDescription(background: string, customPrompt: string): string
  {
    if Trim(customPrompt) != "" then background + " background with " + Trim(customPrompt)
    else background
  }

  /** The custom prompt changes the background phrase exactly when it holds a
      non-space character, and then it is the background followed by the trimmed text. */
  lemma BackgroundUsesCustomPrompt(background: string, customPrompt: string)
    ensures BackgroundDescription(background, customPrompt) == background <==> AllSpace(customPrompt)
    ensures !AllSpace(customPrompt) ==>
      StartsWith(BackgroundDescription(background, customPrompt), background) &&
      Contains(BackgroundDescription(background, customPrompt), Trim(customPrompt))
  {
    TrimEmptyIff(customPrompt);
    var t := Trim(customPrompt);
    if t != "" {
      var d := background + " background with " + t;
      assert |d| > |background|;
      assert d[..|background|] == background;
      ContainsAtFront(t, "");
      assert t + "" == t;
      ContainsAfter(background + " background with ", t, t);
    }
  }

  function Setting(f: FormData): string
  {
    BackgroundDescription(f.background, f.customPrompt)
  }

  /** The sentence shape shared by every prompt. */
  function Portrait(gender: string, ethnicity: string, styleClause: string, setting: string, closing: string): string
  {
    "Create a professional portrait of a " + (gender + (" model with " + (ethnicity + (" ethnicity, "
    + (styleClause + (", in a " + (setting + (" setting. " + closing))))))))
  }

  const PrimaryClosing: string :=
    ("Maintain the original facial features and structure while " + "applying the requested style. High quality, photorealistic, "
     + "professional studio lighting. ")
  const SaferStyle: string := "in the style of classical renaissance art"
  const SaferClosing: string :=
    ("Academic figure study, fine art photography, classical " + "artistic composition, museum quality lighting, elegant and "
     + "sophisticated, professional art photography, timeless artistic " + "portrait")
  const FinalStyle: string := "in classical art style"
  const FinalClosing: string :=
    ("Fine art portrait, elegant composition, professional " + "photography, artistic lighting, sophisticated and tasteful")

  /** The prompt of the first AI call. */
  function PrimaryPrompt(f: FormData): string
  {
    Portrait(f.gender, f.ethnicity, StyleDescription(f.fashionStyle), Setting(f),
             PrimaryClosing + AdditionalPrompt(f.fashionStyle))
  }

  /** The prompt of the second attempt for Figure Study. */
  function SaferPrompt(f: FormData): string
  {
    Portrait(f.gender, f.ethnicity, SaferStyle, Setting(f), SaferClosing)
  }

  /** The prompt of the third and last attempt for Figure Study. */
  function FinalPrompt(f: FormData): string
  {
    Portrait(f.gender, f.ethnicity, FinalStyle, Setting(f), FinalClosing)
  }

  /** How many AI calls one submission may make. */
  function MaxAttempts(style: string): (n: nat)
    ensures n == 3 || n == 1
  {
    if style == FigureStudy then 3 else 1
  }

  /** The prompts of the successive AI calls, in the order they are tried. */
  function AttemptPrompts(f: FormData): (ps: seq<string>)
    ensures |ps| == MaxAttempts(f.fashionStyle)
    ensures ps[0] == PrimaryPrompt(f)
  {
    if f.fashionStyle == FigureStudy then [PrimaryPrompt(f), SaferPrompt(f), FinalPrompt(f)]
    else [PrimaryPrompt(f)]
  }

  /** Only Figure Study is retried, and it gets three attempts in all. */
  lemma RetryPolicy(f: FormData)
    ensures |AttemptPrompts(f)| > 1 <==> f.fashionStyle == FigureStudy
    ensures |AttemptPrompts(f)| <= 3
  {
  }

  /** A portrait prompt names its gender, ethnicity, style clause and setting. */
  lemma PortraitMentions(gender: string, ethnicity: string, styleClause: string, setting: string, closing: string)
    ensures var p := Portrait(gender, ethnicity, styleClause, setting, closing);
      Contains(p, gender) && Contains(p, ethnicity) && Contains(p, styleClause) && Contains(p, setting)
  {
    var r4 := setting + (" setting. " + closing);
    var r3 := styleClause + (", in a " + r4);
    var r2 := ethnicity + (" ethnicity, " + r3);
    var r1 := gender + (" model with " + r2);
    var head := "Create a professional portrait of a ";
    ContainsAtFront(setting, " setting. " + closing);
    ContainsAfter(", in a ", r4, setting);
    ContainsAtFront(styleClause, ", in a " + r4);
    ContainsAfter(styleClause, ", in a " + r4, setting);
    ContainsAfter(" ethnicity, ", r3, setting);
    ContainsAfter(" ethnicity, ", r3, styleClause);
    ContainsAtFront(ethnicity, " ethnicity, " + r3);
    ContainsAfter(ethnicity, " ethnicity, " + r3, setting);
    ContainsAfter(ethnicity, " ethnicity, " + r3, styleClause);
    ContainsAfter(" model with ", r2, setting);
    ContainsAfter(" model with ", r2, styleClause);
    ContainsAfter(" model with ", r2, ethnicity);
    ContainsAtFront(gender, " model with " + r2);
    ContainsAfter(gender, " model with " + r2, setting);
    ContainsAfter(gender, " model with " + r2, styleClause);
    ContainsAfter(gender, " model with " + r2, ethnicity);
    ContainsAfter(head, r1, setting);
    ContainsAfter(head, r1, styleClause);
    ContainsAfter(head, r1, ethnicity);
    ContainsAfter(head, r1, gender);
  }

  /** Every prompt tried names the chosen gender, ethnicity and setting, and the
      first one also names the clothing phrase of the chosen style. */
  lemma PromptsMentionSelections(f: FormData, k: int)
    requires 0 <= k < |AttemptPrompts(f)|
    ensures Contains(AttemptPrompts(f)[k], f.gender)
    ensures Contains(AttemptPrompts(f)[k], f.ethnicity)
    ensures Contains(AttemptPrompts(f)[k], Setting(f))
    ensures k == 0 ==> Contains(AttemptPrompts(f)[k], StyleDescription(f.fashionStyle))
  {
    if k == 0 {
      PortraitMentions(f.gender, f.ethnicity, StyleDescription(f.fashionStyle), Setting(f),
                       PrimaryClosing + AdditionalPrompt(f.fashionStyle));
    } else if k == 1 {
      PortraitMentions(f.gender, f.ethnicity, SaferStyle, Setting(f), SaferClosing);
    } else {
      PortraitMentions(f.gender, f.ethnicity, FinalStyle, Setting(f), FinalClosing);
    }
  }

  const GenericErrorText: string := "An unexpected error occurred during generation."
  const SafetyErrorText: string :=
    ("The AI safety system rejected this request. Try adjusting your style " + "selection or custom prompt to use more general, artistic terms.")
  const RateLimitErrorText: string := "Rate limit exceeded. Please wait a moment and try again."
  const NoReferenceErrorText: string :=
    ("Please upload at least one reference image to generate models with " + "matching facial features.")
  const NoImagesErrorText: string := "No images were generated. Please try again."
  const InvalidImagesErrorText: string := "Generated images are invalid. Please try again."

  /** The message shown when generation fails with an error whose message is
      `message` ("" when the error has none). */
  function ErrorMessage(message: string): (r: string)
    ensures r in {SafetyErrorText, RateLimitErrorText, GenericErrorText, message}
    ensures r != ""
  {
    if Contains(message, "safety") then SafetyErrorText
    else if Contains(message, "rate limit") then RateLimitErrorText
    else if Contains(message, "reference") then message
    else if message != "" then message
    else GenericErrorText
  }

  /** The precedence of the mapping, stated over occurrences of the key phrases
      anywhere in the message: safety, then rate limit, then the message itself,
      then the generic text. */
  lemma ErrorMessagePrecedence(message: string)
    ensures OccursIn("safety", message) ==> ErrorMessage(message) == SafetyErrorText
    ensures !OccursIn("safety", message) && OccursIn("rate limit", message) ==>
      ErrorMessage(message) == RateLimitErrorText
    ensures !OccursIn("safety", message) && !OccursIn("rate limit", message) && message != "" ==>
      ErrorMessage(message) == message
    ensures message == "" ==> ErrorMessage(message) == GenericErrorText
  {
    ContainsIff(message, "safety");
    ContainsIff(message, "rate limit");
  }
}
