/** The three wrappers around the generative-model client (services/geminiService.ts).
    The client call itself is external: it is the parameter `gateway`, which maps the prompt
    that is sent to the response that comes back. What is modelled is what each wrapper
    makes of that response: the prompt it builds, the fallback it applies and whether an
    error reaches its caller. */
module GeminiService {
  import opened Types

  /** What the client call produces: a response whose `text` accessor gives a string (an
      absent text is the empty string here, since both are falsy), or a rejected call. */
  datatype Response = Text(text: string) | Failure(reason: string)

  /** How an awaited promise settles: it resolves to a value or it rejects with an error. */
  datatype Outcome<+T> = Returned(value: T) | Threw(error: string)

  const NoResponseError := "No response from AI"

  /** `part` occurs in `s` starting at index i. */
  predicate OccursAt(s: string, part: string, i: nat) {
    i + |part| <= |s| && s[i..i + |part|] == part
  }

  /** `part` occurs somewhere in `s`. */
  predicate Contains(s: string, part: string) {
    exists i: nat | i <= |s| :: OccursAt(s, part, i)
  }

  /** JavaScript `text || fallback` on strings: the empty string is falsy. */
  function OrElse(text: string, fallback: string): string {
    if text != "" then text else fallback
  }

  // ---------------------------------------------------------------------------
  // Prompts (the template literals, with each interpolation a concatenation)

  const DraftHead :=
    "\n"
    + "    You are an expert content writer for a Korean audience, specializing in synthesizing news from the Naver ecosystem and analyzing Global Trends.\n"
    + "    \n"
    + "    Task: Create a high-quality blog post based on the following parameters:\n"
    + "    - Keywords/Topic: \""
  const DraftAfterKeywords := "\"\n    - Timeframe Context: \""
  const DraftAfterPeriod := "\"\n    - Tone/Style: \""
  const DraftAfterTone := "\"\n    - Target Length: \""
  const DraftTail :=
    "\"\n"
    + "\n"
    + "    Requirements:\n"
    + "    1. Title: Catchy, SEO-optimized for Naver Search.\n"
    + "    2. Content: \n"
    + "       - Write in fluent Korean.\n"
    + "       - Structure with HTML tags (<h2>, <p>, <ul>, <strong>, <blockquote>).\n"
    + "       - DO NOT output a full HTML document (no <html> or <body> tags), just the inner content.\n"
    + "       - **VISUALS**: You MUST insert 2-3 **High-Definition** images.\n"
    + "         - Use this EXACT format: <img src=\"https://image.pollinations.ai/prompt/{english_keywords}?width=1280&height=720&nologo=true&seed={random_seed}\" alt=\"{korean_alt_text}\" />\n"
    + "         - {english_keywords}: 3-5 simple, concrete English keywords describing the scene, separated by \"%20\" (e.g. futuristic%20office%20seoul%20night). DO NOT use full sentences.\n"
    + "         - {random_seed}: A random integer (e.g. 4829) to ensure the image is unique every time.\n"
    + "         - {korean_alt_text}: Descriptive alt text in Korean.\n"
    + "       - **GLOBAL PERSPECTIVE**: Include a dedicated section for \"Global Case Studies\" (\U{D574}\U{C678} \U{C0AC}\U{B840}/\U{D2B8}\U{B80C}\U{B4DC}) comparing the topic with examples from the US, Europe, or Japan.\n"
    + "       - Ensure the content flows logically: Introduction -> Domestic News Synthesis -> Global Case Studies -> In-depth Analysis -> Conclusion.\n"
    + "    3. Tags: Generate 5 relevant hashtags.\n"
    + "    4. Sources: \n"
    + "       - Invent 2-3 realistic Naver News source titles (Domestic).\n"
    + "       - Invent 2 reputable Global source titles (e.g., Bloomberg, TechCrunch, BBC) relevant to the case studies.\n"
    + "\n"
    + "    Output Format: JSON matching the schema.\n"
    + "  "

  function DraftPrompt(config: GeneratorConfig): string {
    DraftHead + config.keywords + DraftAfterKeywords + config.dateRange + DraftAfterPeriod
    + ToneLabel(config.tone) + DraftAfterTone + LengthLabel(config.length) + DraftTail
  }

  const RefineHead :=
    "\n"
    + "    You are an AI Editor Assistant. \n"
    + "    Current Blog Content (HTML): \n"
    + "    "
  const RefineMiddle := "\n\n    User Instruction: \""
  const RefineTail :=
    "\"\n"
    + "\n"
    + "    Task: Rewrite the content to satisfy the user's instruction. \n"
    + "    - Keep the HTML structure valid.\n"
    + "    - **CRITICAL**: Do NOT remove or modify any <img src=\"...\"> tags. Keep them exactly where they are.\n"
    + "    - Return ONLY the updated HTML content string.\n"
    + "  "

  function RefinePrompt(currentContent: string, instruction: string): string {
    RefineHead + currentContent + RefineMiddle + instruction + RefineTail
  }

  const TranslateHead :=
    "\n"
    + "    You are a professional translator.\n"
    + "    Task: Translate the following HTML blog content into \""
  const TranslateMiddle :=
    "\".\n"
    + "    \n"
    + "    Rules:\n"
    + "    - Preserve ALL HTML tags, classes, and structure exactly.\n"
    + "    - Do NOT translate attributes like 'src', 'class', 'id'.\n"
    + "    - Do NOT translate English text inside 'src' URLs.\n"
    + "    - Only translate the visible human-readable text.\n"
    + "    - Return ONLY the translated HTML string.\n"
    + "    \n"
    + "    Content:\n"
    + "    "
  const TranslateTail := "\n  "

  function TranslatePrompt(targetLanguage: string, currentContent: string): string {
    TranslateHead + targetLanguage + TranslateMiddle + currentContent + TranslateTail
  }

  /** The refine prompt quotes the current content and the user's instruction verbatim. */
  lemma RefinePromptQuotesInputs(currentContent: string, instruction: string)
    ensures Contains(RefinePrompt(currentContent, instruction), currentContent)
    ensures Contains(RefinePrompt(currentContent, instruction), instruction)
  {
    EvenOfFiveOccur(RefineHead, currentContent, RefineMiddle, instruction, RefineTail);
  }

  /** The translate prompt quotes the target language and the current content verbatim. */
  lemma TranslatePromptQuotesInputs(targetLanguage: string, currentContent: string)
    ensures Contains(TranslatePrompt(targetLanguage, currentContent), targetLanguage)
    ensures Contains(TranslatePrompt(targetLanguage, currentContent), currentContent)
  {
    EvenOfFiveOccur(TranslateHead, targetLanguage, TranslateMiddle, currentContent, TranslateTail);
  }

  /** A part at the end of a concatenation occurs where the first operand ends. */
  lemma OccursAtEnd(a: string, p: string)
    ensures OccursAt(a + p, p, |a|)
  {
    assert (a + p)[|a|..|a| + |p|] == p;
  }

  /** An occurrence survives appending more text. */
  lemma OccursExtended(x: string, y: string, p: string, i: nat)
    requires OccursAt(x, p, i)
    ensures OccursAt(x + y, p, i)
  {
    assert (x + y)[i..i + |p|] == x[i..i + |p|];
  }

  /** In a five-part concatenation, the second and the fourth part occur. */
  lemma EvenOfFiveOccur(s1: string, s2: string, s3: string, s4: string, s5: string)
    ensures var p := s1 + s2 + s3 + s4 + s5;
      Contains(p, s2) && Contains(p, s4)
  {
    var t2 := s1 + s2;
    var t3 := t2 + s3;
    var t4 := t3 + s4;
    var p := t4 + s5;
    OccursAtEnd(s1, s2);
    OccursExtended(t2, s3, s2, |s1|);
    OccursExtended(t3, s4, s2, |s1|);
    OccursExtended(t4, s5, s2, |s1|);
    assert OccursAt(p, s2, |s1|);
    OccursAtEnd(t3, s4);
    OccursExtended(t4, s5, s4, |t3|);
    assert OccursAt(p, s4, |t3|);
  }

  /** In a nine-part concatenation, each of the four even-numbered parts occurs. */
  lemma EvenPartsOccur(s1: string, s2: string, s3: string, s4: string, s5: string,
                       s6: string, s7: string, s8: string, s9: string)
    ensures var p := s1 + s2 + s3 + s4 + s5 + s6 + s7 + s8 + s9;
      Contains(p, s2) && Contains(p, s4) && Contains(p, s6) && Contains(p, s8)
  {
    var t2 := s1 + s2;
    var t3 := t2 + s3;
    var t4 := t3 + s4;
    var t5 := t4 + s5;
    var t6 := t5 + s6;
    var t7 := t6 + s7;
    var t8 := t7 + s8;
    var p := t8 + s9;
    OccursAtEnd(s1, s2);
    OccursExtended(t2, s3, s2, |s1|);
    OccursExtended(t3, s4, s2, |s1|);
    OccursExtended(t4, s5, s2, |s1|);
    OccursExtended(t5, s6, s2, |s1|);
    OccursExtended(t6, s7, s2, |s1|);
    OccursExtended(t7, s8, s2, |s1|);
    OccursExtended(t8, s9, s2, |s1|);
    assert OccursAt(p, s2, |s1|);
    OccursAtEnd(t3, s4);
    OccursExtended(t4, s5, s4, |t3|);
    OccursExtended(t5, s6, s4, |t3|);
    OccursExtended(t6, s7, s4, |t3|);
    OccursExtended(t7, s8, s4, |t3|);
    OccursExtended(t8, s9, s4, |t3|);
    assert OccursAt(p, s4, |t3|);
    OccursAtEnd(t5, s6);
    OccursExtended(t6, s7, s6, |t5|);
    OccursExtended(t7, s8, s6, |t5|);
    OccursExtended(t8, s9, s6, |t5|);
    assert OccursAt(p, s6, |t5|);
    OccursAtEnd(t7, s8);
    OccursExtended(t8, s9, s8, |t7|);
    assert OccursAt(p, s8, |t7|);
  }

  /** The draft prompt quotes every field of the configuration (the enums by their labels). */
  lemma DraftPromptQuotesConfig(config: GeneratorConfig)
    ensures Contains(DraftPrompt(config), config.keywords)
    ensures Contains(DraftPrompt(config), config.dateRange)
    ensures Contains(DraftPrompt(config), ToneLabel(config.tone))
    ensures Contains(DraftPrompt(config), LengthLabel(config.length))
  {
    EvenPartsOccur(DraftHead, config.keywords, DraftAfterKeywords, config.dateRange, DraftAfterPeriod,
                   ToneLabel(config.tone), DraftAfterTone, LengthLabel(config.length), DraftTail);
  }

  /** Two nine-part concatenations that agree outside the sixth and eighth parts differ when
      the sixth parts differ at some index, or the sixth agree and the eighth differ. */
  lemma NinePartsDiffer(s1: string, s2: string, s3: string, s4: string, s5: string, s6: string,
                        s7: string, s8: string, s9: string, u6: string, u8: string, i: nat)
    requires || (i < |s6| && i < |u6| && s6[i] != u6[i])
             || (s6 == u6 && i < |s8| && i < |u8| && s8[i] != u8[i])
    ensures s1 + s2 + s3 + s4 + s5 + s6 + s7 + s8 + s9 != s1 + s2 + s3 + s4 + s5 + u6 + s7 + u8 + s9
  {
    var t5 := s1 + s2 + s3 + s4 + s5;
    var p := t5 + s6 + s7 + s8 + s9;
    var q := t5 + u6 + s7 + u8 + s9;
    if i < |s6| && i < |u6| && s6[i] != u6[i] {
      assert p[|t5| + i] == s6[i];
      assert q[|t5| + i] == u6[i];
    } else {
      assert p[|t5 + s6 + s7| + i] == s8[i];
      assert q[|t5 + u6 + s7| + i] == u8[i];
    }
  }

  /** For fixed keywords and period, the draft prompt determines the tone and the length: configs
      that differ in either give different prompts. */
  lemma DraftPromptDeterminesConfig(c1: GeneratorConfig, c2: GeneratorConfig)
    ensures DraftPrompt(c1) == DraftPrompt(c2) && c1.keywords == c2.keywords && c1.dateRange == c2.dateRange
      ==> c1 == c2
  {
    if c1.keywords == c2.keywords && c1.dateRange == c2.dateRange && c1 != c2 {
      var t1, t2 := ToneLabel(c1.tone), ToneLabel(c2.tone);
      var l1, l2 := LengthLabel(c1.length), LengthLabel(c2.length);
      LabelsDifferEarly(c1.tone, c2.tone, c1.length, c2.length);
      var i := if c1.tone != c2.tone || l1[0] != l2[0] then 0 else 1;
      NinePartsDiffer(DraftHead, c1.keywords, DraftAfterKeywords, c1.dateRange, DraftAfterPeriod,
                      t1, DraftAfterTone, l1, DraftTail, t2, l2, i);
    }
  }

  // ---------------------------------------------------------------------------
  // The wrappers

  /** generateBlogDraft: an empty text is turned into an error, any error (from the call, the
      empty-text check or `parse`, which stands for JSON.parse) is rethrown, and otherwise the
      parsed object is returned as is. There is no fallback post and no schema check. */
  function GenerateBlogDraft(config: GeneratorConfig, gateway: string -> Response,
                             parse: string -> Outcome<BlogPost>): (r: Outcome<BlogPost>)
    ensures gateway(DraftPrompt(config)).Failure? ==> r == Threw(gateway(DraftPrompt(config)).reason)
    ensures gateway(DraftPrompt(config)) == Text("") ==> r == Threw(NoResponseError)
    ensures r.Returned? <==>
      (var resp := gateway(DraftPrompt(config));
       resp.Text? && resp.text != "" && parse(resp.text).Returned?)
    ensures var resp := gateway(DraftPrompt(config));
      resp.Text? && resp.text != "" ==> r == parse(resp.text)
  {
    match gateway(DraftPrompt(config))
    case Failure(reason) => Threw(reason)
    case Text(text) => if text == "" then Threw(NoResponseError) else parse(text)
  }

  /** refineBlogContent: the model's text when it is non-empty; the unchanged input when the
      text is empty or the call fails. Its result type is a plain string: it never throws. */
  function RefineBlogContent(currentContent: string, instruction: string,
                             gateway: string -> Response): (r: string)
    ensures var resp := gateway(RefinePrompt(currentContent, instruction));
      && (resp.Text? && resp.text != "" ==> r == resp.text)
      && (resp.Failure? || resp == Text("") ==> r == currentContent)
      && (r != currentContent ==> resp == Text(r))
  {
    match gateway(RefinePrompt(currentContent, instruction))
    case Failure(_) => currentContent
    case Text(text) => OrElse(text, currentContent)
  }

  /** translateBlogContent: the model's text when it is non-empty, the unchanged input when it
      is empty, and the call's own error, rethrown, when the call fails. */
  function TranslateBlogContent(currentContent: string, targetLanguage: string,
                                gateway: string -> Response): (r: Outcome<string>)
    ensures var resp := gateway(TranslatePrompt(targetLanguage, currentContent));
      && (r.Threw? <==> resp.Failure?)
      && (resp.Failure? ==> r.error == resp.reason)
      && (resp.Text? && resp.text != "" ==> r == Returned(resp.text))
      && (resp == Text("") ==> r == Returned(currentContent))
  {
    match gateway(TranslatePrompt(targetLanguage, currentContent))
    case Failure(reason) => Threw(reason)
    case Text(text) => Returned(OrElse(text, currentContent))
  }

  /** The two editing wrappers share the empty-text fallback and differ only on a failed call:
      given the same response, translate returns exactly what refine returns, unless the call
      failed, where refine returns the input and translate throws. */
  lemma RefineAndTranslatePolicies(currentContent: string, instruction: string, targetLanguage: string,
                                   gateway: string -> Response)
    requires gateway(RefinePrompt(currentContent, instruction))
          == gateway(TranslatePrompt(targetLanguage, currentContent))
    ensures var resp := gateway(RefinePrompt(currentContent, instruction));
      && (resp.Failure? <==> TranslateBlogContent(currentContent, targetLanguage, gateway).Threw?)
      && (resp.Failure? ==> RefineBlogContent(currentContent, instruction, gateway) == currentContent)
      && (!resp.Failure? ==>
            TranslateBlogContent(currentContent, targetLanguage, gateway)
            == Returned(RefineBlogContent(currentContent, instruction, gateway)))
  {
  }
}
