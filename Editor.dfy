/** The editor screen's revision loop (components/Editor.tsx).

    The component's state is the record EditorState; each handler is a transition function
    on it, and the class Editor at the end holds the same state in fields and is proved to
    follow those transitions. Each asynchronous handler is split at its `await`: a Begin
    transition (what happens synchronously, which returns the request the wrapper is called
    with) and a Resolve transition (what happens when the awaited promise settles, given how
    it settled). */
module Editor {
  import opened Types
  import opened GeminiService

  // ---------------------------------------------------------------------------
  // Chat texts the component appends

  const Greeting := "I've drafted the post based on your keywords. What would you like to improve?"
  const UpdatedReply := "I've updated the draft based on your feedback."
  const RefineErrorReply := "Sorry, I encountered an error updating the draft."
  const TranslateFailedReply := "Translation failed."
  const PdfStartedReply := "PDF download started."
  const DocStartedReply := "Word document download started."

  function TranslatingNotice(targetLanguage: string): string {
    "Translating content to " + targetLanguage + "..."
  }

  function TranslatedReply(targetLanguage: string): string {
    "Translation to " + targetLanguage + " complete."
  }

  /** The languages the menu offers and the instruction chips under the chat input. */
  const LanguageOptions := ["English", "Korean", "Japanese", "Chinese (Simplified)", "Spanish"]
  const QuickInstructions := ["Make it shorter", "More professional", "Fix grammar"]

  // ---------------------------------------------------------------------------
  // String.prototype.trim, which the send guard applies to the input

  /** The characters trim removes: ECMAScript WhiteSpace (tab, vertical tab, form feed, space,
      no-break space, byte order mark and the other Zs space separators) and LineTerminator. */
  predicate IsJsWhitespace(c: char) {
    || c == '\t' || c == '\n' || c == '\U{000B}' || c == '\U{000C}' || c == '\r' || c == ' '
    || c == '\U{00A0}' || c == '\U{1680}' || ('\U{2000}' <= c <= '\U{200A}')
    || c == '\U{2028}' || c == '\U{2029}' || c == '\U{202F}' || c == '\U{205F}'
    || c == '\U{3000}' || c == '\U{FEFF}'
  }

  function TrimStart(s: string): string {
    if |s| > 0 && IsJsWhitespace(s[0]) then TrimStart(s[1..]) else s
  }

  function TrimEnd(s: string): string {
    if |s| > 0 && IsJsWhitespace(s[|s| - 1]) then TrimEnd(s[..|s| - 1]) else s
  }

  function Trim(s: string): string {
    TrimEnd(TrimStart(s))
  }

  predicate IsBlank(s: string) {
    forall i :: 0 <= i < |s| ==> IsJsWhitespace(s[i])
  }

  lemma {:induction false} TrimStartBlank(s: string)
    ensures TrimStart(s) == "" <==> IsBlank(s)
    ensures TrimStart(s) != "" ==> !IsJsWhitespace(TrimStart(s)[0])
  {
    if |s| > 0 && IsJsWhitespace(s[0]) {
      TrimStartBlank(s[1..]);
      assert IsBlank(s) <==> IsBlank(s[1..]) by {
        if IsBlank(s[1..]) {
          forall i | 0 <= i < |s| ensures IsJsWhitespace(s[i]) {
            if i > 0 { assert s[i] == s[1..][i - 1]; }
          }
        }
        if IsBlank(s) {
          forall i | 0 <= i < |s[1..]| ensures IsJsWhitespace(s[1..][i]) {
            assert s[1..][i] == s[i + 1];
          }
        }
      }
    }
  }

  lemma {:induction false} TrimEndKeepsHead(s: string)
    requires |s| > 0 && !IsJsWhitespace(s[0])
    ensures |TrimEnd(s)| > 0 && TrimEnd(s)[0] == s[0]
  {
    if IsJsWhitespace(s[|s| - 1]) {
      TrimEndKeepsHead(s[..|s| - 1]);
    }
  }

  /** The send guard `!inputValue.trim()` holds exactly for inputs made of whitespace only. */
  lemma TrimEmptyIffBlank(s: string)
    ensures Trim(s) == "" <==> IsBlank(s)
  {
    TrimStartBlank(s);
    if TrimStart(s) != "" {
      TrimEndKeepsHead(TrimStart(s));
    }
  }

  // ---------------------------------------------------------------------------
  // State and its invariant

  datatype EditorState = EditorState(
    content: string,
    messages: seq<ChatMessage>,
    inputValue: string,
    isProcessing: bool,
    isTranslating: bool,
    showLangMenu: bool,
    showExportMenu: bool)

  /** The arguments refineBlogContent is called with: the content as it was when the user sent. */
  datatype RefineRequest = RefineRequest(currentContent: string, instruction: string)

  /** The arguments translateBlogContent is called with. */
  datatype TranslateRequest = TranslateRequest(currentContent: string, targetLanguage: string)

  /** The state on mount. */
  function Initial(initialData: BlogPost): EditorState {
    EditorState(initialData.content, [ChatMessage(Model, Greeting)], "", false, false, false, false)
  }

  /** Invariant of every reachable state: the greeting heads the chat log, and the language
      menu is closed while a translation runs (the globe button is disabled meanwhile). */
  predicate Consistent(s: EditorState) {
    && |s.messages| >= 1
    && s.messages[0] == ChatMessage(Model, Greeting)
    && (s.isTranslating ==> !s.showLangMenu)
  }

  lemma InitialState(initialData: BlogPost)
    ensures var s := Initial(initialData);
      && s.content == initialData.content
      && |s.messages| == 1 && s.messages[0].role == Model && s.messages[0].text == Greeting
      && s.inputValue == "" && !s.isProcessing && !s.isTranslating
      && !s.showLangMenu && !s.showExportMenu
      && Consistent(s)
  {
  }

  // ---------------------------------------------------------------------------
  // handleSendMessage

  /** The part before `await`: a blank input changes nothing and issues no call; otherwise the
      user's entry is appended, the input cleared and the processing flag set, all before the
      call to refine the content as it is now with the input as instruction. */
  function SendBegun(s: EditorState): (r: (EditorState, Option<RefineRequest>))
    ensures r.1.None? <==> IsBlank(s.inputValue)
    ensures r.1.None? ==> r.0 == s
    ensures r.1.Some? ==>
      && r.1.value == RefineRequest(s.content, s.inputValue)
      && r.0.messages == s.messages + [ChatMessage(User, s.inputValue)]
      && r.0.inputValue == "" && r.0.isProcessing
      && r.0.content == s.content && r.0.isTranslating == s.isTranslating
      && r.0.showLangMenu == s.showLangMenu && r.0.showExportMenu == s.showExportMenu
  {
    TrimEmptyIffBlank(s.inputValue);
    if Trim(s.inputValue) == "" then (s, None)
    else
      var userMsg := s.inputValue;
      (s.(messages := s.messages + [ChatMessage(User, userMsg)], inputValue := "", isProcessing := true),
       Some(RefineRequest(s.content, userMsg)))
  }

  /** The part after `await`: on a resolved call the content becomes the result and one
      "updated" entry is appended; on a rejected call the content stays and one error entry is
      appended; either way the processing flag is cleared (the `finally`). */
  function SendResolved(s: EditorState, outcome: Outcome<string>): (r: EditorState)
    ensures !r.isProcessing
    ensures |r.messages| == |s.messages| + 1 && s.messages <= r.messages
    ensures outcome.Returned? ==>
      r.content == outcome.value && r.messages[|s.messages|] == ChatMessage(Model, UpdatedReply)
    ensures outcome.Threw? ==>
      r.content == s.content && r.messages[|s.messages|] == ChatMessage(Model, RefineErrorReply)
    ensures r.inputValue == s.inputValue && r.isTranslating == s.isTranslating
    ensures r.showLangMenu == s.showLangMenu && r.showExportMenu == s.showExportMenu
  {
    match outcome
    case Returned(newContent) =>
      s.(content := newContent, messages := s.messages + [ChatMessage(Model, UpdatedReply)], isProcessing := false)
    case Threw(_) =>
      s.(messages := s.messages + [ChatMessage(Model, RefineErrorReply)], isProcessing := false)
  }

  // ---------------------------------------------------------------------------
  // handleTranslate

  /** The part before `await`: the menu closes, the translating flag is set and a
      "Translating content to ..." entry is appended; the call gets the content as it is now. */
  function TranslateBegun(s: EditorState, targetLanguage: string): (r: (EditorState, TranslateRequest))
    ensures r.1 == TranslateRequest(s.content, targetLanguage)
    ensures r.0.messages == s.messages + [ChatMessage(Model, TranslatingNotice(targetLanguage))]
    ensures r.0.isTranslating && !r.0.showLangMenu
    ensures r.0.content == s.content && r.0.inputValue == s.inputValue
    ensures r.0.isProcessing == s.isProcessing && r.0.showExportMenu == s.showExportMenu
  {
    (s.(showLangMenu := false, isTranslating := true,
        messages := s.messages + [ChatMessage(Model, TranslatingNotice(targetLanguage))]),
     TranslateRequest(s.content, targetLanguage))
  }

  /** The part after `await`: a resolved call replaces the content and appends the "complete"
      entry; a rejected call keeps the content and appends "Translation failed."; either way
      the translating flag is cleared. */
  function TranslateResolved(s: EditorState, targetLanguage: string, outcome: Outcome<string>): (r: EditorState)
    ensures !r.isTranslating
    ensures r.messages == s.messages
      + [ChatMessage(Model, if outcome.Returned? then TranslatedReply(targetLanguage) else TranslateFailedReply)]
    ensures r.content == if outcome.Returned? then outcome.value else s.content
    ensures r.inputValue == s.inputValue && r.isProcessing == s.isProcessing
    ensures r.showLangMenu == s.showLangMenu && r.showExportMenu == s.showExportMenu
  {
    match outcome
    case Returned(translated) =>
      s.(content := translated, messages := s.messages + [ChatMessage(Model, TranslatedReply(targetLanguage))],
         isTranslating := false)
    case Threw(_) =>
      s.(messages := s.messages + [ChatMessage(Model, TranslateFailedReply)], isTranslating := false)
  }

  // ---------------------------------------------------------------------------
  // The other handlers

  /** onBlur of the editable area: the content becomes whatever the area holds. */
  function Blurred(s: EditorState, html: string): (r: EditorState)
    ensures r.content == html && r.messages == s.messages && r.inputValue == s.inputValue
    ensures r.isProcessing == s.isProcessing && r.isTranslating == s.isTranslating
    ensures r.showLangMenu == s.showLangMenu && r.showExportMenu == s.showExportMenu
  {
    s.(content := html)
  }

  /** onChange of the chat input, and the instruction chips, which set the input to their text. */
  function InputChanged(s: EditorState, text: string): (r: EditorState)
    ensures r.inputValue == text && r.content == s.content && r.messages == s.messages
    ensures r.isProcessing == s.isProcessing && r.isTranslating == s.isTranslating
    ensures r.showLangMenu == s.showLangMenu && r.showExportMenu == s.showExportMenu
  {
    s.(inputValue := text)
  }

  /** A click on the globe button toggles the language menu; the button is disabled while a
      translation runs, so then the click does nothing. */
  function LangMenuClicked(s: EditorState): (r: EditorState)
    ensures s.isTranslating ==> r == s
    ensures !s.isTranslating ==> r.showLangMenu == !s.showLangMenu
    ensures r.content == s.content && r.messages == s.messages && r.inputValue == s.inputValue
    ensures r.isProcessing == s.isProcessing && r.isTranslating == s.isTranslating
    ensures r.showExportMenu == s.showExportMenu
  {
    if s.isTranslating then s else s.(showLangMenu := !s.showLangMenu)
  }

  /** A click on the download button toggles the export menu. */
  function ExportMenuClicked(s: EditorState): (r: EditorState)
    ensures r.showExportMenu == !s.showExportMenu
    ensures r.content == s.content && r.messages == s.messages && r.inputValue == s.inputValue
    ensures r.isProcessing == s.isProcessing && r.isTranslating == s.isTranslating
    ensures r.showLangMenu == s.showLangMenu
  {
    s.(showExportMenu := !s.showExportMenu)
  }

  /** handleDownloadDoc's effect on the state: the menu closes and one entry is appended. */
  function DocDownloaded(s: EditorState): (r: EditorState)
    ensures !r.showExportMenu
    ensures r.messages == s.messages + [ChatMessage(Model, DocStartedReply)]
    ensures r.content == s.content && r.inputValue == s.inputValue
    ensures r.isProcessing == s.isProcessing && r.isTranslating == s.isTranslating
    ensures r.showLangMenu == s.showLangMenu
  {
    s.(showExportMenu := false, messages := s.messages + [ChatMessage(Model, DocStartedReply)])
  }

  /** handleDownloadPDF's effect on the state: the menu closes; an entry is appended only when
      the PDF library is loaded (otherwise the user gets an alert). */
  function PdfDownloaded(s: EditorState, libraryLoaded: bool): (r: EditorState)
    ensures !r.showExportMenu
    ensures r.messages == if libraryLoaded then s.messages + [ChatMessage(Model, PdfStartedReply)] else s.messages
    ensures r.content == s.content && r.inputValue == s.inputValue
    ensures r.isProcessing == s.isProcessing && r.isTranslating == s.isTranslating
    ensures r.showLangMenu == s.showLangMenu
  {
    if libraryLoaded then
      s.(showExportMenu := false, messages := s.messages + [ChatMessage(Model, PdfStartedReply)])
    else
      s.(showExportMenu := false)
  }

  // ---------------------------------------------------------------------------
  // Export strings

  const WordHeader := "<html xmlns:o='urn:schemas-microsoft-com:office:office' xmlns:w='urn:schemas-microsoft-com:office:word' xmlns='http://www.w3.org/TR/REC-html40'><head><meta charset='utf-8'><title>Export HTML to Word Document with JavaScript</title></head><body>"
  const WordFooter := "</body></html>"
  const TitleLimit := 20

  /** The Word document source: header, then the content exactly, then footer. */
  function WordSource(content: string): (r: string)
    ensures |r| == |WordHeader| + |content| + |WordFooter|
    ensures r[..|WordHeader|] == WordHeader
    ensures r[|WordHeader|..|WordHeader| + |content|] == content
    ensures r[|WordHeader| + |content|..] == WordFooter
  {
    WordHeader + content + WordFooter
  }

  /** Reads the content back out of a Word source, if it has the header and the footer. */
  function WordBody(source: string): Option<string> {
    if |source| >= |WordHeader| + |WordFooter|
       && source[..|WordHeader|] == WordHeader
       && source[|source| - |WordFooter|..] == WordFooter
    then Some(source[|WordHeader|..|source| - |WordFooter|])
    else None
  }

  /** The export keeps the content intact: it can be read back from the Word source. */
  lemma WordSourceRoundTrip(content: string)
    ensures WordBody(WordSource(content)) == Some(content)
  {
    var r := WordSource(content);
    assert r[|r| - |WordFooter|..] == WordFooter;
    assert r[|WordHeader|..|r| - |WordFooter|] == content;
  }

  /** `${title.substring(0, 20)}${extension}`: at most the first 20 characters of the title,
      all of them when it is shorter, then the extension. */
  function ExportFileName(title: string, extension: string): (r: string)
    ensures |r| == Min(TitleLimit, |title|) + |extension|
    ensures r[..Min(TitleLimit, |title|)] <= title
    ensures r[Min(TitleLimit, |title|)..] == extension
    ensures |title| <= TitleLimit ==> r == title + extension
  {
    title[..Min(TitleLimit, |title|)] + extension
  }

  // ---------------------------------------------------------------------------
  // How the awaited wrappers settle

  /** `await refineBlogContent(...)`: the wrapper never throws, so the promise always resolves,
      to the model's text when it is non-empty and otherwise to the content the request carried. */
  function AwaitRefine(request: RefineRequest, gateway: string -> Response): (r: Outcome<string>)
    ensures r.Returned?
    ensures var resp := gateway(RefinePrompt(request.currentContent, request.instruction));
      && (resp.Text? && resp.text != "" ==> r.value == resp.text)
      && (resp.Failure? || resp == Text("") ==> r.value == request.currentContent)
  {
    Returned(RefineBlogContent(request.currentContent, request.instruction, gateway))
  }

  /** `await translateBlogContent(...)`: rejects exactly when the wrapper rethrows. */
  function AwaitTranslate(request: TranslateRequest, gateway: string -> Response): (r: Outcome<string>)
    ensures r.Threw? <==> gateway(TranslatePrompt(request.targetLanguage, request.currentContent)).Failure?
    ensures r == TranslateBlogContent(request.currentContent, request.targetLanguage, gateway)
  {
    TranslateBlogContent(request.currentContent, request.targetLanguage, gateway)
  }

  /** A whole send with nothing in between: two entries, the user's and the "updated" one.
      When the model call inside refine fails, the content is unchanged and yet the success
      entry is what gets appended. */
  lemma SendRoundTrip(s: EditorState, gateway: string -> Response)
    requires !IsBlank(s.inputValue)
    ensures var begun := SendBegun(s);
      && begun.1.Some?
      && var t := SendResolved(begun.0, AwaitRefine(begun.1.value, gateway));
      && t.messages == s.messages + [ChatMessage(User, s.inputValue), ChatMessage(Model, UpdatedReply)]
      && !t.isProcessing && t.inputValue == ""
      && t.content == RefineBlogContent(s.content, s.inputValue, gateway)
      && (gateway(RefinePrompt(s.content, s.inputValue)).Failure? ==> t.content == s.content)
  {
    var begun := SendBegun(s);
    var t := SendResolved(begun.0, AwaitRefine(begun.1.value, gateway));
    assert t.messages == begun.0.messages + [ChatMessage(Model, UpdatedReply)];
  }

  /** The error entry of handleSendMessage's catch branch is never appended after a refine. */
  lemma RefineErrorReplyUnreachable(s: EditorState, request: RefineRequest, gateway: string -> Response)
    ensures var t := SendResolved(s, AwaitRefine(request, gateway));
      t.messages[|s.messages|] == ChatMessage(Model, UpdatedReply)
      && t.messages[|s.messages|] != ChatMessage(Model, RefineErrorReply)
  {
  }

  /** A whole translation with nothing in between: exactly two entries, the notice and then the
      complete or failed one; the flag is off and the menu closed afterwards; a failed call
      leaves the content as it was. */
  lemma TranslateRoundTrip(s: EditorState, targetLanguage: string, gateway: string -> Response)
    ensures var begun := TranslateBegun(s, targetLanguage);
      var t := TranslateResolved(begun.0, targetLanguage, AwaitTranslate(begun.1, gateway));
      var failed := gateway(TranslatePrompt(targetLanguage, s.content)).Failure?;
      && |t.messages| == |s.messages| + 2
      && t.messages[..|s.messages|] == s.messages
      && t.messages[|s.messages|] == ChatMessage(Model, TranslatingNotice(targetLanguage))
      && t.messages[|s.messages| + 1]
         == ChatMessage(Model, if failed then TranslateFailedReply else TranslatedReply(targetLanguage))
      && !t.isTranslating && !t.showLangMenu
      && (failed ==> t.content == s.content)
  {
    var begun := TranslateBegun(s, targetLanguage);
    var t := TranslateResolved(begun.0, targetLanguage, AwaitTranslate(begun.1, gateway));
    assert t.messages[..|s.messages|] == s.messages;
  }

  /** A refine settles to a content computed from the content as it was when the instruction was
      sent, so an edit made while it was outstanding is overwritten; when the model call fails,
      the content goes back to what it was at the send. */
  lemma FailedRefineUndoesEdit(s: EditorState, html: string, gateway: string -> Response)
    requires !IsBlank(s.inputValue)
    ensures var begun := SendBegun(s);
      && begun.1.Some?
      && var edited := Blurred(begun.0, html);
      && edited.content == html
      && var t := SendResolved(edited, AwaitRefine(begun.1.value, gateway));
      && t.content == RefineBlogContent(s.content, s.inputValue, gateway)
      && (gateway(RefinePrompt(s.content, s.inputValue)).Failure? ==> t.content == s.content)
  {
  }

  /** Two sends in flight at once (the Enter key is not blocked while processing): both refine the
      same content, the first settle clears the processing flag while the second is outstanding,
      and the later settle decides the content, discarding the first result; a failure of the
      second call puts back the content as it was before both. */
  lemma OverlappingSendsLastSettleWins(s: EditorState, second: string, gateway: string -> Response)
    requires !IsBlank(s.inputValue) && !IsBlank(second)
    ensures var b1 := SendBegun(s);
      && b1.1.Some?
      && var b2 := SendBegun(InputChanged(b1.0, second));
      && b2.1 == Some(RefineRequest(s.content, second))
      && var first := SendResolved(b2.0, AwaitRefine(b1.1.value, gateway));
      && !first.isProcessing
      && var t := SendResolved(first, AwaitRefine(b2.1.value, gateway));
      && t.content == RefineBlogContent(s.content, second, gateway)
      && (gateway(RefinePrompt(s.content, second)).Failure? ==> t.content == s.content)
  {
  }

  // ---------------------------------------------------------------------------
  // Arbitrary sequences of events

  /** Picks from the rendered lists are events carrying the index of the entry clicked: a
      language of the menu, or an instruction chip. An event that cannot happen in a state (an
      index outside the list, an item of a menu that is not open) changes nothing. */
  datatype EditorEvent =
    | InputChange(text: string)
    | SendPress
    | SendSettle(outcome: Outcome<string>)
    | LangMenuClick
    | TranslateClick(option: nat)
    | TranslateSettle(targetLanguage: string, outcome: Outcome<string>)
    | ContentBlur(html: string)
    | ChipClick(chip: nat)
    | ExportMenuClick
    | DocDownload
    | PdfDownload(libraryLoaded: bool)

  function Step(s: EditorState, e: EditorEvent): EditorState {
    match e
    case InputChange(text) => InputChanged(s, text)
    case SendPress => SendBegun(s).0
    case SendSettle(outcome) => SendResolved(s, outcome)
    case LangMenuClick => LangMenuClicked(s)
    case TranslateClick(i) =>
      if s.showLangMenu && i < |LanguageOptions| then TranslateBegun(s, LanguageOptions[i]).0 else s
    case TranslateSettle(lang, outcome) => TranslateResolved(s, lang, outcome)
    case ContentBlur(html) => Blurred(s, html)
    case ChipClick(i) => if i < |QuickInstructions| then InputChanged(s, QuickInstructions[i]) else s
    case ExportMenuClick => ExportMenuClicked(s)
    case DocDownload => if s.showExportMenu then DocDownloaded(s) else s
    case PdfDownload(loaded) => if s.showExportMenu then PdfDownloaded(s, loaded) else s
  }

  function Run(s: EditorState, events: seq<EditorEvent>): EditorState
    decreases |events|
  {
    if events == [] then s else Run(Step(s, events[0]), events[1..])
  }

  /** Every handler keeps the old chat log as a prefix and keeps the invariant. */
  lemma StepKeepsHistory(s: EditorState, e: EditorEvent)
    ensures s.messages <= Step(s, e).messages
    ensures Consistent(s) ==> Consistent(Step(s, e))
  {
  }

  /** The chat log is append-only along any sequence of events, and the invariant holds. */
  lemma {:induction false} RunKeepsHistory(s: EditorState, events: seq<EditorEvent>)
    ensures s.messages <= Run(s, events).messages
    ensures Consistent(s) ==> Consistent(Run(s, events))
    decreases |events|
  {
    if events != [] {
      StepKeepsHistory(s, events[0]);
      RunKeepsHistory(Step(s, events[0]), events[1..]);
    }
  }

  /** While a translation runs no second one can begin: the menu holding the languages is closed,
      because its button is disabled. */
  lemma NoSecondTranslation(s: EditorState, option: nat)
    requires Consistent(s) && s.isTranslating
    ensures Step(s, TranslateClick(option)) == s
    ensures Step(s, LangMenuClick) == s
  {
  }

  /** The events that may change the content: a blur, and a resolved refine or translate. */
  predicate WritesContent(e: EditorEvent) {
    || e.ContentBlur?
    || (e.SendSettle? && e.outcome.Returned?)
    || (e.TranslateSettle? && e.outcome.Returned?)
  }

  /** Rejected calls never change the content: without a blur or a resolved call, the content
      is the same after any sequence of events. (A failed model call inside refine does not reject:
      see FailedRefineUndoesEdit.) */
  lemma {:induction false} FailuresKeepContent(s: EditorState, events: seq<EditorEvent>)
    requires forall i :: 0 <= i < |events| ==> !WritesContent(events[i])
    ensures Run(s, events).content == s.content
    decreases |events|
  {
    if events != [] {
      assert !WritesContent(events[0]);
      FailuresKeepContent(Step(s, events[0]), events[1..]);
    }
  }

  // ---------------------------------------------------------------------------
  // The component

  class Editor {
    const initialData: BlogPost
    var content: string
    var messages: seq<ChatMessage>
    var inputValue: string
    var isProcessing: bool
    var isTranslating: bool
    var showLangMenu: bool
    var showExportMenu: bool

    function State(): EditorState
      reads this
    {
      EditorState(content, messages, inputValue, isProcessing, isTranslating, showLangMenu, showExportMenu)
    }

    predicate Valid()
      reads this
    {
      Consistent(State())
    }

    constructor (initialData: BlogPost)
      ensures this.initialData == initialData
      ensures State() == Initial(initialData) && Valid()
    {
      this.initialData := initialData;
      content := initialData.content;
      messages := [ChatMessage(Model, Greeting)];
      inputValue := "";
      isProcessing, isTranslating := false, false;
      showLangMenu, showExportMenu := false, false;
    }

    method BeginSend() returns (request: Option<RefineRequest>)
      requires Valid()
      modifies this
      ensures Valid() && (State(), request) == SendBegun(old(State()))
    {
      if Trim(inputValue) == "" {
        return None;
      }
      var userMsg := inputValue;
      messages := messages + [ChatMessage(User, userMsg)];
      inputValue := "";
      isProcessing := true;
      request := Some(RefineRequest(content, userMsg));
    }

    method ResolveSend(outcome: Outcome<string>)
      requires Valid()
      modifies this
      ensures Valid() && State() == SendResolved(old(State()), outcome)
    {
      match outcome {
        case Returned(newContent) =>
          content := newContent;
          messages := messages + [ChatMessage(Model, UpdatedReply)];
        case Threw(_) =>
          messages := messages + [ChatMessage(Model, RefineErrorReply)];
      }
      isProcessing := false;
    }

    method BeginTranslate(targetLanguage: string) returns (request: TranslateRequest)
      requires Valid()
      modifies this
      ensures Valid() && (State(), request) == TranslateBegun(old(State()), targetLanguage)
    {
      showLangMenu := false;
      isTranslating := true;
      messages := messages + [ChatMessage(Model, TranslatingNotice(targetLanguage))];
      request := TranslateRequest(content, targetLanguage);
    }

    method ResolveTranslate(targetLanguage: string, outcome: Outcome<string>)
      requires Valid()
      modifies this
      ensures Valid() && State() == TranslateResolved(old(State()), targetLanguage, outcome)
    {
      match outcome {
        case Returned(translated) =>
          content := translated;
          messages := messages + [ChatMessage(Model, TranslatedReply(targetLanguage))];
        case Threw(_) =>
          messages := messages + [ChatMessage(Model, TranslateFailedReply)];
      }
      isTranslating := false;
    }

    method Blur(html: string)
      requires Valid()
      modifies this
      ensures Valid() && State() == Blurred(old(State()), html)
    {
      content := html;
    }

    method SetInput(text: string)
      requires Valid()
      modifies this
      ensures Valid() && State() == InputChanged(old(State()), text)
    {
      inputValue := text;
    }

    method ClickLangMenu()
      requires Valid()
      modifies this
      ensures Valid() && State() == LangMenuClicked(old(State()))
    {
      if !isTranslating {
        showLangMenu := !showLangMenu;
      }
    }

    method ClickExportMenu()
      requires Valid()
      modifies this
      ensures Valid() && State() == ExportMenuClicked(old(State()))
    {
      showExportMenu := !showExportMenu;
    }

    /** Returns the document source and the file name the download link gets. */
    method DownloadDoc() returns (sourceHtml: string, fileName: string)
      requires Valid()
      modifies this
      ensures Valid() && State() == DocDownloaded(old(State()))
      ensures sourceHtml == WordSource(old(content))
      ensures fileName == ExportFileName(initialData.title, ".doc")
    {
      showExportMenu := false;
      sourceHtml := WordHeader + content + WordFooter;
      fileName := initialData.title[..Min(TitleLimit, |initialData.title|)] + ".doc";
      messages := messages + [ChatMessage(Model, DocStartedReply)];
    }

    /** Returns the file name handed to the PDF library, or None when it is not loaded. */
    method DownloadPdf(libraryLoaded: bool) returns (fileName: Option<string>)
      requires Valid()
      modifies this
      ensures Valid() && State() == PdfDownloaded(old(State()), libraryLoaded)
      ensures fileName == if libraryLoaded then Some(ExportFileName(initialData.title, ".pdf")) else None
    {
      showExportMenu := false;
      if libraryLoaded {
        fileName := Some(initialData.title[..Min(TitleLimit, |initialData.title|)] + ".pdf");
        messages := messages + [ChatMessage(Model, PdfStartedReply)];
      } else {
        fileName := None;
      }
    }
  }
}
