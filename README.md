# Naver news blog generator: the state machines around the model calls

The application turns a few topic parameters into a blog draft, lets the user revise it by chat
instructions, translate it and export it. All content work is done by an external generative
model; what the application itself decides is a handful of small, sequential state machines
around those calls. This project models them and proves their properties:

- `GeminiService` (services/geminiService.ts): the three wrappers `generateBlogDraft`,
  `refineBlogContent` and `translateBlogContent` as functions of the prompt they build and of
  `gateway`, a parameter standing for the model client (prompt in, `Text(s)` or `Failure(e)`
  out). `parse` stands for `JSON.parse`. Each wrapper's fallback and error policy is stated: refine
  swallows errors and returns its input, translate rethrows them, draft turns an empty text into
  an error and never falls back.
- `Editor` (components/Editor.tsx): the editor's revision loop. `EditorState` holds `content`,
  `messages`, `inputValue`, `isProcessing`, `isTranslating`, `showLangMenu` and `showExportMenu`.
  The two asynchronous handlers are split at their `await` into a Begin transition and a Resolve
  transition. Begin returns the request the wrapper is called with. Resolve takes how the awaited
  promise settled (`Returned(v)` or `Threw(e)`). The other handlers are transitions too, and the
  Word export source and the export file names are pure string functions. The class
  `Editor.Editor` keeps the same state in fields; each of its methods is proved to perform the
  matching transition.
- `GeneratorWizard` (components/GeneratorWizard.tsx): the configuration record, the
  `step`/`progress`/`error` state, the keyword guard, one tick of the progress interval, and the
  resolution of the draft call. The class `GeneratorWizard.Wizard` has the same state in fields.
- `App` (App.tsx): the three-view router with the stored draft. The class `App.App` has the
  same state in fields.
- `Types` (types.ts): the enums `Tone` and `Length` (with the label strings that are their
  TypeScript values) and the records `GeneratorConfig`, `ChatMessage` and `BlogPost`.

Facts worth knowing that the proofs establish:

- When the model call inside refine fails, the editor restores the content as it was when the
  instruction was sent, yet it appends the "I've updated the draft" entry. The editor's own error
  entry (components/Editor.tsx:65-66) is never produced by a refine
  (`Editor.RefineErrorReplyUnreachable`, `Editor.SendRoundTrip`).
- A refine's result is computed from the content at the time of the send. When it settles it
  overwrites a hand edit made in the meantime, and a failed refine puts back the older content
  (`Editor.FailedRefineUndoesEdit`). With two sends in flight, the later settle decides the
  content (`Editor.OverlappingSendsLastSettleWins`).
- The send guard uses `trim`, so whitespace-only input is ignored. The wizard's guard is
  `!config.keywords`, so only the exact empty string is rejected.
- A submit does not reset the progress bar. After a failed attempt that reached 30%, the first
  tick of the next attempt moves the bar back to 10% (`GeneratorWizard.ResubmitRestartsBarFromStaleValue`).
- The Enter key calls the send handler with no check of `isProcessing`. Only the send button is
  disabled while processing. So a second send may begin while one is outstanding. The language
  menu, by contrast, stays closed while a translation runs, because the globe button is disabled
  then (`Editor.Consistent`).
- After a refine or a translation nothing checks that the `<img>` tags survived; the prompts only
  ask the model to keep them.
- The parsed draft is not validated: whatever `JSON.parse` yields is handed on as the post.

## Model

| member | source | states |
|---|---|---|
| `Types.LabelsDifferEarly` | types.ts:1-11 | distinct Tone members have labels that differ in their first character, distinct Length members in their first two |
| `GeminiService.DraftPromptQuotesConfig` | services/geminiService.ts:10-38 | the draft prompt contains the keywords, the period and the tone and length labels verbatim |
| `GeminiService.RefinePromptQuotesInputs` | services/geminiService.ts:78-89 | the refine prompt contains the current content and the instruction verbatim |
| `GeminiService.TranslatePromptQuotesInputs` | services/geminiService.ts:105-118 | the translate prompt contains the target language and the content verbatim |
| `GeminiService.DraftPromptDeterminesConfig` | services/geminiService.ts:10-38 | for fixed keywords and period, configs with a different tone or length give different draft prompts |
| `GeminiService.GenerateBlogDraft` | services/geminiService.ts:40-74 | a failed call rethrows its error; empty text throws "No response from AI"; for non-empty text the outcome is exactly what parse gives, success or error; so it returns a post exactly when the text is non-empty and parses (no fallback post) |
| `GeminiService.RefineBlogContent` | services/geminiService.ts:91-101 | returns the model text when it is non-empty, the unchanged input when the text is empty or the call fails; any change comes from the model's text; the result is a plain string (never throws) |
| `GeminiService.TranslateBlogContent` | services/geminiService.ts:120-129 | throws exactly when the call fails, with the call's own error; otherwise returns the non-empty text, or the input when the text is empty |
| `GeminiService.RefineAndTranslatePolicies` | services/geminiService.ts:91-129 | given the same response, translate throws iff the call failed, refine then returns its input, and otherwise both return the same string |
| `Editor.TrimEmptyIffBlank` | components/Editor.tsx:53 | `trim()` of the input is empty exactly when every character is JavaScript whitespace |
| `Editor.InitialState` | components/Editor.tsx:20-31 | content is the post's content, the log is one model-role greeting, input empty, all flags off |
| `Editor.SendBegun` | components/Editor.tsx:52-58 | blank input: state unchanged and no call; otherwise exactly one user entry with the input's text is appended, the input cleared and `isProcessing` set before the call, and the call gets the current content and the input |
| `Editor.SendResolved` | components/Editor.tsx:60-69 | one entry appended to the old log; resolved: content is the result and the entry is "updated"; rejected: content unchanged and the entry is the error one; `isProcessing` false afterwards |
| `Editor.TranslateBegun` | components/Editor.tsx:72-77 | menu closed, `isTranslating` set, the "Translating content to {lang}..." entry appended, call gets the current content |
| `Editor.TranslateResolved` | components/Editor.tsx:76-84 | resolved: content replaced and the "complete" entry appended; rejected: content unchanged and "Translation failed." appended; `isTranslating` false afterwards |
| `Editor.Blurred` | components/Editor.tsx:228 | the content becomes the edited HTML; nothing else changes |
| `Editor.InputChanged` | components/Editor.tsx:303-333 | the chat input becomes the typed text or the chosen instruction chip; nothing else changes |
| `Editor.LangMenuClicked` | components/Editor.tsx:147 | the language menu toggles, except while translating (button disabled), when nothing changes |
| `Editor.ExportMenuClicked` | components/Editor.tsx:167 | the export menu toggles; nothing else changes |
| `Editor.DocDownloaded` | components/Editor.tsx:110-124 | export menu closed and the single "Word document download started." entry appended |
| `Editor.PdfDownloaded` | components/Editor.tsx:87-108 | export menu closed; "PDF download started." appended only when the PDF library is loaded |
| `Editor.WordSource` | components/Editor.tsx:112-114 | the Word source is the header, then the content exactly, then the footer |
| `Editor.WordSourceRoundTrip` | components/Editor.tsx:112-114 | the content can be read back unchanged from the Word source |
| `Editor.ExportFileName` | components/Editor.tsx:120 | the file name is the first min(20, length) characters of the title, then the extension (".doc" here, ".pdf" at line 96) |
| `Editor.AwaitRefine` | components/Editor.tsx:60-66 | awaiting refine never rejects; it resolves to the model's text when that is non-empty, and to the content the request carried when the text is empty or the call failed |
| `Editor.AwaitTranslate` | components/Editor.tsx:76-81 | awaiting translate rejects exactly when the model call failed |
| `Editor.SendRoundTrip` | components/Editor.tsx:52-69 | a non-blank send appends exactly the user entry and the "updated" entry; when the model call fails the content is unchanged |
| `Editor.RefineErrorReplyUnreachable` | components/Editor.tsx:65-66 | after any refine the appended entry is the success entry, never the error entry |
| `Editor.FailedRefineUndoesEdit` | components/Editor.tsx:52-69 | a refine settles to a content computed from the content at the send, overwriting an edit made meanwhile; a failed model call restores the content as it was at the send |
| `Editor.OverlappingSendsLastSettleWins` | components/Editor.tsx:52-69 | two overlapping sends refine the same content; the first settle clears the processing flag while the second is outstanding; the later settle decides the content, and its failure restores the content as it was before both |
| `Editor.TranslateRoundTrip` | components/Editor.tsx:72-85 | a translation appends exactly two entries (notice, then complete or failed), ends with `isTranslating` off and the menu closed, and keeps the content on failure |
| `Editor.NoSecondTranslation` | components/Editor.tsx:147-152 | in a consistent state with a translation running, neither a language pick nor the globe button changes anything |
| `Editor.StepKeepsHistory` | components/Editor.tsx:52-124 | every handler keeps the old log as a prefix and keeps the invariant |
| `Editor.RunKeepsHistory` | components/Editor.tsx:52-124 | along any sequence of events the log is append-only, the greeting stays first, and the language menu is closed while translating |
| `Editor.FailuresKeepContent` | components/Editor.tsx:60-84 | rejected calls never change the content: with no blur and no resolved call, the content is the same after any sequence of events |
| `Editor.Editor.constructor` | components/Editor.tsx:20-31 | the fields start in the initial state |
| `Editor.Editor.BeginSend` | components/Editor.tsx:52-58 | performs `SendBegun` on the fields and returns its request |
| `Editor.Editor.ResolveSend` | components/Editor.tsx:60-69 | performs `SendResolved` on the fields |
| `Editor.Editor.BeginTranslate` | components/Editor.tsx:72-77 | performs `TranslateBegun` on the fields and returns its request |
| `Editor.Editor.ResolveTranslate` | components/Editor.tsx:76-84 | performs `TranslateResolved` on the fields |
| `Editor.Editor.Blur` | components/Editor.tsx:228 | performs `Blurred` |
| `Editor.Editor.SetInput` | components/Editor.tsx:305 | performs `InputChanged` |
| `Editor.Editor.ClickLangMenu` | components/Editor.tsx:147 | performs `LangMenuClicked` |
| `Editor.Editor.ClickExportMenu` | components/Editor.tsx:167 | performs `ExportMenuClicked` |
| `Editor.Editor.DownloadDoc` | components/Editor.tsx:110-124 | performs `DocDownloaded` and returns the Word source of the current content and the ".doc" file name |
| `Editor.Editor.DownloadPdf` | components/Editor.tsx:87-108 | performs `PdfDownloaded` and returns the ".pdf" file name when the library is loaded |
| `GeneratorWizard.InitialState` | components/GeneratorWizard.tsx:13-22 | default config is keywords "", period "Past 24 Hours", ACADEMIC, STANDARD; step input, progress 0, no error |
| `GeneratorWizard.KeywordsChanged` | components/GeneratorWizard.tsx:117 | only the keywords change |
| `GeneratorWizard.PeriodChanged` | components/GeneratorWizard.tsx:133 | only the period changes |
| `GeneratorWizard.ToneChanged` | components/GeneratorWizard.tsx:155 | only the tone changes |
| `GeneratorWizard.LengthChanged` | components/GeneratorWizard.tsx:169 | only the length changes |
| `GeneratorWizard.Submitted` | components/GeneratorWizard.tsx:24-48 | a draft call is made iff the keywords are not the empty string; a rejection sets the keyword error and changes nothing else; acceptance shows the progress screen, clears the error, starts a fresh interval and leaves the bar as it was |
| `GeneratorWizard.Ticked` | components/GeneratorWizard.tsx:43-48 | while the index is below 4 the bar moves to the next step value; otherwise nothing changes |
| `GeneratorWizard.Resolved` | components/GeneratorWizard.tsx:50-59 | the interval stops and the config is kept; success sets progress 100 and hands the post on; failure returns to the form with the failure error |
| `GeneratorWizard.DraftOutcomeOnWizard` | components/GeneratorWizard.tsx:50-59 | composed with generateBlogDraft: whenever no post is handed on (failed call, empty text, parse error) the form is back with the failure error; a post is handed on iff the text is non-empty and parses, and it is the parsed one |
| `GeneratorWizard.ResubmitAfterFailure` | components/GeneratorWizard.tsx:50-59 | after a failure the same config is on the form and resubmitting it is accepted |
| `GeneratorWizard.SubmitKeepsBar` | components/GeneratorWizard.tsx:24-48 | from any consistent form state with keywords, an accepted submit leaves the bar as it was and the first tick sets it to 10 |
| `GeneratorWizard.TicksOfFreshInterval` | components/GeneratorWizard.tsx:34-48 | after n ticks the bar shows step value min(k + n, 4) and later ticks change nothing |
| `GeneratorWizard.TicksAfterSubmit` | components/GeneratorWizard.tsx:34-48 | from a submit, every tick count from one on shows one of the step values, between 10 and 70; the bar moves strictly upwards through the first four ticks and the fifth tick on does nothing |
| `GeneratorWizard.HighlightedStages` | components/GeneratorWizard.tsx:86-90 | in reachable states "Search" is lit from 30, "Extract" from 70, and "Synthesize" only after the draft succeeded |
| `GeneratorWizard.StepKeepsConsistent` | components/GeneratorWizard.tsx:24-59 | every event keeps the wizard's invariant |
| `GeneratorWizard.RunKeepsConsistent` | components/GeneratorWizard.tsx:24-59 | the invariant holds along any sequence of events |
| `GeneratorWizard.RunKeepsOfferedPeriod` | components/GeneratorWizard.tsx:130-133 | when the period is one the three buttons offer, it stays one along any sequence of events |
| `GeneratorWizard.ReachablePeriodOffered` | components/GeneratorWizard.tsx:13-18 | in every reachable state the period is one of "Past 24 Hours", "Past Week", "Past Month" |
| `GeneratorWizard.ResubmitRestartsBarFromStaleValue` | components/GeneratorWizard.tsx:21-48 | a submit does not reset the bar, so the first tick after a failed attempt at 30 moves it down to 10 |
| `GeneratorWizard.Wizard.constructor` | components/GeneratorWizard.tsx:13-22 | the fields start in the initial state |
| `GeneratorWizard.Wizard.SetKeywords` | components/GeneratorWizard.tsx:117 | performs `KeywordsChanged` |
| `GeneratorWizard.Wizard.SetDateRange` | components/GeneratorWizard.tsx:133 | performs `PeriodChanged` |
| `GeneratorWizard.Wizard.SetTone` | components/GeneratorWizard.tsx:155 | performs `ToneChanged` |
| `GeneratorWizard.Wizard.SetLength` | components/GeneratorWizard.tsx:169 | performs `LengthChanged` |
| `GeneratorWizard.Wizard.Submit` | components/GeneratorWizard.tsx:24-48 | performs `Submitted` and returns whether the draft call is made |
| `GeneratorWizard.Wizard.Tick` | components/GeneratorWizard.tsx:43-48 | performs `Ticked` |
| `GeneratorWizard.Wizard.Resolve` | components/GeneratorWizard.tsx:50-59 | performs `Resolved` and returns the post handed to onSuccess |
| `App.InitialState` | App.tsx:9-10 | the initial view is landing with no stored post |
| `App.GeneratorStarted` | App.tsx:12-15 | the wizard is shown from any view; the stored post is kept |
| `App.GenerationSucceeded` | App.tsx:17-20 | the post is stored and the editor shown |
| `App.BackedToLanding` | App.tsx:22-24 | the landing view is shown; the stored post is kept |
| `App.BackedToGenerator` | App.tsx:26-31 | confirmed: the wizard is shown and the post kept; not confirmed: nothing changes |
| `App.ShownEditor` | App.tsx:56 | the editor is mounted iff the view is the editor and a post is stored, and then with that post |
| `App.RunKeepsStoredBlog` | App.tsx:9-31 | along any sequence of handlers a stored post is never cleared (unchanged without a new generation) and the editor view always has a post |
| `App.ReachableEditorGuard` | App.tsx:56 | in every reachable state the editor is mounted exactly when the view is the editor (given that a successful draft is a complete post; see Left out) |
| `App.App.constructor` | App.tsx:9-10 | the fields start in the initial state |
| `App.App.StartGenerator` | App.tsx:12-15 | performs `GeneratorStarted` |
| `App.App.HandleGenerationSuccess` | App.tsx:17-20 | performs `GenerationSucceeded` |
| `App.App.HandleBackToLanding` | App.tsx:22-24 | performs `BackedToLanding` |
| `App.App.HandleBackToGenerator` | App.tsx:26-31 | performs `BackedToGenerator` |

## Left out

- components/LandingPage.tsx: static markup with no logic.
- JSX rendering, CSS, the resize handler (`window.innerWidth`, `isMobile`), `scrollIntoView`,
  `window.scrollTo`, and the view toggles `activeTab` and `showAiSidebar`: presentation only.
- The model client calls, the response schema configuration and `console.error` logging: the
  client is the `gateway` parameter and `JSON.parse` is the `parse` parameter. An absent
  `response.text` is modelled as the empty string, since the code treats both as falsy.
  Whether the model obeys the prompt's requests (keep `<img>` tags, five tags, two or three
  images) is not decided by this code and is not modelled.
- `App.ReachableEditorGuard`: holds because `parse` yields either an error or a complete,
  non-null post, on the assumption that the response schema shapes the text. The code's
  `as BlogPost` is an unchecked cast and the schema marks no property required, so a response of
  `null` would reach `onSuccess` as a null post. The editor view would then render nothing, and
  a post with missing fields is not modelled either.
- PDF generation through `html2pdf`, `encodeURIComponent`, the data-URL download anchor, `alert`
  and `window.confirm`: foreign calls and I/O. Only the string assembly is kept, whether the PDF
  library is loaded is a boolean input, and the dialog's answer is the boolean `confirmed`.
- The "Save Draft" and "Publish" buttons: they only raise alerts.
- Real timing of `setInterval` and `setTimeout`: ticks and settlements are discrete events. The
  500 ms delay before `onSuccess` is not modelled; `Wizard.Resolve` returns the post directly.
- The step messages of the progress interval: they are built but never displayed.
- `contentEditable` and `innerHTML` semantics: the blur handler is "content becomes any string".
- `Editor.ExportFileName`: counts Unicode characters, whereas `substring(0, 20)` counts UTF-16 code
  units, so titles with characters outside the Basic Multilingual Plane are cut differently.
- `Editor.IsJsWhitespace` lists the ECMAScript whitespace and line-terminator characters as of
  Unicode's current Zs category; it is not tied to a particular engine's Unicode version.
