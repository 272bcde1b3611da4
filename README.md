# MultiTool Box tool renderer, modelled in Dafny

This project models the one component of the MultiTool Box web app that has
logic, `components/ToolRenderer.tsx`, and proves properties of it:

- **Dispatch** (`Dispatch`, dispatch.dfy). `ToolRenderer` looks up a tool id in
  the catalog. A miss renders "Tool definition not found.". A hit is matched
  against a fixed chain of rules, and the first rule that matches chooses the
  handler:
  - the exact-id switch;
  - the `video-` prefix, then the `pdf-` prefix;
  - six substring groups: unit, calc, gen, text, security, social;
  - the "Tool Module Ready" default.

  The chain is modelled twice: once as the source's if-chain (`ClassifyId`),
  and once as an ordered rule table (`Rules`, evaluated with `FirstMatch`). A
  lemma proves the two agree, and the precedence properties are proved through
  the table. The catalog (`TOOLS`, from a constants module that is not part of
  this model) is a parameter.
- **PDF suite** (`PdfDocuments` for the pure parts, `PdfToolbox` for the panel).
  `PDFToolbox` is a class holding:
  - the uploaded file list;
  - the `processing` flag;
  - the result handle;
  - the reader's preview handle;
  - the resize option.

  Its handlers (add files, remove file `i`, run, "Start New Task") are methods.
  `ProcessPDF` runs the tool's branch with `RunTool`, which holds the merge
  loop (`MergeFiles`) and the resize loop (`ResizePages`) of the source. Both
  are proved against `Run`, a pure function of the tool id, the files and the
  option. A document is a sequence of pages with real dimensions. A file's
  content is either a parsed document or an unreadable one, which carries the
  PDF library's error message. Object URLs are issued and revoked by a small
  registry class (`ObjectUrls.Registry`), so leaked handles can be stated.
- **Chat** (`Chat`, ai_chatbot.dfy). `AIChatbot.Ask` keeps an append-only
  transcript. The text-generation service's answer is a parameter (`Reply`).
- **Video suite** (`VideoSuite`, video_toolbox.dfy). `HandleGenerate` has three
  parts:
  - the blank-prompt guard;
  - the submit-then-poll loop, with the progress timer's rotating messages;
  - the fetch and error handling.

  `HandleTrim` hands the uploaded file back. The remote side of a generation
  is fixed in advance as a `VideoService` value, which holds:
  - whether a key is selected;
  - the answer to the request and to each later poll;
  - how often the timer fires before each poll;
  - whether the fetch fails.

  Only the state transitions are verified.

The shared string predicates live in `JsStrings` (strings.dfy): JavaScript's
`startsWith`, `includes`, and `trim() == ""` with its white-space set.
`types.dfy` holds `Tool` and `ToolCategory` from types.ts.

## Model

| member | source | states |
|---|---|---|
| Dispatch.Find | components/ToolRenderer.tsx:12 | `TOOLS.find`: the result is None exactly when no entry has the id; otherwise it is the entry at the first position with that id |
| Dispatch.Resolve | components/ToolRenderer.tsx:11-46 | `ToolRenderer`: the "not found" output is rendered if and only if no catalog entry has the id; otherwise the found tool has that id and is rendered with the handler of the first table rule that matches the id |
| Dispatch.ClassifyId | components/ToolRenderer.tsx:16-45 | the source's chain on a found tool's id: the exact-id switch, then `startsWith('video-')` and `startsWith('pdf-')`, then the keyword groups; its meaning is stated by `ClassifyAgreesWithTable` and the lemmas below it |
| Dispatch.KeywordKind | components/ToolRenderer.tsx:32-45 | the six `includes` groups in source order, then the "Tool Module Ready" default; `KeywordsAgreeWithTable` ties it to rules 8-13 of the table |
| Dispatch.Select | components/ToolRenderer.tsx:16-45 | the ordered rule table evaluated on an id: the kind of the first matching rule (`FirstMatch`), else the default; `SelectFirstMatching` and `SelectByRule` state this |
| Dispatch.CataloguedIdIsRendered | components/ToolRenderer.tsx:11-45 | dispatch is total: a catalogued id is rendered with the first matching catalog entry and the handler the rule chain picks |
| Dispatch.FirstMatch | components/ToolRenderer.tsx:16-37 | the rules are tried in order: the result is the first matching rule, or None when no rule matches |
| Dispatch.SelectFirstMatching | components/ToolRenderer.tsx:16-45 | when rule i is the first to match, the table's handler is rule i's kind |
| Dispatch.RuleConditions | components/ToolRenderer.tsx:16-37 | each table rule tests exactly what the source tests: rules 0-5 each test one exact id, rules 6-7 one prefix, rules 8-13 one keyword group |
| Dispatch.KeywordConditions | components/ToolRenderer.tsx:32-37 | each keyword rule matches exactly when one of its group's substrings occurs in the id |
| Dispatch.ClassifyAgreesWithTable | components/ToolRenderer.tsx:16-45 | for every id, the source's if-chain and the ordered rule table choose the same handler |
| Dispatch.ExactAgreesWithTable | components/ToolRenderer.tsx:16-23 | the table's first six rules act as the exact-id switch: a reserved id gets its component; any other id falls through to the later rules |
| Dispatch.PrefixesAgreeWithTable | components/ToolRenderer.tsx:26-29 | after the switch, the table tests `video-`, then `pdf-`, then falls through to the keyword groups |
| Dispatch.KeywordsAgreeWithTable | components/ToolRenderer.tsx:32-45 | the keyword rules of the table choose what the six keyword tests and the default choose |
| Dispatch.RuleKindsDistinct | components/ToolRenderer.tsx:16-37 | every rule has its own handler kind, and no rule's kind is the default |
| Dispatch.ClassifyByRule | components/ToolRenderer.tsx:16-37 | precedence in both directions: the handler is rule i's kind if and only if rule i matches and no earlier rule does |
| Dispatch.SelectByRule | components/ToolRenderer.tsx:16-37 | the same if-and-only-if, stated for the rule table |
| Dispatch.DefaultIffNoRuleMatches | components/ToolRenderer.tsx:39-45 | "Tool Module Ready" is chosen if and only if no rule matches |
| Dispatch.ExactIdsWin | components/ToolRenderer.tsx:16-23 | each of the six reserved ids gets its own component, whatever prefix or keyword it contains |
| Dispatch.QrGenIsExact | components/ToolRenderer.tsx:19 | `qr-gen` matches the `gen` keyword rule, yet it resolves to QRCodeGenerator |
| Dispatch.PassGenIsExact | components/ToolRenderer.tsx:22 | `pass-gen` matches the `gen` keyword rule, yet it resolves to PasswordGenerator |
| Dispatch.VideoPrefixWins | components/ToolRenderer.tsx:26 | every `video-` id resolves to VideoToolbox |
| Dispatch.VideoGenIsVideo | components/ToolRenderer.tsx:26 | `video-gen` contains `gen`, yet it resolves to VideoToolbox, because the prefix is tested first |
| Dispatch.PdfPrefixWins | components/ToolRenderer.tsx:29 | every `pdf-` id resolves to PDFToolbox, before any keyword rule |
| Dispatch.KeywordGroupsInOrder | components/ToolRenderer.tsx:34-35 | `random-text` matches both the generator group and the text group; the earlier generator group wins |
| JsStrings.StartsWith | components/ToolRenderer.tsx:26-29 | `startsWith`: true if and only if the prefix is no longer than the string and agrees with it character by character from position 0 |
| JsStrings.Contains | components/ToolRenderer.tsx:32-37 | `includes`: true if and only if the needle occurs at some position |
| JsStrings.IsBlank | components/ToolRenderer.tsx:67 | `trim()` gives "" if and only if every character is JavaScript white space |
| ObjectUrls.Text | components/ToolRenderer.tsx:383 | a created object URL's text starts with `blob:` |
| ObjectUrls.Registry.Create | components/ToolRenderer.tsx:236 | `URL.createObjectURL` issues a new handle for the object and revokes nothing |
| ObjectUrls.Registry.Revoke | components/ToolRenderer.tsx:234 | `URL.revokeObjectURL` adds the handle to the revoked set and changes nothing else |
| PdfDocuments.ConcatLength | components/ToolRenderer.tsx:252-258 | the merged page list has as many pages as the files' page counts summed |
| PdfDocuments.ConcatSnoc | components/ToolRenderer.tsx:253-258 | adding one more file appends that file's pages after the pages gathered so far |
| PdfDocuments.MergeAllConcatenates | components/ToolRenderer.tsx:252-258 | when every file is readable, the merge loop yields the concatenation of all pages in upload order |
| PdfDocuments.MergeAllFailsAtFirstUnreadable | components/ToolRenderer.tsx:253-255 | the merge fails with the error of the first unreadable file |
| PdfDocuments.MergeFailurePersists | components/ToolRenderer.tsx:253-258 | once loading a file fails, later files do not change the merge's failure |
| PdfDocuments.FirstUnreadable | components/ToolRenderer.tsx:253-255 | None if and only if every file is readable; otherwise it is the first unreadable position |
| PdfDocuments.MergeAll | components/ToolRenderer.tsx:252-258 | the merge loop's result as a function of the files: it fails if and only if some file is unreadable |
| PdfDocuments.ResizePage | components/ToolRenderer.tsx:270-274 | the per-page callback of the resizer; `ResizeResult` states what each option does to a page |
| PdfDocuments.Run | components/ToolRenderer.tsx:241-296 | processPDF's outcome: nothing but the alert if and only if there are no files; a real document only from merge, resize, reduce or compress; a sentinel if and only if there are files and the tool is none of those four |
| PdfDocuments.Href | components/ToolRenderer.tsx:383 | the result handle's text starts with `blob:` if and only if the handle is a created URL, not a sentinel |
| PdfDocuments.Filtered | components/ToolRenderer.tsx:345 | the `filter` of the remove button: one element shorter for an index inside the list, the same length otherwise |
| PdfDocuments.Resized | components/ToolRenderer.tsx:270-274 | resizing maps each page and keeps the page count |
| PdfDocuments.RunNeedsAFile | components/ToolRenderer.tsx:242-245 | with no files, every tool only shows the "select at least one" alert |
| PdfDocuments.MergeNeedsTwoFiles | components/ToolRenderer.tsx:251 | merging a single file fails with "Please select at least 2 PDF files to merge." |
| PdfDocuments.MergeResult | components/ToolRenderer.tsx:250-262 | merging two or more readable files produces all their pages in upload order, with the summed page count |
| PdfDocuments.MergeFailure | components/ToolRenderer.tsx:253-298 | a merge that has an unreadable file fails with the first such file's error |
| PdfDocuments.ResizeResult | components/ToolRenderer.tsx:263-279 | the resizer reads only the first file: A4 sets each page to 595x842, Letter to 612x792, Scale halves both sides, and any other option keeps the page |
| PdfDocuments.ResizeOptionsDiffer | components/ToolRenderer.tsx:271-272 | A4 and Letter give different results for a non-empty document |
| PdfDocuments.CompressKeepsPages | components/ToolRenderer.tsx:280-288 | reduce and compress re-save the first file with its pages unchanged |
| PdfDocuments.FirstFileUnreadable | components/ToolRenderer.tsx:263-284 | when the first file does not load, the resizer, reduce and compress fail with that file's error |
| PdfDocuments.SimulatedTools | components/ToolRenderer.tsx:289-296 | `pdf-to-excel` yields the Excel sentinel; every other unrecognised id yields the generic sentinel, whatever the files |
| PdfDocuments.FilteredRemovesOne | components/ToolRenderer.tsx:345 | the filter removes exactly element i and keeps the others in order; an index outside the list removes nothing |
| PdfDocuments.Download | components/ToolRenderer.tsx:382-386 | a blob result links to its URL and has no alert; a sentinel links to `#` and alerts the mock-demo message |
| PdfToolbox.PDFToolbox.constructor | components/ToolRenderer.tsx:220-224 | the panel's initial state: no files, not processing, no result, no preview, resize option `A4`, a fresh URL registry; both invariants hold |
| PdfToolbox.PDFToolbox.AtMostOneLivePreview | components/ToolRenderer.tsx:233-237 | while no preview has leaked, at most one preview URL is live |
| PdfToolbox.PDFToolbox.HandleFileChange | components/ToolRenderer.tsx:227-239 | the batch is appended after the current list; in the reader, a non-empty batch revokes the old preview and creates a preview of the first new file; the no-leak invariant is kept |
| PdfToolbox.PDFToolbox.RemoveFile | components/ToolRenderer.tsx:345 | the list loses exactly element i and keeps the rest in order; nothing else changes; the handle invariant and the no-leak invariant are kept |
| PdfToolbox.PDFToolbox.SetResizeOption | components/ToolRenderer.tsx:313 | only the resize option changes; the handle invariant and the no-leak invariant are kept |
| PdfToolbox.RunTool | components/ToolRenderer.tsx:249-296 | the branch for the tool gives exactly the outcome `Run` assigns to the tool id, the files and the option |
| PdfToolbox.MergeFiles | components/ToolRenderer.tsx:252-258 | loading each file in upload order and copying its pages yields `MergeAll` of the files: all pages in order, or the first load error |
| PdfToolbox.ResizePages | components/ToolRenderer.tsx:268-274 | the per-page loop gives every page the size that the option names |
| PdfToolbox.PDFToolbox.Publish | components/ToolRenderer.tsx:260-262 | a produced document gets a new blob URL, which becomes the result; no URL is revoked |
| PdfToolbox.PDFToolbox.ProcessPDF | components/ToolRenderer.tsx:241-302 | the new state follows `Run`: no files means only the alert; otherwise the result is cleared, then set to the new blob, to the sentinel, or to nothing with the error alert, and `processing` ends false |
| PdfToolbox.PDFToolbox.Reset | components/ToolRenderer.tsx:391 | files, result and preview are cleared; a live preview is dropped without being revoked, so the no-leak invariant breaks |
| PdfToolbox.PDFToolbox.ResultLink | components/ToolRenderer.tsx:374-386 | a link is offered exactly when there is a result; a click alerts instead of downloading exactly when the result is a sentinel; a blob result links to its own URL; a sentinel links to `#` and alerts the mock-demo message |
| PdfToolbox.ReaderSupersedesPreview | components/ToolRenderer.tsx:233-237 | two reader uploads in a row leave the first preview revoked and the second live |
| PdfToolbox.ReaderResetLeaksPreview | components/ToolRenderer.tsx:233-391 | upload, reset, upload leaves both previews live |
| PdfToolbox.MergeTwoOnePageFiles | components/ToolRenderer.tsx:250-262 | merging two one-page files gives a blob of two pages |
| Chat.AiText | components/ToolRenderer.tsx:434-436 | the assistant text is the response text, or the "I'm sorry" text when the response is empty, or the "Service temporarily unavailable" text when the call fails; it is never empty |
| Chat.AIChatbot.constructor | components/ToolRenderer.tsx:409-411 | the chat's initial state: an empty prompt, an empty transcript, not loading |
| Chat.AIChatbot.Ask | components/ToolRenderer.tsx:419-440 | a blank prompt changes nothing; otherwise the prompt is cleared and the transcript grows by exactly the user's text and then one assistant entry; alternation of roles is kept |
| Chat.AIChatbot.SetPrompt | components/ToolRenderer.tsx:461 | the input's onChange: the prompt becomes the typed text and nothing else changes |
| Chat.HelloExchange | components/ToolRenderer.tsx:419-434 | asking "hello" of a service that answers "hi there" gives exactly that two-entry transcript |
| VideoSuite.ProgressRotation | components/ToolRenderer.tsx:57-75 | the progress message repeats with period six, and messages k and j are equal if and only if k and j agree modulo 6 |
| VideoSuite.ProgressMessage | components/ToolRenderer.tsx:75 | the message for timer firing k, `messages[k % 6]`; `ProgressRotation` states its period |
| VideoSuite.Outcome | components/ToolRenderer.tsx:100-120 | how a generation ends, read off the first settled answer and the fetch; `ReadyOnlyAfterDone` and `Conclude` state it |
| VideoSuite.VideoToolbox.constructor | components/ToolRenderer.tsx:50-54 | the panel's initial state: empty prompt, no file, not loading, empty message, no result, no timer, a fresh URL registry, and no request, poll or key dialog yet |
| VideoSuite.VideoToolbox.SetPrompt | components/ToolRenderer.tsx:160 | the textarea's onChange: the prompt becomes the typed text and nothing else changes |
| VideoSuite.Settle | components/ToolRenderer.tsx:100-103 | the loop stops at the first answer that is not pending, and every earlier answer was pending |
| VideoSuite.ReadyOnlyAfterDone | components/ToolRenderer.tsx:100-111 | a video, or an empty success, comes only from an answer that reported done, after every earlier answer was pending |
| VideoSuite.VideoToolbox.Generate | components/ToolRenderer.tsx:72-124 | past the guard: one request is sent; the key dialog opens when no key is selected; polling and progress follow the service; the outcome is as in `Outcome`; the timer and loading end off |
| VideoSuite.VideoToolbox.Tick | components/ToolRenderer.tsx:74-77 | firing j of the timer shows `messages[j % 6]` |
| VideoSuite.VideoToolbox.PollUntilSettled | components/ToolRenderer.tsx:100-103 | the loop polls once per pending answer and exits exactly at the first settled one; the messages shown are the rotation in order, and the screen holds the last one shown |
| VideoSuite.VideoToolbox.Conclude | components/ToolRenderer.tsx:105-120 | a done operation with a uri gets a new URL for the fetched video; an empty uri does nothing; a not-found error alerts and reopens key selection; any other error alerts the failure text |
| VideoSuite.VideoToolbox.HandleGenerate | components/ToolRenderer.tsx:66-125 | a blank prompt only alerts and sends nothing; otherwise one request is sent, the key dialog opens when no key is selected, the polls and progress messages follow the service, the outcome is as in `Outcome`, and the timer and loading end off |
| VideoSuite.VideoToolbox.SelectVideoFile | components/ToolRenderer.tsx:178 | the uploaded file is the first chosen file, or none; no other field changes |
| VideoSuite.VideoToolbox.HandleTrim | components/ToolRenderer.tsx:127-137 | with no file nothing happens; otherwise the optimizing message is shown and the result is a new URL for the uploaded file itself; only loading, the message and the result change |
| VideoSuite.VideoToolbox.CreateAnother | components/ToolRenderer.tsx:206 | the result, the prompt and the uploaded file are cleared, and no other field changes |
| VideoSuite.BlankPromptSendsNothing | components/ToolRenderer.tsx:67-70 | a blank prompt sends no generation request and no poll |
| VideoSuite.TrimEchoesFile | components/ToolRenderer.tsx:127-134 | trimming hands back the uploaded file itself |

## Left out

- Rendering and styling are not modelled, and neither are the placeholder components (components/ToolRenderer.tsx:471-481), the transcript's scroll effect (:415-417), or Header, ToolCard and Footer.
- The `TOOLS` catalog is not part of this model. Every property is stated for an arbitrary catalog.
- The PDF library is modelled as page records. `load` either yields a page list or fails with a message. The object-stream option of reduce/compress (:285) is not modelled, so compression only re-saves the same pages.
- A failure of `mergedPdf.save()` or `pdfDoc.save()` is not modelled.
- The resizer's and reduce/compress's "File not found." branches (:265, :282) cannot be reached, because `files` is non-empty there. The model has no such branch.
- Page scaling uses Dafny `real`, not floating point. The MB display (:342) is not modelled.
- Timers and async scheduling are not modelled. Each handler runs to completion, and overlapping runs are not modelled. The UI guards that exist are:
  - the PDF run button is disabled while processing (:354);
  - the chat button is disabled while loading (:462), but the Enter-key path (:461) is not.
- GoogleGenAI, `fetch` and `window.aistudio` are parameters.
  - The chat service's answer is a `Reply`.
  - The video service's answers are a `VideoService`.
  - The match on "Requested entity was not found" (:114) is a boolean on the failure.
  - A failure of the key dialog itself, and a failure of `response.blob()`, are not modelled.
  - A throw from `window.aistudio.hasSelectedApiKey()` (:82), or a missing `window.aistudio`, is not modelled: in the model the key check always answers, so one request is always sent.
  - Failures of `file.arrayBuffer()` (:254) and of `copyPages` (:256) are not modelled separately. Every failure to read a file is the file's `Unreadable` content, reported with its reason.
- The `console.error(err)` call in the video error handler (:113) writes to the console only and is not modelled.
- VideoSuite.VideoToolbox.HandleGenerate: for a non-blank prompt, requires that the operation eventually settles (`Settles`), because a verified method must terminate; a service that stays pending forever is not modelled. A blank prompt needs nothing of the service.
- VideoSuite.VideoToolbox.HandleGenerate: timer firings are counted only during the 10-second waits between polls. Firings during the key check, the request or the fetch are not modelled.
- VideoSuite.VideoToolbox.HandleTrim: the 2-second delay is not modelled; the method shows the result as if the callback had run immediately.
- Object URLs are handles in a registry (`ObjectUrls.Registry`), not browser resources. Their text is `blob:` followed by a serial number.
- `prompt.trim()` follows JavaScript's white-space set on code points. UTF-16 surrogates and string lengths in UTF-16 units are not modelled.

## Source behaviour worth noting

- "Start New Task" (:391) sets the reader's preview to null without revoking its URL. Upload, reset, upload therefore leaves two live previews, as `ReaderResetLeaksPreview` shows. The model keeps this behaviour.
- Result URLs of the PDF and video panels are never revoked: not when they are replaced (:247, :262, :110) and not on reset. The model issues a new handle each time and revokes none.
