# JnX prompt improver and chat — a Dafny model

This project models the state logic of a single-page React application (`index.tsx`) with
two tools.

- **JnX.** The user types a rough prompt. A generation service rewrites it and asks up to a
  few clarifying questions. The user answers them, in text and with attached files, and a
  second call turns the edited prompt and the answers into a final prompt. The final prompt
  can be copied or handed over to the chat.
- **Chat.** A transcript that starts out holding a greeting and is never empty. Each send
  appends the user's message and a model message. The model message grows as streamed
  fragments arrive, or becomes an apology when the call fails.

Modules:

- `Optional`: a value that may be absent.
- `JsString`: `String.prototype.trim` with the ECMAScript whitespace set, `Array.prototype.join`,
  and the text built by repeated `+=`.
- `JsArray`: indexed `map`, and the `filter`-by-index idiom used to delete one element.
- `Attachments`: a picked file (name and MIME type) and the list of its names.
- `Refinement`: the question/answer context that the refine call sends.
- `Improver`: the JnX session as a class whose fields are the page's state hooks, with a
  method per handler.
- `Chat`: the application's chat state as a class, with send, file, clear and hand-off
  handlers.
- `Handoff`: "Use in Chat" across the two pages, and two client walks through a session.

Each handler that awaits a service is split at the await. A `Begin` method covers what happens
on the click, and a `Complete` method covers the reply or the failure. The composed handler
takes the service's outcome as a parameter; in the chat, that outcome is the list of streamed
fragments plus a failure flag.

Two behaviours of the code are easy to misread; the model follows the code.

- The "Attached Files" line of the refinement context is added when the *joined names* are
  non-empty (index.tsx:346-350), not when files are present. `Refinement.FileLineIffFiles`
  proves the two agree when file names are non-empty. `Refinement.FileLineMissingForNamelessFile`
  shows the one case where they differ.
- The refine handler (index.tsx:338-382) does not check the stage. Only the page's rendering
  offers its button, and only while questions are shown.

"Start Over" (index.tsx:272-281) resets the stage and the seven content fields; the loading flag
is not among them, so `Improver.Session.Reset` leaves it as it was.

## Model

| member | source | states |
|---|---|---|
| JsString.IsWhitespace | index.tsx:621 | the characters `trim` removes: ECMAScript's WhiteSpace and LineTerminator sets (a definition, used by every trimming lemma) |
| JsString.Trim | index.tsx:621 | `trim()`: the result is never longer than the input, and a non-empty result neither starts nor ends with whitespace |
| JsString.TrimSpec | index.tsx:621 | `Trim(s)` is the slice of `s` between bounds such that everything outside is whitespace and a non-empty remainder starts and ends with non-whitespace |
| JsString.TrimBoundsUnique | index.tsx:621 | any two such bounds cut out the same text, so the trimming spec determines the result |
| JsString.TrimBlank | index.tsx:285 | the trimmed prompt is empty exactly when every character is whitespace (the blank-prompt guard) |
| JsString.TrimUntouched | index.tsx:345 | text that neither starts nor ends with whitespace is returned unchanged |
| JsString.TrimIdempotent | index.tsx:345 | trimming an already trimmed answer changes nothing |
| JsString.Join | index.tsx:352 | `join(sep)`: for a non-empty list, the result starts with the first part and is exactly as long as all parts plus one separator per gap |
| JsString.Concat | index.tsx:649 | the `+=` fold of the streamed fragments, first to last: exactly as long as all fragments together |
| JsString.TotalLengthSnoc | index.tsx:649 | counting one more fragment at the end adds its length |
| JsString.JoinSnoc | index.tsx:352 | joining one more part appends the separator and that part |
| JsString.JoinEmpty | index.tsx:346-348 | with a non-empty separator, a join is empty only for no parts or a single empty part |
| JsString.ConcatIsJoin | index.tsx:645-651 | text grown chunk by chunk with `+=` equals all chunks joined in order with nothing between |
| JsString.ConcatAppend | index.tsx:645-651 | the text of two successive runs of chunks is the first run's text followed by the second's |
| JsArray.MapIndexed | index.tsx:344 | the mapped list has the input's length, and element `i` is the callback applied to element `i` and index `i` |
| JsArray.MapIndexedSnoc | index.tsx:344 | mapping one more element appends its image computed with the next index |
| JsArray.WithoutIndex | index.tsx:678 | filtering out position `k` gives `s[..k] + s[k+1..]`, or `s` itself when `k` is out of range |
| JsArray.WithoutIndexAt | index.tsx:413 | after removal, earlier elements keep their position, later ones shift left by one, and the length drops by one |
| Attachments.Names | index.tsx:626 | the name list has one entry per file, in file order |
| Refinement.AnswerText | index.tsx:345 | the answer part of one block (a definition: `Refinement.AnswerTextCases` states its cases) |
| Refinement.FileNames | index.tsx:346 | an entry's file names joined by ", ", or "" for a missing entry (a definition: `Refinement.FileLineIffFiles` states when it is empty) |
| Refinement.Block | index.tsx:347-351 | one question's block: question line, answer line, and the file line when the joined names are non-empty (a definition: its properties are the lemmas below) |
| Refinement.Blocks | index.tsx:344-351 | one block per question, in question order, each built from the answer stored under that question's index |
| Refinement.RefinementContext | index.tsx:344-352 | the blocks joined by a blank line (a definition: `Refinement.ContextAppendQuestion` and the lemmas after it state its properties) |
| Refinement.ContextAppendQuestion | index.tsx:344-352 | the context is the blocks in question order: one more question appends a blank line (unless it is the first) and its block |
| Refinement.AnswerTextCases | index.tsx:345 | the answer is the trimmed text when the text is not blank, otherwise the placeholder; it is never empty and never padded |
| Refinement.FileLineIffFiles | index.tsx:346-350 | when file names are non-empty, the file line appears exactly when the question has at least one attached file |
| Refinement.FileLineMissingForNamelessFile | index.tsx:346-350 | a question whose only file has an empty name gets no file line |
| Refinement.EmptyEntryIsNoAnswer | index.tsx:345-350 | an entry with no text and no files gives the same block as no entry at all |
| Refinement.ContextReadsAskedAnswers | index.tsx:344-346 | two answer maps that agree on every asked question give the same context |
| Refinement.EditChangesOneBlock | index.tsx:344-352 | changing the answer to question `j` leaves every other question's block as it was |
| Refinement.TwoQuestionContext | index.tsx:344-352 | an answered and a blank question give the exact two-block text, the second with the placeholder |
| Improver.Session.constructor | index.tsx:259-267 | initial stage, empty prompts, no questions or answers, not loading, no indicator or error |
| Improver.Session.CurrentPrompt | index.tsx:420 | the prompt that copy and use-in-chat both act on: the final prompt in the final stage, the improved prompt before (a definition shared by `Copy`, `UseInChat` and `Handoff.CopyTwice`) |
| Improver.Session.Reset | index.tsx:272-281 | from any state: initial stage, every field emptied, loading flag untouched |
| Improver.Session.EditOriginalPrompt | index.tsx:459 | typing sets the original prompt and nothing else |
| Improver.Session.EditImprovedPrompt | index.tsx:494 | editing sets the improved prompt that refine will send, and nothing else |
| Improver.Session.EditFinalPrompt | index.tsx:568 | editing sets the final prompt and nothing else |
| Improver.Session.BeginGenerate | index.tsx:284-298 | a blank trimmed prompt sends nothing and changes nothing; otherwise everything earlier is cleared, loading starts, and the untrimmed prompt is sent |
| Improver.Session.CompleteGenerate | index.tsx:324-334 | success stores the reply's prompt and questions, with a missing list read as none, and moves to questions; failure sets the error and the initial stage; loading ends |
| Improver.Session.Generate | index.tsx:284-335 | the whole handler: the original prompt is kept, answers and final prompt are cleared, and the stage, prompt, questions and error follow the reply |
| Improver.Session.BeginRefine | index.tsx:338-366 | the request carries the improved prompt as edited and the refinement context; the final prompt, indicator and error are cleared |
| Improver.Session.CompleteRefine | index.tsx:373-381 | success stores the final prompt and moves to final; failure sets the refine error and returns to questions; loading ends |
| Improver.Session.Refine | index.tsx:338-382 | the whole handler: questions, answers and both earlier prompts are never modified, so a failed refinement keeps the answers |
| Improver.Session.ChangeAnswerText | index.tsx:384-393 | that question's text is replaced, its files kept (none for a new entry), other entries untouched, error cleared |
| Improver.Session.AddAnswerFiles | index.tsx:395-406 | picked files go after the existing ones, the text is kept (empty for a new entry), and no file list means no change |
| Improver.Session.RemoveAnswerFile | index.tsx:408-417 | exactly the file at the index is removed from that entry; a question with no entry is untouched |
| Improver.Session.Copy | index.tsx:419-429 | the current prompt (final once final, improved before) is written unless empty, and the indicator reports success or failure |
| Improver.Session.CopyIndicatorExpired | index.tsx:424 | the timer clears the copy indicator |
| Improver.Session.UseInChat | index.tsx:431-435 | the hand-off happens exactly when the current prompt is non-empty, and carries that prompt |
| Chat.RequestParts | index.tsx:634-638 | one part per file, in order, then the prompt text as the last part |
| Chat.ReplyText | index.tsx:645-659 | the model message's final text: the `+=` fold of every fragment, or the apology when the call failed (a definition: `Chat.App.Stream` establishes it) |
| Chat.App.constructor | index.tsx:579-583 | the transcript is the greeting alone, input and files empty, not loading, on the JnX page |
| Chat.App.EditInput | index.tsx:772 | typing sets the input line |
| Chat.App.Submit | index.tsx:619-631 | blank input with no files sends nothing and changes nothing; otherwise the user message (trimmed text, file names) and an empty model message are appended, input and files cleared, loading started |
| Chat.App.AppendChunk | index.tsx:645-651 | the fragment is appended to the last message's text; length, role, files and every other message are unchanged |
| Chat.App.FailStream | index.tsx:653-660 | the last message's text becomes the apology; every other message is unchanged |
| Chat.App.Stream | index.tsx:640-660 | the empty model message ends up holding every fragment in arrival order, or the apology if the call failed; earlier messages are untouched |
| Chat.App.EndSend | index.tsx:661-662 | loading ends |
| Chat.App.Send | index.tsx:619-669 | exactly two messages are appended: the user's and the model's, whose text is every fragment in arrival order or the apology on failure; the transcript is never empty |
| Chat.App.AddFiles | index.tsx:671-675 | picked files go after those already waiting; no file list means no change |
| Chat.App.RemoveFile | index.tsx:677-679 | exactly the waiting file at the index is removed |
| Chat.App.ClearChat | index.tsx:681-685 | the transcript is the greeting alone, and the input and files are empty |
| Chat.App.CopyToChat | index.tsx:687-690 | the handed-over prompt becomes the input line and the chat page is shown |
| Handoff.UseInChat | index.tsx:431-435 | a non-empty current prompt becomes the chat input and shows the chat page; an empty one changes nothing; the transcript and files are never touched |
| Handoff.DragonStory | index.tsx:284-335 | a generated reply is stored as it came (questions stage, both questions), and handing its prompt to the chat fills the input without moving the session |
| Handoff.CopyTwice | index.tsx:419-429 | copying twice writes the same text whatever the clipboard answered: a copy changes only the indicator |
| Handoff.RefineRetry | index.tsx:375-381 | after a failed refinement, retrying sends the same request, because the answers survive the failure |

## Left out

- The generation service is not modelled: the structured call, the free-form call, the
  streaming call and `JSON.parse` of the reply. Their outcomes are parameters.
- A reply is assumed to carry `improvedPrompt`, since the response schema marks it as required.
- The prompt template prose around the interpolated values (index.tsx:294-298 and
  index.tsx:354-366) is left out. `BeginGenerate` returns only the prompt it interpolates, and
  `RefineRequest` holds only the base prompt and the context.
- File encoding is not modelled: `FileReader`, base64 and inline data. A request part holds
  the attachment itself. The reader's promise settles only from `onloadend`, so a failed read
  never reaches the `catch` block; the model does not cover that path.
- Streamed chunk text is assumed to be a string. An undefined `chunk.text` would append the
  text "undefined".
- Model messages have no `files` field in the source. The model uses the empty list, which
  renders the same.
- Concurrency is not modelled. A handler runs from click to reply in one step, or as an
  explicit Begin/Complete pair. Interleavings of two in-flight handlers are not covered, and
  neither are the buttons that are disabled while loading.
- Three updaters change objects shared with the previous React state in place: the last
  message in `AppendChunk` (index.tsx:646-651) and `FailStream` (index.tsx:655-659), and the
  answer entry in `RemoveAnswerFile` (index.tsx:409-416). The model builds a new value, and the
  aliasing of the previous state is not captured.
- Rendering is not modelled: JSX, the loading screen, the navigation bar, the info pages,
  theme switching, scrolling, and the hidden file-input elements. Navigation is covered only
  by `CopyToChat`.
- Changing page unmounts the JnX page, which discards its session. The model's session object
  outlives a page change.
- The clipboard write and the two-second delay are not modelled. The clipboard's answer is a
  parameter, and the timer firing is `CopyIndicatorExpired`.
- Improver.Session.AddAnswerFiles: `picked` is the file list as it stands when the change event
  fires. The source reads `e.target.files` inside the updater it passes to `setAnswers`
  (index.tsx:401), and then empties the input with `e.target.value = ''` (index.tsx:404). If
  React defers that updater past line 404, the list it reads may be empty, and the entry gains
  no files. The model assumes the updater sees the picked files. The chat's `AddFiles`
  (index.tsx:671-675) never clears its input, so it does not depend on this.
- Indices are natural numbers. The page never passes negative or fractional positions.
- Strings are sequences of Unicode scalar values, not UTF-16 code units, so a lone surrogate in
  the user's input cannot be represented. `trim` removes only characters of the Basic
  Multilingual Plane, so trimming is unaffected.
