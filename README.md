# Viral titles client: a verified model

Angel Frame is a small React client. A content creator fills in a research form: niche, subject, twelve research lists about the audience, and the wanted objective, trigger, structure, tone and format. The client asks a hosted LLM for six viral titles, either with a JSON schema or, in trend mode, with live search grounding. The answers are kept as a history of batches with a cursor. For any title it can then ask for a short-video script, kept as a history of variants with its own cursor. The form can auto-fill one research list from the model, and can save and load named profiles.

This project models the deterministic core of that client in Dafny and proves what it does:

- `types.dfy` (`Types`): the records of `types.ts` and the option lists of `constants.ts`.
- `strings.dfy` (`Strings`): the JavaScript string operations the core relies on, with their JavaScript semantics. These are `trim`, `trimEnd`, `indexOf`, `lastIndexOf`, `substring` (which clamps and swaps its bounds), `includes`, `replace` with a string pattern (first occurrence only), `toLowerCase`, `join` and `split`.
- `gemini_service.dfy` (`GeminiService`):
  - `cleanJsonString`;
  - the request shaping of `generateViralTitles`: the mode switch, the subject instruction, the "Não informado" defaults and the prompt grown with `+=`;
  - the extraction and attaching of grounding sources;
  - the parse chain and the wrapping of a non-array value;
  - the error paths;
  - the label branching of `generateResearchField`.
  The provider call, `JSON.parse` and the regular-expression fallback are function-valued parameters.
- `title_results.dfy` (`TitleResults`): the sources panel, which takes the first title's sources, de-duplicates them by uri, shows four and adds a "+N" counter. Also the copy-all text and the empty-state guard.
- `script_modal.dfy` (`ScriptModal`): the plain-text export of a script (`getScriptText`), the empty-text guard of copy and download, and the "i/n" counter.
- `input_form.dfy` (`InputForm`): the form record, its single-field updates and toggles, the accordion, `canAutoFill`, the auto-fill merge, and the saved-profile map. The component itself is the class `FormController`. Its fields are the component's state hooks, plus the profile map held in local storage.
- `app.dfy` (`App`): the page's session state machine. The datatype `Session` and one transition function per handler form the specification. The class `SessionController` has the state hooks as fields, and each handler is a method proved to produce that transition. It is also proved to keep the cursor invariant.
  - The outcome of `generateViralTitles` and `generateViralScript` is a parameter of each transition.
  - Sequences of handlers are modelled by `Run`. Each action in the sequence carries the reply its service call receives, so two calls with the same form can be answered differently. Several lemmas cover whole runs.

Where the code's behaviour departs from what its names, comments and labels suggest, the model follows the code:

- Appending a batch (load-more, commented "Auto move to new batch") or a script variant (regenerate) moves the cursor to old cursor + 1. That is the new last entry only when the cursor was already on the last one (`LoadMoreLandsOnNewBatch`, `RegenerateLandsOnNewScript`).
- The handlers themselves only keep the cursor within [0, length]. `handleLoadMore` does not check that the list is shown: after a failed first generation, a load-more would leave one batch with the cursor at 1 (`LoadMoreAfterFailedGenerate`). The page offers load-more, the arrows and the script buttons only while the list is shown. When every action is taken through a control on the page, the cursor of a non-empty history is always on a batch (`OfferedRunKeepsCursorOnBatch`). The page can still break this by pressing "Voltar" while a load-more is in flight, but that interleaving is outside the model (see "Left out").
- Reset sets the batch cursor to 0 and leaves the script cursor where it was.
- `cleanJsonString` tries the cut from the first `[` to the last `]` first, and only then strips fences. It is used only in trend mode. Structured mode parses the raw text directly.
- Every trend-mode failure, including a provider error, surfaces as one fixed error.
- A failed regenerate only logs the error. No error is surfaced in the dialog.

## Model

| member | source | states |
|---|---|---|
| Strings.Trim | services/geminiService.ts:131 | `trim()` gives a contiguous slice of the input with white space on neither end. Only white space is cut on either side, and the result is empty exactly when the input is all white space. |
| Strings.IndexOf | services/geminiService.ts:123 | The first position holding the character, or -1 exactly when it does not occur. |
| Strings.LastIndexOf | services/geminiService.ts:124 | The last position holding the character, or -1 exactly when it does not occur. |
| Strings.Substring | services/geminiService.ts:127 | `substring` returns the slice between the bounds, taken in either order, and always a slice of the input. |
| Strings.ReplaceFirst | components/InputForm.tsx:155 | A string pattern replaces only its first occurrence: the result is the text before it, the replacement, then the text after it. Without an occurrence the text is unchanged. |
| Strings.ToLower | services/geminiService.ts:364 | Lower-casing keeps the length and maps each character on its own. |
| Strings.SplitJoin | components/TitleResults.tsx:41 | Splitting a `join("\n")` of line-free pieces gives back exactly the pieces. |
| Strings.JoinSplit | components/TitleResults.tsx:41 | Joining the pieces of a split with the separator gives back the text. |
| GeminiService.StripFencesRemovesAll | services/geminiService.ts:131 | After the fence-removing `replace` no "```" is left in the text. |
| GeminiService.StripFencesKeepsFenceFree | services/geminiService.ts:131 | Text without a fence passes the `replace` unchanged. |
| GeminiService.CleanJsonString | services/geminiService.ts:120-135 | Covers the three cases. With the first `[` before the last `]`, the result is that slice of the input, starting with `[` and ending with `]`. With the `]` first, the swapped slice between them holds no bracket. Without both brackets, the result is the fence-stripped text, trimmed, with no fence and no white space at either end. |
| GeminiService.CleanJsonSwapExample | services/geminiService.ts:126-127 | "]x[" cleans to "x", because of `substring`'s swap. |
| GeminiService.TitlesConfig | services/geminiService.ts:146-151 | Trend mode sets the search tool. Otherwise it sets the JSON MIME type and the three-field schema. Exactly one of the two is set, and the system instruction is always the persona. |
| GeminiService.TitlesModel | services/geminiService.ts:228 | The trend model is chosen exactly when trend mode is on. |
| GeminiService.Informed | services/geminiService.ts:176-191 | An empty research value is rendered as "Não informado", and any other value as itself. |
| GeminiService.SubjectInstruction | services/geminiService.ts:153-166 | Without auto-subject, the line is "Assunto Principal Definido pelo Usuário: " + subject. With it, the instruction names the niche in quotes. |
| GeminiService.PromptReportsResearch | services/geminiService.ts:175-191 | Each of the twelve research fields reaches the prompt as its own labelled line, never empty. |
| GeminiService.PromptCarriesSubject | services/geminiService.ts:168-173 | The subject instruction reaches the prompt. |
| GeminiService.ExtractSources | services/geminiService.ts:264-267 | Every source comes from a chunk with `web` and a non-empty uri. No source has an empty uri or title, since the title defaults to "Fonte Web". |
| GeminiService.ExtractSourcesComplete | services/geminiService.ts:264-267 | Every usable chunk's source is in the list. |
| GeminiService.ExtractSourcesOne | services/geminiService.ts:266-267 | A single chunk gives its own source when it has `web` and a non-empty uri, and nothing otherwise. |
| GeminiService.ExtractSourcesAppend | services/geminiService.ts:265-267 | Chunks are processed in order and each on its own. The sources of two runs of chunks are those of the first followed by those of the second, so order and repetitions are kept. |
| GeminiService.AttachSources | services/geminiService.ts:269-271 | A non-empty list is attached, the same list to every title, and nothing else changes. An empty list leaves the titles unchanged. |
| GeminiService.TrendParse | services/geminiService.ts:247-261 | Parses the cleaned text first, then the pattern match of the raw text, then gives up. |
| GeminiService.AsList | services/geminiService.ts:277-283 | A non-array value becomes a one-element list, and an array is returned as is. |
| GeminiService.TitlesOutcome | services/geminiService.ts:239-292 | The outcome of one reply: the causes of every error, the parsed titles in structured mode, and the recovered titles with sources attached in trend mode. Every trend-mode failure becomes the one fixed error. A structured reply with text that parses always yields titles. So does a trend reply whose text is recovered, as long as it is an array or there are no sources. |
| GeminiService.TrendTitlesCarrySources | services/geminiService.ts:263-271 | In trend mode with usable sources, every returned title carries exactly that list. |
| GeminiService.BuildTitlesRequest | services/geminiService.ts:145-236 | The step-by-step request building (subject instruction, prompt `+=`, model and config) produces the mode's model, configuration and prompt. |
| GeminiService.InterpretReply | services/geminiService.ts:239-292 | The step-by-step reply handling gives the outcome `TitlesOutcome` specifies. |
| GeminiService.GenerateViralTitles | services/geminiService.ts:137-293 | A missing key fails before any provider call. Otherwise the provider's reply to the mode's request is interpreted as `TitlesOutcome` specifies. |
| GeminiService.FocusFor | services/geminiService.ts:363-411 | On the lower-cased label, "característica" selects the characteristics focus. Failing that, "viola", "disrupção" or "expectativa" selects the disruption focus, and anything else the general one. Both directions are stated. |
| GeminiService.GenerateResearchField | services/geminiService.ts:357-435 | A missing key fails first. A provider error passes through. No text gives "", and otherwise the result is the trimmed text, so it never has white space at either end. |
| TitleResults.SourcesOf | components/TitleResults.tsx:54 | Only the first title's sources are used. There are none when titles are missing or empty, or the first title has none. |
| TitleResults.PanelShowsAttachedSources | components/TitleResults.tsx:54 | For titles built by `AttachSources`, the panel reads exactly the attached list. |
| TitleResults.FindUri | components/TitleResults.tsx:55 | `findIndex` by uri returns the first position with that uri, or -1 when none has it. |
| TitleResults.DedupFromOrdered | components/TitleResults.tsx:55 | The kept entries follow the order of their first occurrences. |
| TitleResults.DedupFromComplete | components/TitleResults.tsx:55 | Every first occurrence is kept. |
| TitleResults.UniqueSources | components/TitleResults.tsx:55 | Each kept entry is the first occurrence of its uri, in input order. No two entries share a uri, and every input uri is represented. |
| TitleResults.SourceLinks | components/TitleResults.tsx:198 | At most four links are shown: the first min(n, 4) unique sources. |
| TitleResults.MoreCounter | components/TitleResults.tsx:210-211 | The counter appears exactly when there are more than four sources, and is then positive. |
| TitleResults.ShownPlusCounted | components/TitleResults.tsx:198-211 | Shown links plus the counter account for every unique source. |
| TitleResults.ShowsSourcesPanel | components/TitleResults.tsx:191 | The panel is rendered exactly when the first title has at least one source. |
| TitleResults.TitleTexts | components/TitleResults.tsx:41 | The titles' texts, in order. |
| TitleResults.CopyAllRoundTrip | components/TitleResults.tsx:40-45 | Splitting the copy-all text at line breaks gives back every title, in order, when no title holds a line break. |
| TitleResults.ShowsEmptyState | components/TitleResults.tsx:58-65 | The empty state shows exactly for missing or empty titles, and then no sources panel shows. |
| ScriptModal.LayoutEdges | components/ScriptModal.tsx:38-52 | The layout begins and ends with a visible character. |
| ScriptModal.TrimFramed | components/ScriptModal.tsx:53 | Trimming the template keeps the layout whole and cuts only the white space around it and after the call to action. |
| ScriptModal.ScriptTextShape | components/ScriptModal.tsx:36-54 | For a script: the title line, the rule, the four headers in fixed order each followed on the next line by its field, and the call to action. The call to action has its trailing white space removed, and is dropped when blank. |
| ScriptModal.ScriptTextStartsWithTitle | components/ScriptModal.tsx:38-39 | The exported text starts with "TÍTULO: " + title. |
| ScriptModal.ScriptTextEmptyIffNoScript | components/ScriptModal.tsx:36-54 | The text has no white space at either end, and is empty exactly when there is no script. |
| ScriptModal.ExportPayload | components/ScriptModal.tsx:56-75 | Copy and download act exactly when there is a script, and always on the non-empty export text. |
| ScriptModal.HistoryCounter | components/ScriptModal.tsx:95-98 | The counter shows exactly for more than one variant, as position + 1 over the length. |
| InputForm.WithField | components/InputForm.tsx:133-136 | The named field takes the value, and every other field and both switches are unchanged. |
| InputForm.WithFieldWriteBack | components/InputForm.tsx:135 | Writing back a field's own value leaves the record unchanged. |
| InputForm.WithFieldOverwrite | components/InputForm.tsx:135 | A second write to a field overrides the first. |
| InputForm.TrendsToggled | components/InputForm.tsx:138-140 | Flips `useTrends` and nothing else. |
| InputForm.AutoSubjectToggled | components/InputForm.tsx:142-144 | Flips `autoSubject` and nothing else. |
| InputForm.ToggleTwice | components/InputForm.tsx:138-144 | Toggling either switch twice restores the record. |
| InputForm.Toggled | components/InputForm.tsx:129-131 | Selecting the open group closes it. Selecting any other group opens that one alone. |
| InputForm.ToggledTwice | components/InputForm.tsx:129-131 | Selecting one group twice returns the accordion to where it was, unless another group had been open. |
| InputForm.InitialForm | components/InputForm.tsx:90-115 | Empty texts, both switches off, and the first option ("IA Decide" for four of the lists) in every select. |
| InputForm.AutoFillSubject | components/InputForm.tsx:158 | With auto-subject the placeholder "(IA Definirá Assunto)" is sent, otherwise the subject. |
| InputForm.AutoFillHasContext | components/InputForm.tsx:177 | `canAutoFill` holds exactly when the request would carry a non-empty niche and a non-empty subject. |
| InputForm.InitialCannotAutoFill | components/InputForm.tsx:177 | The initial form cannot auto-fill. |
| InputForm.CleanLabel | components/InputForm.tsx:155 | Only the first "Exemplo: " is removed. A leading one is cut off, and a label without one is unchanged. |
| InputForm.Merge | components/InputForm.tsx:167 | An empty field takes the suggestion. Otherwise the result is the old text, a line break, then the suggestion. |
| InputForm.MergeAddsLine | components/InputForm.tsx:167 | Read as lines, the merged field is the old lines plus the suggestion as one more. |
| InputForm.AutoFilled | components/InputForm.tsx:161-173 | A failed request changes nothing. A reply is merged into the named field only. |
| InputForm.AutoFillKeepsText | components/InputForm.tsx:165-168 | The old field text is a prefix of the new one. |
| InputForm.IsBlankIffAllSpace | components/InputForm.tsx:190 | A name is blank after `trim()` exactly when it is all white space. |
| InputForm.SuggestedName | components/InputForm.tsx:184-186 | A name is proposed exactly when the niche or the subject is filled in. |
| InputForm.SuggestedNameNotBlank | components/InputForm.tsx:184-190 | A proposed name passes the blank-name guard and has no white space at either end. |
| InputForm.StoreProfile | components/InputForm.tsx:193-195 | The name is added or overwritten with the form, and every other entry stays. |
| InputForm.RemoveProfile | components/InputForm.tsx:230-231 | Exactly the named entry goes, and the rest keep their forms. |
| InputForm.LookupProfile | components/InputForm.tsx:219-220 | A form is found exactly for a stored name. |
| InputForm.ProfileLaws | components/InputForm.tsx:189-234 | A saved form is found under its name, and saving twice keeps the last. Deleting a freshly saved name is deleting it from the old map, and a deleted name is gone. |
| InputForm.ProfileIndependence | components/InputForm.tsx:194 | Saving or deleting one name does not change what another name finds. |
| InputForm.FormController.constructor | components/InputForm.tsx:89-127 | The initial state: the initial form, the first group open, no notice, dialogs closed, and no field loading. |
| InputForm.FormController.ToggleSection | components/InputForm.tsx:129-131 | The open group becomes `Toggled` of the old one. |
| InputForm.FormController.HandleChange | components/InputForm.tsx:133-136 | The form becomes `WithField` of the old form. |
| InputForm.FormController.HandleToggleTrends | components/InputForm.tsx:138-140 | Flips the trend switch of the form. |
| InputForm.FormController.HandleToggleAutoSubject | components/InputForm.tsx:142-144 | Flips the auto-subject switch of the form. |
| InputForm.FormController.HandleSubmit | components/InputForm.tsx:146-150 | The form is handed on exactly when no generation is loading. |
| InputForm.FormController.HandleAutoFill | components/InputForm.tsx:153-174 | Asks with the niche, the auto-fill subject and the cleaned label, then merges a reply in. The spinner is cleared on both outcomes. |
| InputForm.FormController.HandleOpenSave | components/InputForm.tsx:181-187 | Opens the dialog and proposes the suggested name when there is one. Otherwise the name box keeps its text. |
| InputForm.FormController.EditProfileName | components/InputForm.tsx:690 | Typing replaces the name box's text. |
| InputForm.FormController.HandleConfirmSave | components/InputForm.tsx:189-204 | A blank name changes nothing. Otherwise the form is stored under the untrimmed name, the notice says saved, the dialog closes and the box empties. |
| InputForm.FormController.ClearSaveStatus | components/InputForm.tsx:200 | The timer's callback clears the notice. |
| InputForm.FormController.HandleOpenLoad | components/InputForm.tsx:207-216 | The dialog lists what storage holds now. |
| InputForm.FormController.HandleSelectProfile | components/InputForm.tsx:218-226 | A listed name replaces the form, sets the loaded notice and closes the dialog. Any other name changes nothing. |
| InputForm.FormController.HandleDeleteProfile | components/InputForm.tsx:228-234 | The listed profiles lose exactly that name, and storage is overwritten with that list. |
| InputForm.SaveLoadRoundTrip | components/InputForm.tsx:189-226 | Save under a non-blank name, edit a field, open the load dialog and select that name. The form comes back as it was saved, not as edited, storage holds it under the name, and the loaded notice shows. |
| App.Initial | App.tsx:32-48 | The initial session. |
| App.StartGeneration | App.tsx:82-94 | Before the service answers: loading, no error, the form as snapshot, and the last progress message. Both histories are untouched. |
| App.Generate | App.tsx:81-107 | Success leaves exactly one batch, cursor 0 and no error. Failure keeps the batches and cursor and reports the error. The snapshot is always taken and the script half never changes. |
| App.LoadMore | App.tsx:109-120 | Without a snapshot nothing happens. Success appends the batch, keeps the earlier ones and moves the cursor to old + 1. Failure changes only the error. |
| App.PreviousBatch | App.tsx:122-126 | Moves the cursor down by one exactly when `hasPrevious`, and is otherwise a no-op. |
| App.NextBatch | App.tsx:128-132 | Moves the cursor up by one exactly when `hasNext`, and is otherwise a no-op. |
| App.Reset | App.tsx:134-141 | Idle, with no batches, cursor 0, no error, no snapshot and no scripts. The script cursor, the dialog and the loading message are kept. |
| App.CreateScript | App.tsx:144-162 | Opens the dialog on an empty history for the title, with cursor 0. With a snapshot the history becomes exactly the new script, or stays empty on failure, and loading ends. Without one it keeps loading. |
| App.RegenerateScript | App.tsx:164-176 | Guarded by a title and a snapshot. Success appends and moves the cursor to old + 1, failure keeps the history, and loading ends. |
| App.ScriptPrev | App.tsx:178-180 | Moves the script cursor down exactly when `hasPrevious`. |
| App.ScriptNext | App.tsx:182-184 | Moves the script cursor up exactly when `hasNext`. |
| App.CloseScriptModal | App.tsx:262 | Closing the dialog changes only its flag. |
| App.DisplayedBatch | App.tsx:238 | The shown batch is `titleBatches[currentBatchIndex]`, present exactly when the cursor is in range. |
| App.CurrentScript | App.tsx:263 | The dialog's script is `scriptHistory[currentScriptIndex]`, present exactly when the cursor is in range. |
| App.InitialInvariant | App.tsx:32-48 | The initial session satisfies the cursor invariant. |
| App.StepKeepsInvariant | App.tsx:81-184 | Every handler keeps the cursor invariant, whatever its service answers. The invariant: the batch cursor lies in [0, length], and is on a batch whenever results are shown. |
| App.RunKeepsInvariant | App.tsx:81-184 | Any sequence of handlers keeps the cursor invariant, with each service call answered on its own. |
| App.OfferedStepKeepsCursorOnBatch | App.tsx:236-250 | A handler reached through a control on the page keeps the cursor of a non-empty history on a batch. |
| App.OfferedRunKeepsCursorOnBatch | App.tsx:236-250 | Any sequence of handlers, each reached through a control on the page, keeps the cursor of a non-empty history on a batch. |
| App.LoadMoreAfterFailedGenerate | App.tsx:109-115 | `handleLoadMore` has no guard of its own. After a failed first generation, a load-more that the page does not offer would leave one batch with the cursor at 1. |
| App.BatchesOnlyGrow | App.tsx:109-132 | Without a generation or a reset, every batch stays where it is, whatever the services answer. |
| App.ScriptsOnlyGrow | App.tsx:164-184 | Without a new script or a reset, every variant stays where it is, whatever the services answer. |
| App.FirstGenerationShowsOneBatch | App.tsx:96-101 | A successful first generation shows exactly its batch, with both arrows disabled. |
| App.BatchNavigation | App.tsx:243-244 | Each arrow changes the session exactly when its flag is on, and keeps an in-range cursor in range. |
| App.ScriptNavigation | App.tsx:268-269 | The same for the script arrows. |
| App.ResetIdempotent | App.tsx:134-141 | Reset twice is reset once. |
| App.ShownBatchInRange | App.tsx:236-246 | While results show, the cursor is on a batch and the "i/n" indicator is in range. |
| App.LoadMoreLandsOnNewBatch | App.tsx:115 | After a successful load-more the cursor is on the last batch exactly when it was on the last one before. |
| App.RegenerateLandsOnNewScript | App.tsx:170 | The same for regenerate and the script cursor. |
| App.RegenerateAfterFailedCreate | App.tsx:144-176 | After a failed first script, a successful regenerate leaves the cursor past the only script. Nothing is shown or exportable, although "previous" is enabled. |
| App.ResetClearsExport | App.tsx:134-141 | After reset the dialog has no script and copy and download do nothing. |
| App.SessionController.constructor | App.tsx:32-48 | The hooks start as the initial session. |
| App.SessionController.StartGenerating | App.tsx:82-94 | The assignments before the service call, progress messages included, give `StartGeneration`. |
| App.SessionController.HandleGenerate | App.tsx:81-107 | The new state is `Generate` of the old, and the cursor invariant is kept. |
| App.SessionController.HandleLoadMore | App.tsx:109-120 | The new state is `LoadMore` of the old, and the cursor invariant is kept. |
| App.SessionController.HandlePreviousBatch | App.tsx:122-126 | The new state is `PreviousBatch` of the old, and the cursor invariant is kept. |
| App.SessionController.HandleNextBatch | App.tsx:128-132 | The new state is `NextBatch` of the old, and the cursor invariant is kept. |
| App.SessionController.HandleReset | App.tsx:134-141 | The new state is `Reset` of the old, and the cursor invariant is kept. |
| App.SessionController.HandleCreateScript | App.tsx:144-162 | The new state is `CreateScript` of the old, and the cursor invariant is kept. |
| App.SessionController.HandleRegenerateScript | App.tsx:164-176 | The new state is `RegenerateScript` of the old, and the cursor invariant is kept. |
| App.SessionController.HandleScriptPrev | App.tsx:178-180 | The new state is `ScriptPrev` of the old, and the cursor invariant is kept. |
| App.SessionController.HandleScriptNext | App.tsx:182-184 | The new state is `ScriptNext` of the old, and the cursor invariant is kept. |
| App.SessionController.HandleCloseScriptModal | App.tsx:262 | The new state is `CloseScriptModal` of the old, and the cursor invariant is kept. |

## Left out

- Authentication: services/supabase.ts, components/LoginPage.tsx, the session effect and the login and logout handlers of App.tsx. They are calls into an external identity service.
- The provider calls, `JSON.parse` and the regular expression `/\[\s*\{.*\}\s*\]/s` are parameters with no behaviour of their own. Parsing yields an array of titles or a single title. Other JSON values (null, numbers, strings) are not represented.
- `generateViralScript` is not modelled beyond its outcome, which the session handlers take as a parameter.
- `temperature`, and the `try`/`catch` around `cleanJsonString`, which cannot throw on a string.
- The wording of the prompts. The persona prompt, the trend-mode instructions, the structured-mode task and the opening of the auto-subject paragraph are short stand-ins. The prompt's own labels, the research defaults and the subject line are kept.
- GeminiService.SubjectInstruction: the auto-subject paragraph is a stand-in, so the contract states only that it names the niche in quotes.
- GeminiService.GenerateResearchField: the prompt text is not built. The request records the label, niche, subject and the chosen focus instead.
- Error messages: the errors the service throws are distinct constructors of `ServiceError`, not their message strings.
- Strings.ToLower: lower-casing covers the ASCII and Latin-1 letters only, which is every letter in the keywords compared against. Other scripts are left as they are.
- Local storage: the profile map is the `storage` field. The JSON encoding, and the `catch` branches for unreadable storage in `handleConfirmSave` and `handleOpenLoad`, are not modelled.
- Timers: the simulated delays of `handleGenerate` are not modelled. The notice-clearing timeout is the separate method `ClearSaveStatus`, and the "copied" flags are not modelled at all.
- The clipboard, the `Blob` download and the DOM. The model stops at the text handed to them (`ExportPayload`, `CopyAllText`).
- React scheduling: each handler, its functional updates included, runs as one atomic step. Interleavings of in-flight asynchronous calls are not modelled. One such interleaving is pressing "Voltar" while a load-more is in flight: it ends with one batch and the cursor at 1, which `OfferedRunKeepsCursorOnBatch` rules out for atomic handlers.
- UI-only state and markup: `copiedIndex`, `isLoadingMore`, `copied`, the `isOpen` early return of the dialog, the disabled-button expressions, JSX and styling. The "+N mais" counter is modelled as its number, not its text.
- InputForm.FormController.HandleConfirmSave: the profile map is a map, not a JavaScript object. Under the name `__proto__`, the source's `currentStore[profileName] = formData` replaces the object's prototype, and `JSON.stringify` then writes no entry. The source reports "saved" but stores nothing, while the model stores the form under that name.
- TitleResults.ShowsEmptyState: the `!Array.isArray(titles)` case cannot arise in the model, since titles are typed as a sequence.
- InputForm.FormController.HandleChange: a select and a text input go through the same update. Only the text fields are nameable, and the two booleans have their own toggles.
