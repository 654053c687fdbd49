# BizAssistBD front-end core, in Dafny

BizAssistBD is a browser assistant for small businesses. A user writes a request, optionally attaches a data file, and sends it to a remote text model. The reply is rendered as HTML. This project models the two parts of the front end that carry logic.

- **The response formatter** (`formatResponse` in `components/ResponseDisplay.tsx`). It first runs a bold pre-pass: a global replacement of `/\*\*(.*?)\*\*/g` by a `<strong>` element. It then makes one pass over the lines of the result, with the two flags `inUl` and `inOl`. Each line is classified on its trimmed form:
  - an ordered item (`^\d+\.\s`);
  - an unordered item (`^[-*]\s`);
  - a paragraph, which keeps the untrimmed line;
  - a spacer, for a whitespace-only line.

  Lists are opened and closed as the kind of line changes, and a list still open at the end is closed.
- **The component's view selection** (`ResponseDisplay`). It returns, in order of precedence: the loading skeleton, the error banner, the empty placeholder, the chat layout for the "Customer Communication" skill, and the default layout.
- **The `App` state machine.** This covers:
  - the theme, read from local storage at start-up and toggled;
  - skill selection;
  - `handleGenerate`: its blank-request guard, the exact prompt template used when a file is attached, and the updates of `isLoading`, `error` and `response` around the remote call.

Modules:

| file | module | what |
|---|---|---|
| types.dfy | `Types` | `Option`, JavaScript truthiness of a string or `null`, the `Skill` record |
| js_string.dfy | `JsString` | ECMAScript whitespace and line terminators, `trim`, `split('\n')` and its inverse `Join` |
| bold.dfy | `Bold` | the bold pre-pass as the left-to-right scan the regular-expression engine performs |
| formatter.dfy | `Formatter` | the formatter, in two forms. The specification is the line classifier plus a fold `Run` over line kinds that emits abstract blocks (`OlOpen`, `OlItem`, …, `Spacer`), with `Render` mapping each block to the source's exact markup. The implementation is the source's loop (`FormatLine`, `FormatLines`, `FormatResponse`), using the two booleans and string appends, and is proved equal to the rendering of the specification. The module also holds an independent validator (`Walk`/`WellFormed`) of list nesting. |
| response_display.dfy | `ResponseDisplay` | the view precedence |
| app.dfy | `App` | the theme, the prompt template and its inverse, `Generated` (the handler on values), and the class `AppState`, whose methods update the component state in place and are proved against those functions |
| scenarios.dfy | `Scenarios` | typical inputs (numbered and dash lines, list switches, the empty response, a bold span), proved from the general lemmas |

Semantics fixed by the model, in JavaScript's terms:
- `trim` and `\s` use the ECMAScript WhiteSpace and LineTerminator set.
- `\d` is ASCII digits only.
- `.` matches no line terminator (`\n`, `\r`, U+2028, U+2029), so a bold span never crosses one.
- `split('\n')` always yields at least one piece.
- `if (error)`, `if (fileContent)` and `!response` treat the empty string as false.
- No HTML escaping is done anywhere. Reply text is inserted into the markup as it is, and the model keeps it that way.

Three behaviours of the code that are easy to overlook:
- A bold span ends at the first further `**`, and it also never extends past a line terminator, because `.` does not match one.
- `handleGenerate` performs the blank-request check itself (App.tsx:48-51).
- An empty successful reply shows the empty placeholder, and `formatResponse` is never called on it. `formatResponse("")` itself would yield one spacer.

## Model

| member | source | states |
|---|---|---|
| JsString.TrimStart | components/ResponseDisplay.tsx:23 | drops exactly the leading whitespace: the result is a suffix, what was dropped is all whitespace, and it does not start with whitespace |
| JsString.TrimEnd | components/ResponseDisplay.tsx:23 | drops exactly the trailing whitespace, symmetrically |
| JsString.Trim | components/ResponseDisplay.tsx:23 | the trimmed line neither starts nor ends with whitespace, and it is empty exactly when the line is all whitespace |
| JsString.SliceWitness | components/ResponseDisplay.tsx:23 | a prefix of a suffix, each cut only at whitespace, is a slice with whitespace before and after it |
| JsString.TrimIsSlice | components/ResponseDisplay.tsx:23 | the trimmed line is a contiguous slice of the line, and everything before and after that slice is whitespace |
| JsString.TrimUnchanged | components/ResponseDisplay.tsx:23 | a line with no whitespace at either end is its own trim |
| JsString.Split | components/ResponseDisplay.tsx:17 | `split('\n')` gives at least one piece, and no piece contains a line feed |
| JsString.JoinSplit | components/ResponseDisplay.tsx:17 | joining the pieces with line feeds gives back the text |
| JsString.SplitJoin | components/ResponseDisplay.tsx:17 | splitting line-feed-free pieces joined by line feeds gives back the pieces |
| JsString.SplitNewlineFreePrefix | components/ResponseDisplay.tsx:17 | a line-feed-free prefix only extends the first piece |
| Bold.Strong | components/ResponseDisplay.tsx:15 | the replacement `<strong class="font-semibold">$1</strong>` contains a line feed exactly when the captured text does |
| Bold.FindClose | components/ResponseDisplay.tsx:15 | the lazy group ends at the first closing `**` before any line terminator, or there is no match on this line |
| Bold.ScanStep | components/ResponseDisplay.tsx:15 | a step replaces exactly when the text starts with `**` and a closing `**` follows on the same line; the replaced span then ends at the first such closing `**` and crosses no line terminator; otherwise it copies one character |
| Bold.Embolden | components/ResponseDisplay.tsx:15 | text with no `**` passes through unchanged, and no line feed is added to text without one (the line-by-line behaviour is stated by `LineBreakSplits` and `LinesAfterEmbolden`, the general replacement by `MatchReplaced`) |
| Bold.MatchReplaced | components/ResponseDisplay.tsx:15 | text starting with `**` whose first further `**`, at `j`, is on the same line becomes `Strong(s[2..j])` followed by the pre-pass of what follows the closing `**`, whatever the span contains |
| Bold.CopiedHead | components/ResponseDisplay.tsx:15 | a first character other than a star is copied and the scan moves one position on |
| Bold.StarFreePrefix | components/ResponseDisplay.tsx:15 | text with no star is copied and the scan resumes after it |
| Bold.PairedDelimiters | components/ResponseDisplay.tsx:15 | `**x**`, where x has no star and no line terminator, becomes `Strong(x)` |
| Bold.UnpairedDelimiter | components/ResponseDisplay.tsx:15 | an opening `**` followed by text holding no `**` (single stars allowed, as in `**a*b`) stays literal |
| Bold.FindCloseStopsAtLineEnd | components/ResponseDisplay.tsx:15 | the search for a closing `**` never looks past a line terminator |
| Bold.StepStaysOnLine | components/ResponseDisplay.tsx:15 | a scan step that starts on a line ends on that line |
| Bold.LineBreakSplits | components/ResponseDisplay.tsx:15-17 | emboldening `a`, a line terminator and `b` equals emboldening `a` and `b` separately |
| Bold.CrossLineDelimiters | components/ResponseDisplay.tsx:15 | `**x` and `y**` on different lines do not pair |
| Bold.EmboldenEach | components/ResponseDisplay.tsx:15-17 | the pre-pass applied line by line |
| Bold.EmboldenJoin | components/ResponseDisplay.tsx:15-17 | emboldening joined lines equals joining the emboldened lines |
| Bold.LinesAfterEmbolden | components/ResponseDisplay.tsx:15-17 | the lines after the whole-text pre-pass are the emboldened input lines |
| Formatter.LeadingDigits | components/ResponseDisplay.tsx:26 | the maximal run of ASCII digits at the start |
| Formatter.OrderedMarker | components/ResponseDisplay.tsx:26 | when it reports a match, `^\d+\.\s` matches with that length |
| Formatter.OrderedMarkerFinds | components/ResponseDisplay.tsx:26 | whenever `^\d+\.\s` matches, `OrderedMarker` reports that match |
| Formatter.Classify | components/ResponseDisplay.tsx:23-67 | the kind of a line, tested on the trimmed line in the source's order (ordered marker, unordered marker, blank, text); its meaning is stated by `ClassifyMeaning` |
| Formatter.ClassifyMeaning | components/ResponseDisplay.tsx:23-71 | ordered item exactly when the trimmed line matches `^\d+\.\s`, keeping the rest; otherwise unordered item exactly when it matches `^[-*]\s`, keeping everything after 2 characters; otherwise spacer exactly when the line is all whitespace, and else paragraph with the untrimmed line |
| Formatter.Kinds | components/ResponseDisplay.tsx:22-23 | one kind per line, in order |
| Formatter.Run | components/ResponseDisplay.tsx:22-73 | the loop over the line kinds as a fold of `Step`; its properties are stated by `RunWalks`, `RunContents` and `RunState` |
| Formatter.Blocks | components/ResponseDisplay.tsx:17-77 | the loop followed by the final closers; stated by `BlocksWellFormed` and `BlocksFollowLines` |
| Formatter.Document | components/ResponseDisplay.tsx:15-77 | the blocks of the emboldened, split text; stated by `DocumentWellFormed`, `DocumentBalanced` and `DocumentFollowsLines` |
| Formatter.Render | components/ResponseDisplay.tsx:28-70 | the exact markup of each block (the `<ol>`, `<li>`, `</ol>`, `<ul>` with the check-mark item, `</ul>`, paragraph and spacer strings), with no escaping; its use is stated by `RenderAppend` and `FormatResponse` |
| Formatter.FlattenAppend | components/ResponseDisplay.tsx:18-79 | appending pieces block by block distributes over concatenation of block sequences |
| Formatter.RenderAppend | components/ResponseDisplay.tsx:18-79 | the markup of concatenated blocks is the concatenated markup |
| Formatter.Markers | components/ResponseDisplay.tsx:27-65 | what a line emits before its own block (the closer of the other list and an opener, or the closer of the open list) holds no item, paragraph or spacer |
| Formatter.StepWalks | components/ResponseDisplay.tsx:26-71 | each line's blocks are correctly nested, moving from the list state before the line to the state after it |
| Formatter.RunWalks | components/ResponseDisplay.tsx:22-73 | the blocks emitted so far read to the loop's current list state |
| Formatter.ClosingWalks | components/ResponseDisplay.tsx:75-77 | the final closers close the open list |
| Formatter.BlocksWellFormed | components/ResponseDisplay.tsx:22-77 | the blocks of any lines are well formed |
| Formatter.DocumentWellFormed | components/ResponseDisplay.tsx:13-80 | every formatted document is well formed: openers, items and closers nest, and no list is left open |
| Formatter.AcceptCounts | components/ResponseDisplay.tsx:27-65 | one accepted block changes the depth of each list kind by its opener count minus its closer count |
| Formatter.WalkCounts | components/ResponseDisplay.tsx:27-77 | along a walk, openers minus closers of each list kind follow the list state |
| Formatter.WalkPrefix | components/ResponseDisplay.tsx:22-77 | every prefix of a well-nested sequence is well nested |
| Formatter.DocumentBalanced | components/ResponseDisplay.tsx:27-77 | as many `<ol>` openers as `</ol>` closers, and as many `<ul>` openers as `</ul>` closers |
| Formatter.WellFormedPrefix | components/ResponseDisplay.tsx:27-65 | in every prefix of a well-formed document, closers never exceed openers and at most one list is open |
| Formatter.AtMostOneListOpen | components/ResponseDisplay.tsx:27-46 | at every point of the output at most one list is open (`inUl` and `inOl` are never both true) |
| Formatter.ContentsAppend | components/ResponseDisplay.tsx:22-73 | content blocks of concatenated sequences concatenate |
| Formatter.MarkersOnly | components/ResponseDisplay.tsx:27-65 | a sequence of openers and closers holds no content |
| Formatter.StepContents | components/ResponseDisplay.tsx:26-71 | a line contributes exactly one item, paragraph or spacer |
| Formatter.LineBlocks | components/ResponseDisplay.tsx:22-73 | one block per line kind, the i-th being the i-th line's item, paragraph or spacer |
| Formatter.RunContents | components/ResponseDisplay.tsx:22-73 | the content blocks the loop emits are exactly one block per line, in line order |
| Formatter.PassContents | components/ResponseDisplay.tsx:22-77 | the final closers add no content to what the loop emitted |
| Formatter.BlocksFollowLines | components/ResponseDisplay.tsx:22-77 | the content blocks of the lines' document are exactly each line's item, paragraph or spacer, in line order |
| Formatter.DocumentFollowsLines | components/ResponseDisplay.tsx:15-73 | every input line contributes exactly one item, paragraph or spacer, in input order, computed on the line emboldened on its own |
| Formatter.RunState | components/ResponseDisplay.tsx:29-64 | the open list after a line depends only on that line's kind |
| Formatter.OrderedRunSharesOpener | components/ResponseDisplay.tsx:31-35 | an ordered item after an ordered item emits only its `<li>` |
| Formatter.UnorderedRunSharesOpener | components/ResponseDisplay.tsx:43-54 | an unordered item after an unordered item emits only its `<li>` |
| Formatter.OrderedRunOpens | components/ResponseDisplay.tsx:27-35 | the first ordered item closes an unordered list just before it, then opens `<ol>` |
| Formatter.UnorderedRunOpens | components/ResponseDisplay.tsx:39-54 | the first unordered item closes an ordered list just before it, then opens `<ul>` |
| Formatter.PlainLineClosesList | components/ResponseDisplay.tsx:57-71 | a paragraph or spacer line first closes the open list |
| Formatter.OrderedLineShape | components/ResponseDisplay.tsx:26-35 | a line that trims to digits, a dot, one whitespace character and `x` is the ordered item `x` |
| Formatter.UnorderedLineShape | components/ResponseDisplay.tsx:38-53 | a line that trims to `-` or `*`, one whitespace character and `x` is the unordered item `x` |
| Formatter.RenderSnoc | components/ResponseDisplay.tsx:18-79 | appending one block appends its markup |
| Formatter.OrderedItem | components/ResponseDisplay.tsx:26-36 | the ordered-item branch leaves only `inOl` set and appends the markup of one specification step for an ordered line |
| Formatter.UnorderedItem | components/ResponseDisplay.tsx:38-55 | the unordered-item branch leaves only `inUl` set and appends the markup of one specification step for an unordered line |
| Formatter.FormatLine | components/ResponseDisplay.tsx:23-72 | the loop body on the two flags never leaves both set, and it moves them and the output exactly as one step of the specification does |
| Formatter.CloseLists | components/ResponseDisplay.tsx:58-77 | the closing appends, inside the loop for a plain line and after it, are the markup of the closer of the open list |
| Formatter.FormatLines | components/ResponseDisplay.tsx:17-79 | the loop and the final closers produce the markup of the specified blocks of the lines |
| Formatter.FormatResponse | components/ResponseDisplay.tsx:13-80 | `formatResponse(text)` is the markup of `Document(text)`, so every property proved of `Document` holds of its output |
| ResponseDisplay.SelectView | components/ResponseDisplay.tsx:98-142 | loading beats a truthy error, which beats an empty response, which beats the chat layout for "Customer Communication", which beats the default layout; both layouts show `formatResponse(response)` |
| ResponseDisplay.FormattedReplyNotEmpty | components/ResponseDisplay.tsx:119-142 | a formatting view is only chosen for a non-empty response, and what it shows is well formed with one content block per line |
| ResponseDisplay.SkillOnlyPicksLayout | components/ResponseDisplay.tsx:129-142 | the active skill only decides between the two reply layouts |
| Types.Truthy | App.tsx:48 | JavaScript truthiness of a string or `null` (also at App.tsx:58 and components/ResponseDisplay.tsx:110 and 119); its use is stated by `SelectView` and `FullPromptShape` |
| App.ThemeName | App.tsx:18-29 | the stored name of a theme reads back as that theme at the next start-up |
| App.InitialTheme | App.tsx:18-21 | the initial theme is light exactly when the stored value is exactly "light", and dark otherwise |
| App.InitialThemeKeepsName | App.tsx:20 | a stored "light" or "dark" is taken over unchanged |
| App.Toggled | App.tsx:33 | toggling always changes the theme |
| App.ToggleTwice | App.tsx:32-34 | toggling twice restores the theme |
| App.IsBlankRequest | App.tsx:48 | the guard: the trimmed prompt is empty and no non-empty file is attached; stated by `SentRequestNotBlank` and `Generated` |
| App.FullPrompt | App.tsx:57-60 | the request sent: the prompt, or the data template around a non-empty file with the prompt last; stated by `FullPromptShape` and `UnwrapFullPrompt` |
| App.TemplatePrefix | App.tsx:59 | the wrapped request starts with the text before the data |
| App.TemplateSuffix | App.tsx:59 | the wrapped request ends with "User Request: " followed by the prompt |
| App.FullPromptShape | App.tsx:57-60 | without a non-empty file the request is the prompt, untrimmed; with one it starts with the data template, ends with "User Request: " followed by the prompt, and is exactly as long as the template, the data and the prompt |
| App.UnwrapFullPrompt | App.tsx:59 | the attached data and the prompt can be read back from the wrapped request |
| App.SentRequestNotBlank | App.tsx:48-60 | a request that passes the guard is never all whitespace |
| App.Generated | App.tsx:47-71 | a blank request only sets the guard's message. Otherwise loading ends false, with the reply as the response and no error on success, or the generic message and an empty response on failure. Prompt, file, skill and theme are kept. |
| App.GeneratedView | App.tsx:62-70 | after a request that passed the guard, the screen shows the failure banner, the placeholder for an empty reply, or the formatted reply |
| App.BlankRequestView | App.tsx:48-51 | a blank request shows the guard's message, unless an earlier request is still loading |
| App.AppState.constructor | App.tsx:12-21 | the initial state: empty prompt and response, no file, error or skill, not loading, theme from storage |
| App.AppState.ToggleTheme | App.tsx:32-34 | only the theme changes, to its toggle |
| App.AppState.SelectSkill | App.tsx:36-38 | the prompt becomes the skill's sample prompt and the skill becomes active; nothing else changes |
| App.AppState.SetPrompt | App.tsx:91 | only the prompt changes |
| App.AppState.SetFileContent | App.tsx:92 | only the file content changes |
| App.AppState.SetActiveSkill | App.tsx:95 | only the active skill changes |
| App.AppState.BeginGenerate | App.tsx:47-60 | a blank request sets only the guard's message and sends nothing; otherwise loading starts, the error and response are cleared, and the wrapped request is sent |
| App.AppState.FinishGenerate | App.tsx:62-70 | success stores the reply unmodified, failure stores the generic message, and loading ends in both cases |
| App.AppState.Generate | App.tsx:47-71 | the handler as one transition equals `Generated` applied to the outcome of the call for the wrapped request |
| Scenarios.PlainLine | components/ResponseDisplay.tsx:15-17 | a line with no star and no line feed is left whole by the pre-pass and the split |
| Scenarios.PlainLines | components/ResponseDisplay.tsx:15-17 | two such lines joined by a line feed split back into those lines |
| Scenarios.OrderedAlone | components/ResponseDisplay.tsx:26-77 | one ordered line gives `<ol>`, its item, `</ol>` |
| Scenarios.BulletPair | components/ResponseDisplay.tsx:38-77 | two unordered lines share one `<ul>` |
| Scenarios.OrderedThenBullet | components/ResponseDisplay.tsx:26-77 | an ordered line then an unordered line close `<ol>` before opening `<ul>` |
| Scenarios.OrderedKinds | components/ResponseDisplay.tsx:23-35 | a plain line that trims to `d. x` is one ordered line |
| Scenarios.SingleOrderedItem | components/ResponseDisplay.tsx:13-80 | such a line alone formats as a one-item ordered list |
| Scenarios.BulletKinds | components/ResponseDisplay.tsx:23-53 | two plain lines that trim to `- x` and `- y` are two unordered lines |
| Scenarios.TwoBullets | components/ResponseDisplay.tsx:13-80 | they format as one unordered list of two items |
| Scenarios.SwitchKinds | components/ResponseDisplay.tsx:23-53 | lines that trim to `d. x` and `- y` are an ordered and an unordered line |
| Scenarios.ListSwitch | components/ResponseDisplay.tsx:13-80 | they format as a closed ordered list followed by a closed unordered list |
| Scenarios.EmptyResponse | components/ResponseDisplay.tsx:17-70 | `formatResponse("")` is a single spacer `<p>&nbsp;</p>` |
| Scenarios.BoldSpan | components/ResponseDisplay.tsx:15 | `**x**` followed by star-free text becomes `Strong(x)` followed by that text |

## Left out

- `services/geminiService.ts` is not part of this model. The remote call is the `service` parameter of `App.AppState.Generate`, a function from the request to `Success(text)` or `Failure`. The SDK, the API key and the system instruction are outside the model.
- Browser side effects are not modelled: the `dark` class on the document element (App.tsx:24-28), `scrollIntoView`, and the delayed click on the file input for "Business Analytics" (App.tsx:39-44). Writing the theme to local storage (App.tsx:29) appears only as `ThemeName`, whose value reads back as the same theme; `console.error` is also left out.
- `components/PromptInput.tsx` is not part of this model (file reading, the Enter-key shortcut, its `disabled` state). Only the three setters it receives are modelled.
- App.AppState.Generate: the `async` handler is one atomic transition. The state visible while the call runs is the state after `BeginGenerate`. Overlapping calls and React's batching of state updates are not modelled.
- The markup of the skeleton, error, placeholder and chat views is not modelled. `View` records which view is shown, with the formatted reply or the error text; only the formatter's markup is kept exactly.
- JavaScript strings are UTF-16 code units; the model uses Dafny characters. Every whitespace and line-terminator character involved lies in the Basic Multilingual Plane, so trimming, splitting and the bold scan are unaffected.
- Formatter.FormatLine receives the line already classified by the pure function `Classify`, instead of running the two regular-expression tests inside the loop body. The tests read only the trimmed line and change nothing, so the order of effects is the same.
- `constants.tsx`, `SkillCard`, `ThemeSwitcher` and `Header` are static data and presentational markup; the `Icon` field of a skill is dropped.
