# Jarvis assistant core, modelled in Dafny

Jarvis is a desktop assistant that turns language-model output into calendar and task actions.

- **Renderer:** keeps a memory store (preferences, facts, topics) and a list of chat sessions. For each question it sends the question, a window of the conversation and a window of the memory to the main process. It then records the answer and mines the question for facts and preferences.
- **Main process:** asks the Gemini service for a reply and runs every function call the reply holds against the calendar and task client. It answers with the reply and one result per call.
- **Gemini service:** builds the system prompt and cleans stray HTML out of the model's text. It cuts `[FUNCTION_CALL] … [/FUNCTION_CALL]` blocks out of that text and decodes them.

The project models these pieces. It proves their contracts against specification functions, and proves lemmas about those functions.

Modules, in dependency order:

- **`Wrappers`, `Strings`:** `Option`/`Result`, and the JavaScript string built-ins the code uses (`trim`, `includes`, `substring`, ASCII `toLowerCase`, `join`).
- **`DataModel`:** the records passed between the processes. The preference object is an ordered property list with `Object.assign` semantics.
- **`FunctionCalls`:** `parseFunctionCalls`, covering the `exec` loop of a global, dot-all, non-greedy regular expression and the removal of the blocks.
- **`HtmlCleanup`:** the chain of thirteen `replace` calls.
- **`PromptComposer`:** the system prompt, assembled by `+=` loops.
- **`GeminiService`:** `generateResponse`, including the choice between the plain HTML answer and the answer with calls.
- **`Dispatcher`:** `executeFunctionCall` and the `gemini-request` handler's loop over the calls.
- **`MemoryExtraction`:** the pure specification of `addToMemory` and `extractAndSaveMemory`.
- **`ChatSessions`:** sessions, windows and result merging, as functions.
- **`Renderer`:** the renderer's globals, as a class whose methods update them in place.

Outside services become parameters:

- **The model and JSON:** the model's `generateContent`, markdown-it's `render` and `JSON.parse` are oracles in `GeminiService.Services`.
- **Formatting:** `JSON.stringify` and `toLocaleString` are oracles in `PromptComposer.Formatters`.
- **The calendar and task client:** `Dispatcher.Client`. It sees every request sent before the current one in the same batch, so it may keep state.
- **The main process, seen from the renderer:** `Renderer.Invoke`.
- **Clocks:** a `now` parameter.

The persisted `localStorage` copy of the memory is the class field `snapshot`.

An opening tag with no closing tag anywhere after it stays in the visible text; `FunctionCalls.UnclosedTagStaysVisible` shows the case.

A payload that decodes to `null` is the call `DataModel.NullCall`. The handler's loop reads its `function` property, once in the log line and again in the `catch`. The second read throws out of the loop, so the whole reply becomes the handler's error reply and the other calls' results are lost.

## Model

| member | source | states |
|---|---|---|
| FunctionCalls.ParseFunctionCalls | gemini-service.js:226-247 | the calls are the decoded payloads of every match of the regular expression, in text order; the response is the text with every match cut out, decoded or not, then trimmed |
| FunctionCalls.CollectCalls | gemini-service.js:231-238 | the `exec` loop, advancing `lastIndex` past each match, collects exactly the decoded payloads of the blocks found from the start; payloads that fail to decode add nothing |
| FunctionCalls.NextBlockIsLeftmostMatch | gemini-service.js:228 | one `exec` finds the leftmost match at or after `lastIndex`, closed by the first closing tag after the opening tag; when it finds none, no match exists anywhere after that point, since an opening tag with no closing tag after it leaves none for any later opening tag |
| FunctionCalls.NextBlockWellFormed | gemini-service.js:228 | the block found starts with the opening tag, and ends at the first closing tag after it, across line breaks |
| FunctionCalls.BlocksOrdered | gemini-service.js:231 | the matches lie after the search start, left to right and without overlap |
| FunctionCalls.BlocksWellFormed | gemini-service.js:228-231 | every match opens with the opening tag and ends at the first closing tag after it |
| FunctionCalls.NoCloseTagInPayload | gemini-service.js:228 | no payload contains a closing tag |
| FunctionCalls.CallsFromBlocks | gemini-service.js:231-238 | the calls collected by searching from a position are those of the blocks found from there, in order |
| FunctionCalls.CallsOfAll | gemini-service.js:232-234 | when every payload decodes, block `k` yields call `k` and there are as many calls as blocks |
| FunctionCalls.CallsPerBlock | gemini-service.js:231-238 | there are never more calls than blocks; when every trimmed payload decodes there is exactly one call per block, in block order |
| FunctionCalls.StrippedLength | gemini-service.js:241 | the kept characters and the characters of the removed blocks add up to the whole text |
| FunctionCalls.NoOpenTag | gemini-service.js:228-246 | a text without an opening tag gives no call, and its visible text is the trimmed input |
| FunctionCalls.UnclosedTagStaysVisible | gemini-service.js:241 | a lone opening tag is not a match: it yields no call and stays in the visible text |
| Strings.TrimSpec | gemini-service.js:241 | `trim` keeps the piece between the leading and the trailing white space; that piece neither starts nor ends with white space |
| HtmlCleanup.CleanWithoutTags | gemini-service.js:185-198 | text containing no `<` passes the whole chain unchanged |
| HtmlCleanup.RewriteUnchanged | gemini-service.js:186-198 | a rule whose leading tag does not occur leaves the text as it is |
| HtmlCleanup.ApplyRulesSplit | gemini-service.js:185-198 | the chain is its first `n` replacements followed by the rest |
| HtmlCleanup.RewriteFromSkip | gemini-service.js:186-198 | the `g` flag's scan copies, character for character, a stretch where the rule's leading tag never starts |
| HtmlCleanup.RewriteFromAt | gemini-service.js:186-198 | the `g` flag's scan: the text up to the next match is copied, the match is replaced, and the scan goes on after it, so a later match is replaced in turn |
| HtmlCleanup.RewriteInContext | gemini-service.js:186-198 | one match between texts free of `<` is replaced and the texts before and after it are kept |
| HtmlCleanup.RewriteWholePair | gemini-service.js:186-192 | a paired-tag rule turns `a + open + x + close + b`, with `x` on one line and `a`, `x`, `b` free of `<`, into `a`, the rule's prefix, `x`, its suffix and `b` |
| HtmlCleanup.PairAcrossLinesKept | gemini-service.js:186-192 | a paired tag whose content crosses a line break is not matched and is left as it is |
| HtmlCleanup.RewriteLineBreak | gemini-service.js:198 | `<br`, any white space, then `>` or `/>`, between texts free of `<`, becomes one newline and the texts are kept |
| HtmlCleanup.RewriteDelete | gemini-service.js:193-196 | a deletion rule removes its tag from between two texts free of `<` and keeps both |
| HtmlCleanup.RewriteDeleteEvery | gemini-service.js:193-196 | a deletion rule removes every occurrence of its tag: pieces free of `<` joined by the tag become the pieces, in order |
| HtmlCleanup.CleanByOneRule | gemini-service.js:185-198 | when the earlier rules find nothing, one rule's output without `<` is the chain's output |
| HtmlCleanup.CleanInText | gemini-service.js:185-198 | a match of one rule between texts free of `<`, which no earlier rule touches, comes out of the whole chain replaced, with the texts around it kept |
| HtmlCleanup.CleanPairInText | gemini-service.js:186-197 | a paired tag around one line of text, inside text free of `<` and untouched by the earlier rules, comes out of the whole chain in its Markdown form |
| HtmlCleanup.CleanStrong | gemini-service.js:189 | `a + "<strong>" + x + "</strong>" + b` becomes `a + "**" + x + "**" + b` through the whole chain, for `a`, `x`, `b` free of `<` |
| HtmlCleanup.CleanListItem | gemini-service.js:197 | `a + "<li>" + x + "</li>" + b` becomes `a + "- " + x + b` through the whole chain |
| HtmlCleanup.CleanDeletesTag | gemini-service.js:193-196 | a deleted tag that no earlier rule touches disappears from between two texts free of `<` |
| HtmlCleanup.CleanUnorderedOpen | gemini-service.js:193 | `<ul>` between texts free of `<` is deleted by the chain and the texts are kept |
| HtmlCleanup.CleanUnorderedClose | gemini-service.js:194 | `</ul>` between texts free of `<` is deleted by the chain and the texts are kept |
| HtmlCleanup.CleanOrderedOpen | gemini-service.js:195 | `<ol>` between texts free of `<` is deleted by the chain and the texts are kept |
| HtmlCleanup.CleanOrderedClose | gemini-service.js:196 | `</ol>` between texts free of `<` is deleted by the chain and the texts are kept |
| HtmlCleanup.CleanLineBreak | gemini-service.js:198 | `<br>`, `<br/>` and `<br />` between texts free of `<` become `"\n"` through the whole chain |
| PromptComposer.ComposeSystemPrompt | gemini-service.js:27-174 | the prompt built one `+=` at a time is the template with the context interpolated, then the preference, fact, calendar and conversation sections, then the question and closing block |
| PromptComposer.AppendPrefsSection | gemini-service.js:123-129 | the `forEach` appends the heading, one `- key: value` line per property in order, and a blank line, only for a non-empty object |
| PromptComposer.AppendFactsSection | gemini-service.js:131-137 | the loop appends the heading, one `- text` line per fact in order, and a blank line, only for a non-empty list |
| PromptComposer.AppendCalendarSection | gemini-service.js:140-153 | the loop appends one summary line per event, and a description line only when the event has a description; with no events it appends the no-events status line instead |
| PromptComposer.EventAppended | gemini-service.js:145-148 | the summary line, followed by the description line only when the description is truthy, is the event's lines |
| PromptComposer.AppendHistorySection | gemini-service.js:156-166 | the loop appends one `Human:` line for a user message and one `Jarvis:` line for any other, in order, only for a non-empty history |
| PromptComposer.PrefsListed | gemini-service.js:123-129 | preference `i`'s line stands in the prompt right after the lines of the preferences before it |
| PromptComposer.FactsListed | gemini-service.js:131-137 | fact `i`'s line stands in the prompt right after the lines of the facts before it |
| PromptComposer.EventsListed | gemini-service.js:140-150 | event `i`'s lines stand in the prompt right after those of the events before it |
| PromptComposer.NoEventsStatus | gemini-service.js:151-153 | with no event list, or an empty one, the prompt carries the no-events status line where the calendar part goes |
| PromptComposer.HistoryListed | gemini-service.js:156-166 | message `i`'s line stands in the prompt right after the lines of the messages before it |
| PromptComposer.SectionsOnlyWhenPresent | gemini-service.js:123-166 | the preference, fact and conversation blocks are empty exactly when there is nothing to list |
| PromptComposer.EndsWithQuestion | gemini-service.js:168-174 | the prompt ends with `Current question: <prompt>` and the closing block |
| GeminiService.GenerateResponse | gemini-service.js:178-221 | the result is the model's reply to the composed prompt, cleaned and shaped, or the model's error rethrown |
| GeminiService.AnswerPrompt | gemini-service.js:178-218 | the cleaned text is rendered as a whole when no call decodes; otherwise the visible text is rendered and returned together with the calls |
| GeminiService.CallsShape | gemini-service.js:206-218 | the object shape is returned exactly when at least one call decodes; it then holds the rendered visible text and at most one call per block, or exactly one per block in order when all decode |
| GeminiService.PlainWithoutCallTag | gemini-service.js:210-218 | a text without an opening call tag is answered with its plain rendering |
| GeminiService.TaglessReply | gemini-service.js:178-221 | a model error is rethrown as it is; a reply without `<` is shaped as the model wrote it |
| Dispatcher.ExecuteFunctionCall | main.js:76-170 | a successful call yields a success record whose `function` is the call's own name |
| Dispatcher.Dispatched | main.js:39-54 | a batch of objects yields exactly one result per call |
| Dispatcher.DispatchedAt | main.js:40-53 | in a batch of objects, result `k` is call `k`'s outcome given only the requests of the calls before it: a failure a call throws does not stop later calls, and later calls never change it |
| Dispatcher.RunFunctionCalls | main.js:39-54 | the `for` loop with its `try`/`catch` produces the dispatched results in call order when every call is an object, and otherwise the error of reading `function` of `null` |
| Dispatcher.NullCallFailsReply | main.js:39-54 | a `null` call anywhere makes the whole reply the error of reading its `function` property, so no result reaches the renderer |
| Dispatcher.UnknownFunction | main.js:167-168 | an unknown or missing name fails with `Unknown function: <name>`, with no other prefix, names its call, and sends nothing to the client |
| Dispatcher.KnownFunction | main.js:81-165 | a known call sends its request after those of the earlier calls; the client's value becomes the success record with the case's name and message, and its error becomes a failure with the case's prefix |
| Dispatcher.ResultsNameTheirCall | main.js:95-160 | every success record carries the name its switch case matched and that case's message; every failure names its call |
| Dispatcher.RequestForwardsParameters | main.js:84-153 | requests carry the call's parameters unchanged, except that a task's notes fall back to its description when the notes are empty or missing |
| Dispatcher.HandleRequest | main.js:30-72 | the handler's reply is that of the composed prompt's answer, with the calls dispatched |
| Dispatcher.ReplyTo | main.js:33-72 | the reply carries the calls and their results when the service returned calls, the response alone otherwise, and the error when the service threw |
| Dispatcher.HandlerShape | main.js:33-72 | the reply is an error exactly when the service threw or one of its calls is `null`, carrying the thrown message; it carries calls exactly when the service returned calls that are all objects, then with one result per call |
| DataModel.Assign | renderer.js:35 | `Object.assign` of one property sets that key and keeps every other key's value; a new key is appended, while an existing one keeps its place; keys stay unique |
| DataModel.AssignAllAppend | renderer.js:35 | assigning two lists of properties in turn is assigning their concatenation |
| DataModel.AssignAllLookup | renderer.js:35 | after several assignments the last write to each key wins, and unnamed keys keep their values |
| MemoryExtraction.AddedToMemory | renderer.js:27-38 | a fact is appended with the current chat id and time; a preference object is assigned; topics never change |
| MemoryExtraction.RememberCommand | renderer.js:44-48 | a message starting with `remember that ` or `remember: `, in any case, adds one fact, the message from index 14 or 10, and changes neither preferences nor topics |
| MemoryExtraction.TopicRecorded | renderer.js:102-105 | any other message adds exactly one topic, its first 50 characters |
| MemoryExtraction.FactsRecorded | renderer.js:50-90 | old facts stay as they were, and each new one is the whole message; exactly one is added per category whose keywords occur, so between 0 and 5, and none exactly when no category's keywords occur |
| MemoryExtraction.PreferencesAfter | renderer.js:35 | `Object.assign` of the rules' objects: a preference takes the last value the rules found for it, or keeps its old one |
| MemoryExtraction.UpdatesLastValue | renderer.js:55-99 | each of `name`, `job` and `location` is set by its own rule only; no rule sets any other key |
| MemoryExtraction.NameAssigned | renderer.js:55-60 | `name` takes the value the name rule found, or keeps its old value |
| MemoryExtraction.JobAssigned | renderer.js:63-70 | `job` takes the value the job rule found, or keeps its old value |
| MemoryExtraction.LocationAssigned | renderer.js:93-99 | `location` takes the value the location rule found, or keeps its old value |
| MemoryExtraction.OtherPreferencesKept | renderer.js:55-99 | every preference other than `name`, `job` and `location` is untouched |
| MemoryExtraction.PreferencesAssigned | renderer.js:55-99 | the four cases together: `name`, `job` and `location` take the value their rule found, or keep their old value; every other preference is untouched |
| MemoryExtraction.CaptureSpec | renderer.js:56-66 | a `match` capture is the whole run of class characters after the leftmost phrase occurrence, in any case, that has one; there is no capture exactly when no occurrence is followed by a class character |
| MemoryExtraction.CaptureImpliesGate | renderer.js:55-56 | a phrase that matches passes the `includes` test in front of it |
| MemoryExtraction.NameRule | renderer.js:55-60 | the name is the run of word characters after `my name is `; it is never empty |
| MemoryExtraction.JobRule | renderer.js:63-70 | the job is the trimmed capture of the first of the three patterns that matches, in the listed order; no job is set exactly when none of them matches |
| MemoryExtraction.LocationRule | renderer.js:93-99 | the location is the trimmed capture after `i live in `, or else after `i am from `; none is set exactly when neither matches |
| ChatSessions.FindChatSpec | renderer.js:273 | `find` gives the first chat with the id, and finds none exactly when no chat has it, in particular for a `null` id |
| ChatSessions.TitleRule | renderer.js:284-287 | a message of at most 30 characters is its own title; a longer message gives its first 30 characters followed by `...` |
| ChatSessions.MessageAdded | renderer.js:270-295 | the message goes to the end of the named chat only; the title changes exactly on its first message; an unknown id changes nothing |
| ChatSessions.Last | renderer.js:170 | `slice(-n)` is the last `n` items, or all of them, in order |
| ChatSessions.HistoryWindowIsRecent | renderer.js:169-184 | the history is the last `min(10, n)` messages of the current chat, taken before the question is appended to it; with no current chat it is empty |
| ChatSessions.MemoryWindowIsRecent | renderer.js:175-181 | the memory context holds the whole preference object, the last ten facts and the last five topics in order, and the events and tasks |
| ChatSessions.FragmentShape | renderer.js:207-215 | a success fragment is the `function-success` box around the message; a failure fragment is the `function-error` box around `Function failed: ` and the error |
| ChatSessions.MergedShape | renderer.js:198-221 | the merged text starts with the response, followed by each result's fragment in order, each right after those before it |
| ChatSessions.NoResultsNoChange | renderer.js:218-220 | with no results the response is unchanged |
| ChatSessions.TurnRecorded | renderer.js:184-231 | a turn appends the question and then the answer to the current chat only, and the title comes from the question when the chat was empty; with no current chat nothing changes |
| Renderer.MergeFunctionResults | renderer.js:198-221 | the `forEach` over the results followed by `join('')` yields the merged text |
| Renderer.JoinWithoutSeparator | renderer.js:219 | `join('')` is plain concatenation |
| Renderer.StagedIsExtracted | renderer.js:40-108 | running the rules one by one in the source's order, each saving what it changed, leaves the store that the extraction specifies |
| Renderer.RendererState.constructor | renderer.js:9-13 | the store starts empty, with no chats and no current chat |
| Renderer.RendererState.SaveGlobalMemory | renderer.js:15-17 | the snapshot becomes the store, and nothing else changes |
| Renderer.RendererState.AddToMemory | renderer.js:27-38 | the store becomes `AddedToMemory` of the old store, and the snapshot equals the new store |
| Renderer.RendererState.ExtractAndSaveMemory | renderer.js:40-108 | the store becomes the extraction of the old store, the snapshot equals it, and chats and current id are unchanged |
| Renderer.RendererState.RecordStatement | renderer.js:50-107 | the eight rules and the topic, in the source's order, produce the staged store, and the snapshot equals it |
| Renderer.RendererState.RecordFact | renderer.js:50-52 | a category that fires appends the message as one fact and saves; otherwise nothing changes |
| Renderer.RendererState.RecordName | renderer.js:55-60 | the name rule assigns the captured name and saves, or changes nothing |
| Renderer.RendererState.RecordJob | renderer.js:63-70 | the job rule assigns the trimmed job and saves, or changes nothing |
| Renderer.RendererState.RecordLocation | renderer.js:93-99 | the location rule assigns the trimmed location and saves, or changes nothing |
| Renderer.RendererState.CreateNewChat | renderer.js:255-268 | an empty chat titled `New Conversation` is appended and becomes current; its id is returned; memory is unchanged |
| Renderer.RendererState.AddMessageToChat | renderer.js:270-295 | the chat list becomes `WithMessage` of the old list; memory, snapshot and current id are unchanged |
| Renderer.RendererState.CallGeminiApi | renderer.js:169-231 | the question and the answer, merged with the function results or prefixed as an error, are appended to the current chat; the windows are taken before the question is added; memory is extracted only on a successful reply |

## Left out

- Events without `start` or `end` are left out: every event (`DataModel.Event`) is assumed to carry both `start` and `end`, as the calendar API supplies them. In the source, a missing one makes reading its `dateTime` throw, and `generateResponse` rethrows that error.
- calendar-service.js is not part of this model: the calendar and task client is the oracle `Dispatcher.Client`.
- DOM and UI code in renderer.js (animation, display, sidebar, start-up, key handlers, the auth dialog) is left out. The IPC fetch wrappers are left out too: the events and tasks they fetch are parameters of `CallGeminiApi`.
- The Electron window lifecycle and the per-operation IPC passthroughs of main.js are left out.
- The Gemini API call, markdown-it rendering, `JSON.parse`, `JSON.stringify` and `toLocaleString` are oracles. Their outputs are not specified.
- `cleanAndFormatResponse` and `fixBulletFormatting` are left out: no code in the modelled files calls them.
- `localStorage` I/O and `loadGlobalMemory` are left out. The persisted copy is the `snapshot` field, so serialisation is not modelled.
- `Date.now()` ids and `new Date()` timestamps are parameters. All timestamps taken within one call are the same `now`.
- async/await is modelled as ordinary sequential calls, because the flow is strictly sequential.
- Logging, `showLoadingState`/`hideLoadingState`, `updateChatSidebar` and `displayMessages` are left out: they have no effect on the modelled state.
- Renderer.RendererState.CallGeminiApi: the outer `catch` (an `invoke` or a fetch that throws, answered with `Sorry, I encountered an error.`) is not modelled, because `Invoke` is a total function.
- Strings.Lower: only ASCII letters are lowered. JavaScript's `toLowerCase` also maps other letters, and can lengthen a string, for example U+0130. The keyword tests and the `remember` prefixes therefore agree with the source only on ASCII text. The case-insensitive patterns themselves are exact, since without the `u` flag they never fold a non-ASCII character to an ASCII one.
- Strings.Take: lengths and offsets count code points, while JavaScript counts UTF-16 units. The 30- and 50-character cuts and the offsets 14 and 10 differ for characters outside the Basic Multilingual Plane.
- Dispatcher.RequestOf: parameter values are strings. A decoded payload with no `parameters` object has no parameters here. In the source, reading a property of the missing object throws inside the case's `try`, which rethrows it with the case's prefix. The model sends the request with every field missing instead.
- Dispatcher.RunFunctionCalls: for a `null` call the error message is the one V8 gives the `TypeError` (`Dispatcher.NullCallError`); other engines word it differently. The requests the calls before a `null` call send still reach the client, but the model does not record them, since nothing the renderer sees depends on them.
- Dispatcher.ExecuteFunctionCall: the value the client resolves to is kept as an opaque string. The object the calendar API returns is not modelled.
- HtmlCleanup.CleanInText: the whole-chain lemmas take one replaced tag or pair inside text with no other `<`. Texts in which several tags meet are covered by the definition `Clean` and by the one-rule lemmas (`RewriteFromAt` for each match in turn), not by a whole-chain lemma.
- MemoryExtraction.AddedToMemory: only the two `type` values the source passes (`'fact'` and `'preference'`) are modelled. For any other value the source only saves.
