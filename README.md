# A verified model of the stream renderer `parse_stream.js`

`files/parse_stream.js` reads a stream of JSON lines, one per event, from an
LLM agent session. It renders them for a terminal:
- streamed text is passed through;
- each tool call gets a header and a short detail line;
- each tool result is echoed, cut to a few lines;
- a final summary line reports the elapsed time, the cost and the token counts.

This project models the core of that script in Dafny:
- the line handler, a single-slot state machine over six module-level variables;
- the formatter of tool details, `formatToolDetails`;
- the formatter of tool results, `formatToolResult`;
- the duration and token-alias arithmetic of the summary.

The model is split into these modules:
- `JsValues` (`js_values.dfy`): decoded JSON values and the JavaScript operations the script applies to them. That means truthiness, `||`, `?.` property reads, string conversion in template literals, `trim`, `split` and `join`.
- `Truncation`, `ToolDetails` (`tool_details.dfy`): `formatToolDetails`, and the echo of its result when a tool block stops.
- `ToolResult` (`tool_result.dfy`): `formatToolResult`. Its two loops are methods proved against the functions that specify them.
- `Summary` (`summary.dfy`): the elapsed time `Xm Ys` and the first-truthy token aliases.
- `Stream` (`stream.dfy`): the handler as pure functions. Each decoded line is an `Event`. `OnEvent` gives the new `State`, the output chunks, and whether the handler threw. `Step` adds the parse and the echo to standard error. `Run` folds a sequence of events.
- `Handler` (`handler.dfy`): the same handler as a class. Its fields are the script's globals and the two output streams. Every method is proved to do exactly what the matching `Stream` function says.
- `StreamProperties` (`stream_properties.dfy`): the properties of the state machine over one event and over runs of events.

A JavaScript throw is modelled as a `raised` result. The handler's `catch` then copies a non-blank line to standard error. State changed before the throw stays changed, as in the script. Throws happen on:
- a line holding `null`;
- a `null` block inside a user message or a result array;
- a truthy non-string `delta.text`;
- a truthy non-string result text;
- a summary cost that is not a number;
- a stop whose `formatToolDetails` result is truthy and not a string, so that `details.split` is not a function. Only a `Task` call yields such a result, and the slot then stays open (see "## Findings").

Converting a value to a string is modelled for JSON values as JavaScript converts them when nothing overrides `toString` or `valueOf`. An object converts to `[object Object]`. The throw an overriding property causes is not modelled (see "## Left out").

## Model

| member | source | states |
|---|---|---|
| `JsValues.Truthy` | files/parse_stream.js:158-160 | a truthy value is never null or undefined, and every array and every object is truthy |
| `JsValues.Or` | files/parse_stream.js:193-195 | `a || b` is one of its two operands, and it is truthy exactly when one of them is |
| `JsValues.GetOutsideObjects` | files/parse_stream.js:131-147 | reading a property of null, undefined, a boolean or a number gives undefined; on a string or an array, any property but `length` gives undefined, and `length` gives the element count, which is truthy exactly when there are elements |
| `JsValues.GetFirstProperty` | files/parse_stream.js:131-147 | on an object, a property read gives the value of the first property with that name, and undefined when no property has it |
| `JsValues.AsString` | files/parse_stream.js:141-153 | a string converts to itself, an empty array to the empty string, and an array of one element that is not null or undefined to that element's conversion |
| `JsValues.IsBlank` | files/parse_stream.js:281 | the empty line is blank, and a line whose first character is not white space is not |
| `JsValues.Split` | files/parse_stream.js:162 | `split('\n')` yields at least one piece, and no piece holds the separator |
| `Truncation.CapFits` | files/parse_stream.js:166 | a capped line fits the budget; it is the line itself exactly when the line fitted, otherwise its first `max - 3` characters followed by `...` |
| `Truncation.CapIdempotent` | files/parse_stream.js:110-112 | capping an already capped line changes nothing |
| `ToolDetails.DetailsAsWritten` | files/parse_stream.js:37-79 | `formatToolDetails` as written: input that does not parse, or parses to `null`, gives null; every other result is a string or null unless the tool is `Task` |
| `ToolDetails.Details` | files/parse_stream.js:37-79 | a shown detail is a non-empty string; input that does not parse never shows a detail |
| `ToolDetails.DetailsMatchSource` | files/parse_stream.js:37-79 | the detail shown is what `formatToolDetails` returns whenever that is a truthy string; the only truthy non-string result comes from a `Task` call |
| `ToolDetails.BashDetail` | files/parse_stream.js:41-42 | `Bash` shows `$ ` followed by its command when the command is a non-empty string, and nothing when the command is falsy |
| `ToolDetails.FieldToolDetail` | files/parse_stream.js:41-60 | each tool that shows one field shows its prefix, the field's value and its suffix when the field is truthy, and nothing when it is missing or falsy |
| `ToolDetails.TaskDetail` | files/parse_stream.js:43-46 | `Task` shows `type(description)` when a subagent type is truthy, otherwise its description when that is a non-empty string, otherwise nothing |
| `ToolDetails.TodoDetail` | files/parse_stream.js:61-63 | `TodoWrite` and `TaskCreate` show the length of a truthy `todos` followed by ` tasks`, and nothing otherwise |
| `ToolDetails.FirstKeyDetail` | files/parse_stream.js:64-74 | the fallback detail is a string or null; it is a string exactly when the first key's value is a string shorter than 80 characters, and then it reads `key: value` |
| `ToolDetails.UnknownToolDetail` | files/parse_stream.js:64-74 | an unknown tool shows `key: value` for the first key of `Object.keys` exactly when that value is a string shorter than 80 characters. An object is keyed by its first property. An array is keyed by `0` and its first item. A non-empty string shows `0: ` and its first character. A number, a boolean, and an empty object, array or string show nothing |
| `ToolDetails.NoDetailWithoutParams` | files/parse_stream.js:76-78 | unparsable input, or a document that is `null`, shows nothing for any tool |
| `ToolDetails.DetailLines` | files/parse_stream.js:162-171 | the echo of a detail has between one and four lines |
| `ToolDetails.DetailLinesShape` | files/parse_stream.js:162-171 | at most three detail lines are echoed, in order, each the line itself when it fits 100 characters and otherwise its first 97 characters and `...`; a `+N more lines` line with N = count - 3 is added exactly when there are more than three lines |
| `ToolDetails.DetailLinesSingle` | files/parse_stream.js:164-167 | a short single-line detail is echoed as that one line |
| `ToolResult.BlocksText` | files/parse_stream.js:88-93 | gathering the text of a block array succeeds exactly when no block is null or undefined |
| `ToolResult.ContentText` | files/parse_stream.js:87-98 | extracting the text fails exactly when the content is an array holding a null or undefined block; string content is its own text; the text gathered from an array is a string; for any other content, a truthy text is the content's `text` |
| `ToolResult.NonBlank` | files/parse_stream.js:103 | the filter keeps no more lines than it is given, and none of the kept lines is blank |
| `ToolResult.Rendered` | files/parse_stream.js:104-118 | the rendered lines number the kept lines up to five, plus one marker line when more than five exist; never more than six |
| `ToolResult.Capped` | files/parse_stream.js:107-114 | the loop keeps the first `min(count, 5)` lines, each at most 120 characters long, and leaves a line that already fits unchanged |
| `ToolResult.FormattedResult` | files/parse_stream.js:82-121 | falsy content gives null; truthy string content is displayed |
| `ToolResult.CollectText` | files/parse_stream.js:89-93 | the loop gathers the same text as `BlocksText` and throws exactly when `BlocksText` reports a null block |
| `ToolResult.Truncate` | files/parse_stream.js:107-118 | the index loop builds exactly the rendered lines: the first five lines capped, then the marker when lines were left out |
| `ToolResult.FormatToolResult` | files/parse_stream.js:82-121 | the method returns what the function `FormattedResult` gives: a throw, null, or the joined rendered lines |
| `ToolResult.BlocksTextAppend` | files/parse_stream.js:89-93 | only `text` blocks contribute, concatenated in array order, and a null block anywhere makes gathering throw |
| `ToolResult.OneBlockText` | files/parse_stream.js:90-92 | a single block contributes its `text` exactly when its type is `text` |
| `ToolResult.NonBlankAppend` | files/parse_stream.js:103 | filtering blank lines keeps the order of the remaining lines |
| `ToolResult.NonBlankLines` | files/parse_stream.js:103 | a line survives the filter exactly when it is a line of the text that is not blank after trimming |
| `ToolResult.RenderedShape` | files/parse_stream.js:107-118 | at most five lines are kept, in order, each the line itself when it fits 120 characters and otherwise its first 117 characters and `...`; the marker `+N more lines` with N = count - 5 is added exactly when more than five lines exist |
| `ToolResult.CappedIdempotent` | files/parse_stream.js:108-114 | rendering already capped lines caps nothing further |
| `ToolResult.RenderedSplitsBack` | files/parse_stream.js:120 | splitting the joined result on line breaks gives back exactly the rendered lines |
| `ToolResult.DisplayCases` | files/parse_stream.js:83-100 | falsy content and an empty extracted text give null; a displayed result comes from a non-empty string text, and is empty exactly when every line of that text is blank |
| `Summary.ElapsedSeconds` | files/parse_stream.js:256 | the duration is unusable (NaN) exactly when it is a truthy string, array or object; a falsy duration counts as 0 seconds |
| `Summary.TimeText` | files/parse_stream.js:257-259 | the time text has at least two characters and ends in `s` |
| `Summary.Elapsed` | files/parse_stream.js:256-259 | the elapsed time text ends in `s` and has at least two characters; a falsy duration reads `0s` |
| `Summary.Cost` | files/parse_stream.js:261 | the cost is `total_cost_usd` when truthy, else `cost_usd` when truthy, else 0 |
| `Summary.InputTokens` | files/parse_stream.js:263-267 | the input token count is truthy or else exactly 0 |
| `Summary.OutputTokens` | files/parse_stream.js:268-272 | the output token count is truthy or else exactly 0 |
| `Summary.TokenAliases` | files/parse_stream.js:263-272 | input and output tokens are each the first truthy of `total_*`, `*`, `usage.*`, `session_*`, else 0 |
| `Summary.ElapsedFloor` | files/parse_stream.js:256 | the elapsed seconds are the duration in milliseconds divided by 1000 and rounded down; a missing or falsy duration counts as 0 |
| `Summary.TimeTextShape` | files/parse_stream.js:257-259 | the time reads `Ys` below a minute and `Xm Ys` from a minute on, with 60 * X + Y the seconds and Y below 60; negative seconds keep JavaScript's signed remainder |
| `Summary.SixtyFiveSeconds` | files/parse_stream.js:256-259 | 65000 ms reads `1m 5s` |
| `Stream.Decode` | files/parse_stream.js:125-255 | a `null` document is the null line and nothing else is; the line is a stream event exactly when its `type` is `stream_event`; the other kinds carry the document itself |
| `Stream.OnDelta` | files/parse_stream.js:131-142 | a delta changes nothing but the buffer and writes at most one chunk; when it throws it changes nothing and writes nothing |
| `Stream.OnBlockStart` | files/parse_stream.js:144-154 | a block start never throws and keeps the message count; it writes one header exactly for a tool_use block |
| `Stream.StopAsWritten` | files/parse_stream.js:156-176 | a stop as written either closes the slot, or throws with the state untouched and nothing written, which happens only for a `Task` call |
| `Stream.Stop` | files/parse_stream.js:156-176 | the corrected stop always leaves no current tool, no index and an empty buffer, never throws, and writes at most four lines |
| `Stream.DetailChunks` | files/parse_stream.js:162-171 | a detail is echoed as one to four log lines |
| `Stream.OnResult` | files/parse_stream.js:255-275 | a result event keeps the state, writes the rule first, and throws exactly when the cost is not a number |
| `Stream.ShowResult` | files/parse_stream.js:197-208 | the marker for the error flag comes first; showing throws exactly when formatting the result throws, and then, or when the content is falsy, only the marker is written |
| `Stream.OnToolResult` | files/parse_stream.js:192-208 | a tool result keeps the state and writes the error or result marker first; when neither `result` nor `content` is truthy it writes only the marker and does not throw |
| `Stream.ResultToolName` | files/parse_stream.js:194 | the label is truthy, and it is the `tool_name`, the last tool opened or `tool` |
| `Stream.UserBlock` | files/parse_stream.js:215-230 | a block writes something exactly when it is a tool_result block; a null or undefined block throws |
| `Stream.OnUser` | files/parse_stream.js:211-232 | a user message keeps the state; when its content is not an array it writes nothing and does not throw |
| `Stream.OnAssistant` | files/parse_stream.js:235-240 | an assistant message keeps the state, never throws, and writes one line exactly when its subagent is truthy |
| `Stream.OnError` | files/parse_stream.js:243-245 | an error keeps the state, never throws and writes one line: the error's message when that is a non-empty string, and the stringified event when neither `error` nor `message` is truthy |
| `Stream.OnSystem` | files/parse_stream.js:248-252 | a system message keeps the state, never throws, and writes one line exactly when its message is truthy |
| `Stream.Echo` | files/parse_stream.js:281 | the echo to standard error is empty exactly when the line is blank, and otherwise the line and a line break |
| `Stream.OnEvent` | files/parse_stream.js:127-279 | no event lowers a counter; an event that throws leaves the state as it was, and writes nothing unless it is a tool result, a user message or a result |
| `Stream.Step` | files/parse_stream.js:123-282 | standard error receives nothing or exactly the line; a line that does not parse changes nothing and writes nothing to standard output |
| `Handler.StreamParser.constructor` | files/parse_stream.js:27-34 | the initial state: no tool, an empty buffer, no last tool, both counters 0, nothing written |
| `Handler.StreamParser.HandleLine` | files/parse_stream.js:123-282 | one line updates the fields and both streams exactly as `Step` says |
| `Handler.StreamParser.Dispatch` | files/parse_stream.js:127-279 | each decoded event updates the fields and standard output as `OnEvent` says, and throws exactly when it does |
| `Handler.StreamParser.HandleDelta` | files/parse_stream.js:131-142 | a delta writes its truthy text and appends a defined `partial_json` to the buffer, as `OnDelta` says |
| `Handler.StreamParser.HandleBlockStart` | files/parse_stream.js:144-154 | a tool_use start opens the slot as `OnBlockStart` says |
| `Handler.StreamParser.HandleBlockStop` | files/parse_stream.js:156-176 | a stop echoes the details and closes the slot, or throws and leaves the slot open, exactly as `StopAsWritten` says |
| `Handler.StreamParser.ShowDetails` | files/parse_stream.js:162-171 | the echo loop writes exactly the detail lines `DetailLines` specifies |
| `Handler.StreamParser.ShowToolResult` | files/parse_stream.js:197-208 | the marker, then the lines of the formatted result, as `ShowResult` says |
| `Handler.StreamParser.ShowResultLines` | files/parse_stream.js:205-207 | the `forEach` writes one indented line per piece, in order |
| `Handler.StreamParser.HandleUser` | files/parse_stream.js:211-232 | a user message is handled as `OnUser` says |
| `Handler.StreamParser.ShowUserBlocks` | files/parse_stream.js:215-231 | the block loop writes the results of the tool_result blocks in order, stopping at the first block that throws, as `UserBlocks` says |
| `Handler.StreamParser.ShowUserBlock` | files/parse_stream.js:216-230 | one block is handled as `UserBlock` says |
| `Handler.StreamParser.HandleAssistant` | files/parse_stream.js:235-240 | a truthy subagent writes its type (default `subagent`) and status |
| `Handler.StreamParser.HandleError` | files/parse_stream.js:243-245 | an error writes its message, or the stringified error when the message is falsy |
| `Handler.StreamParser.HandleSystem` | files/parse_stream.js:248-252 | a truthy system message is written |
| `Handler.StreamParser.HandleResult` | files/parse_stream.js:255-275 | the rule, then the summary, as `OnResult` says |
| `StreamProperties.StartOpensSlot` | files/parse_stream.js:147-153 | a tool_use start sets both the current and the last tool name to the block's name and the index to the event's index, empties the buffer, adds exactly one to the tool count and writes the header; the message count is kept |
| `StreamProperties.OtherStartIgnored` | files/parse_stream.js:144-154 | any other block start changes nothing and writes nothing |
| `StreamProperties.TextDeltaPassesThrough` | files/parse_stream.js:135-137 | a delta with string text and no `partial_json`, whatever else it carries, writes its text verbatim and changes no state; an empty text writes nothing |
| `StreamProperties.FragmentAppends` | files/parse_stream.js:135-142 | a defined `partial_json` is appended as a string, even when it is empty or not a string, after any string text is written; only the buffer changes |
| `StreamProperties.NonStringTextThrows` | files/parse_stream.js:135-136 | a truthy text that is not a string throws before any fragment is appended; nothing changes and nothing is written |
| `StreamProperties.FragmentsAccumulate` | files/parse_stream.js:139-142 | a run of deltas that carry `partial_json` and no text appends the concatenation of their fragments as strings, in arrival order, writes nothing and changes nothing else |
| `StreamProperties.StartThenFragments` | files/parse_stream.js:144-154 | after a start and any such run of deltas, the buffer is exactly their fragments in arrival order and the slot names the tool |
| `StreamProperties.StopCloses` | files/parse_stream.js:174-176 | the corrected stop always leaves no current tool, no index and an empty buffer, keeps the last tool name and both counters, and never throws |
| `StreamProperties.StopEcho` | files/parse_stream.js:158-172 | details are echoed only when a tool name is current and the buffer is non-empty, and then they are exactly the echo of the non-empty string detail, at most four lines; the stop throws exactly when the detail is truthy and not a string |
| `StreamProperties.StrayFragmentDiscarded` | files/parse_stream.js:140-176 | a fragment sent with no tool current lands in the buffer, and the next stop shows nothing for it and empties the buffer |
| `StreamProperties.BufferStep` | files/parse_stream.js:139-176 | only a tool_use start, a stop and a fragment delta touch the buffer; a start empties it, a stop that does not throw empties it, a fragment delta appends its fragment, and a stop that throws keeps the whole state |
| `StreamProperties.StopCompletes` | files/parse_stream.js:158-176 | when the parser never yields an input whose detail is a truthy non-string, no stop of any run throws |
| `StreamProperties.NameStep` | files/parse_stream.js:147-176 | the current tool name changes only to the name a tool_use start carries, or to null |
| `StreamProperties.TaskFreeRun` | files/parse_stream.js:156-176 | a run that opens no `Task` call, from a state whose current tool is not `Task`, never makes `Task` current, so none of its stops throws |
| `StreamProperties.BufferEmptyOutsideWindow` | files/parse_stream.js:139-176 | when every fragment arrives inside a start/stop window and no stop of the run throws, the buffer is empty whenever no window is open |
| `StreamProperties.TaskFreeBufferEmpty` | files/parse_stream.js:139-176 | for any parser, a run that opens no `Task` call and sends fragments only inside windows has an empty buffer whenever no window is open |
| `StreamProperties.OpenUntilStop` | files/parse_stream.js:144-176 | a tool_use start followed by events that hold no stop leaves a window open |
| `StreamProperties.WindowAroundFragments` | files/parse_stream.js:139-176 | fragments sent between a tool_use start and the next stop are all inside the window, and the stop closes it |
| `StreamProperties.TrapLeavesBufferFull` | files/parse_stream.js:156-176 | a `Task` call whose fragments parse to a numeric description sends every fragment inside the window, yet its stop throws, and after it no window is open while the buffer still holds every fragment and the slot still names `Task` |
| `StreamProperties.ResultLabel` | files/parse_stream.js:194 | the label of a tool result is its `tool_name`, else the last tool opened, else `tool`, and it is never falsy; it is computed but never printed |
| `StreamProperties.LabelAfterToolCall` | files/parse_stream.js:150 | after a tool call is opened, fed and closed, a result without a `tool_name` is labelled with that tool's truthy name |
| `StreamProperties.CountersStep` | files/parse_stream.js:152-180 | one event adds one to `messageCount` exactly on message_start and one to `toolUseCount` exactly on a tool_use start; the last tool name changes only on a tool_use start |
| `StreamProperties.RunCounts` | files/parse_stream.js:33-34 | over a run, the counters grow by the number of message_start events and of tool_use starts |
| `StreamProperties.MalformedLineEchoed` | files/parse_stream.js:280-281 | a line that does not parse changes nothing, writes nothing to standard output, and is copied to standard error unless it is blank |
| `StreamProperties.NullLineEchoed` | files/parse_stream.js:125-128 | a line holding `null` throws when its type is read and is echoed |
| `StreamProperties.ErrOnlyOnFailure` | files/parse_stream.js:124-282 | standard error receives nothing or exactly the line, and nothing when the line parsed and its handling did not throw |
| `StreamProperties.StopShows` | files/parse_stream.js:158-176 | a stop with a current tool, a non-empty buffer and a string detail echoes that detail and closes the slot |
| `StreamProperties.DetailChunksSingle` | files/parse_stream.js:165-167 | a short one-line detail is written as one log line |
| `StreamProperties.BashStop` | files/parse_stream.js:156-176 | stopping a Bash call whose input parses to a short single-line command echoes `$ ` and the command on one line, and closes the slot |
| `StreamProperties.BashScenario` | files/parse_stream.js:144-176 | a Bash call streamed from the initial state in any number of fragment deltas writes the header and then `$ command`; afterwards the slot is closed and one tool call is counted |
| `StreamProperties.ResultSummary` | files/parse_stream.js:255-275 | a result event writes the rule, then the summary with the elapsed time, the cost, the token aliases and the tool count; a non-number cost throws after the rule; the state does not change |
| `StreamProperties.SummaryCountsTools` | files/parse_stream.js:275 | from the initial state, the summary reports the number of tool_use blocks opened before it |
| `StreamProperties.UserBlocksAppend` | files/parse_stream.js:215-231 | the blocks of a user message are shown in order, and showing stops at the first block that throws: two runs of blocks give the output of the first, then, unless it threw, the output of the second |
| `StreamProperties.ShowUntilThrowAppend` | files/parse_stream.js:215-231 | the same composition for any way of showing one block |
| `StreamProperties.ShowUntilThrowRaised` | files/parse_stream.js:215-231 | showing items until one throws ends in a throw exactly when some item's showing throws, and writes nothing when no item writes anything |
| `StreamProperties.UserBlocksThrow` | files/parse_stream.js:215-231 | a user message throws exactly when one of its blocks throws, so always when one block is null or undefined |
| `StreamProperties.UserBlocksWithoutResults` | files/parse_stream.js:215-216 | a user message with no tool_result block and no null block shows nothing and does not throw |
| `StreamProperties.ResultEchoLines` | files/parse_stream.js:203-208 | a displayed result echoes, after its marker, exactly the rendered lines of its non-blank text |
| `StreamProperties.StopAsWrittenAgrees` | files/parse_stream.js:158-176 | where the stop as written does not throw, it equals the corrected stop; where it throws, it leaves the slot open, the corrected stop closes it, and the tool is `Task` |
| `StreamProperties.NumericDescriptionDetail` | files/parse_stream.js:43-46 | for a `Task` call whose only input is the description 5, `formatToolDetails` returns the number 5 |
| `StreamProperties.TaskSlotLeftOpen` | files/parse_stream.js:43-46 | a `Task` call with a numeric description and no subagent type makes the stop as written throw with the slot still open |

## Left out

- Reading standard input and writing the streams. Lines reach `HandleLine` one at a time, and the output is an appended sequence of chunks. `console.log` is a chunk ending in a line break; `process.stdout.write` is a chunk without one.
- `JSON.parse` and `JSON.stringify` are foreign calls. They are parameters: a `Host` value of two functions, with `None` standing for a parse that threw.
- The final summary line's number formatting, `toFixed(4)` and `toLocaleString`, is not modelled. The `Done` chunk carries the values it formats: the time text, the cost, the two token values and the tool count.
- Floating-point arithmetic is not modelled. Numbers are exact reals carrying the text `String()` gives for them, and the duration is divided and floored exactly.
- `Summary.ElapsedSeconds`: a string or array `duration_ms` is treated as NaN (`NaNs`). The model does not capture JavaScript's numeric coercion of those values.
- String lengths and the 80, 100 and 120 character limits count Unicode scalar values, not UTF-16 code units.
- Objects list their keys once, in `Object.keys` order. Duplicate keys and integer-like key ordering are left to the parser.
- `message_start`'s role check and `message_stop` do nothing beyond the counter (lines 182-189), so both are modelled as no-ops.
- `Stream.Run` folds decoded events rather than lines. The echo to standard error is stated per line by `Step`.
- The colour table is kept as constant escape sequences in module `Ansi`.
- `JsValues.AsString`: every object is taken to convert to `[object Object]`. A parsed object can override `toString` or `valueOf` with a property that is not a function, such as `{"toString":1}`, and JavaScript then throws when it converts that object. This throw is not modelled. Inside `formatToolDetails` (lines 42-63) the throw would be caught and the detail would be null. At lines 91, 141, 153, 239, 245, 251, 256 and 275 the throw would send the line to standard error. At line 91 this happens inside `formatToolResult`, after the result marker is written. At line 256 the conversion is the numeric one of `duration_ms`.

Two facts about the code bound what the model can promise:
- The code appends a `partial_json` fragment whatever the slot's state (line 141). So a fragment sent while no tool is open sits in the buffer until the next stop discards it (`StreamProperties.StrayFragmentDiscarded`). The buffer is empty outside every start/stop window only for streams that send fragments inside windows and in which no stop throws (`StreamProperties.BufferEmptyOutsideWindow`, `StreamProperties.TrapLeavesBufferFull`). Only a stop of a `Task` call can throw, so every stream that opens no `Task` call qualifies, whatever the parser (`StreamProperties.TaskFreeBufferEmpty`).
- Not only lines that fail to parse reach standard error. Any throw inside the handler sends the line there, after whatever the handler had already written. See the throws listed above.

## Findings

| source | as written | input that shows it | evidently intended | confidence | as-written member | corrected member |
|---|---|---|---|---|---|---|
| files/parse_stream.js:44-46, 160-176 | `formatToolDetails` returns the raw `description` for a `Task` without a subagent type, and the stop handler calls `details.split` on it before resetting the slot | a `Task` tool call whose input is `{"description":5}`: the detail is the number 5, `split` throws, and lines 174-176 never run, so the slot stays open with its buffer | a stop always closes the slot; a detail that is not a string shows nothing | not executed | `StreamProperties.TaskSlotLeftOpen` | `StreamProperties.StopCloses` |

`Stream.StopAsWritten` models the stop handler as written, and `Stream.OnEvent` and `Handler.StreamParser.HandleBlockStop` run it. `Stream.Stop` is the corrected handler: a detail that is not a string shows nothing and the slot is always closed. `StreamProperties.StopCloses` proves that property of it, and `StreamProperties.StopAsWrittenAgrees` proves that the two agree wherever the handler as written does not throw. The properties of runs are stated for the handler as written: `StreamProperties.BufferEmptyOutsideWindow` assumes that no stop of the run throws, and `StreamProperties.TrapLeavesBufferFull` shows that the assumption is needed.
