/** The line handler of files/parse_stream.js:123-282 as functions of the
    script's state: what one decoded event does to the state, what it writes
    to standard output, and whether it throws. */
module Stream {
  import opened Wrappers
  import opened JsValues
  import Ansi
  import ToolDetails
  import ToolResult
  import Summary

  /** The host services the script calls but does not define: JSON.parse
      (None when it throws) and JSON.stringify. */
  datatype Host = Host(parse: string -> Option<JsValue>, stringify: JsValue -> string)

  /** One write to standard output. `Done` stands for the final summary line,
      whose number formatting (toFixed, toLocaleString) is not modelled. */
  datatype Chunk =
    | Write(s: string)
    | Done(elapsed: string, cost: real, inputTokens: JsValue, outputTokens: JsValue, tools: nat)

  /** console.log of one line. */
  function LogLine(line: string): Chunk {
    Write(line + "\n")
  }

  /** The script's module-level variables (files/parse_stream.js:27-34). */
  datatype State = State(
    currentToolIndex: JsValue,
    currentToolName: JsValue,
    toolInputBuffer: string,
    lastToolName: JsValue,
    messageCount: nat,
    toolUseCount: nat)

  const Initial := State(Null, Null, "", Null, 0, 0)

  /** A decoded line, classified by the handler's chain of type tests. */
  datatype Event =
    | NullLine
    | BlockDelta(delta: JsValue)
    | BlockStart(index: JsValue, block: JsValue)
    | BlockStop
    | MessageStart
    | OtherStreamEvent
    | ToolResultEvent(data: JsValue)
    | UserEvent(data: JsValue)
    | AssistantEvent(data: JsValue)
    | ErrorEvent(data: JsValue)
    | SystemEvent(data: JsValue)
    | ResultEvent(data: JsValue)
    | Ignored

  /** Reads `data.type`, and for a stream event `event?.type`. A null
      document cannot be read (`NullLine`, the handler throws); message_stop
      and unknown nested types do nothing, and so do unknown top-level types. */
  function Decode(data: JsValue): (r: Event)
    ensures r == NullLine <==> IsNullish(data)
    ensures r.BlockDelta? || r.BlockStart? || r.BlockStop? || r.MessageStart? || r.OtherStreamEvent?
            <==> !IsNullish(data) && Get(data, "type") == Str("stream_event")
    ensures r.ToolResultEvent? || r.UserEvent? || r.AssistantEvent? || r.ErrorEvent? || r.SystemEvent? || r.ResultEvent?
            ==> r.data == data
  {
    if IsNullish(data) then NullLine
    else
      var kind := Get(data, "type");
      if kind == Str("stream_event") then
        var event := Get(data, "event");
        var nested := Get(event, "type");
        if nested == Str("content_block_delta") then BlockDelta(Get(event, "delta"))
        else if nested == Str("content_block_start") then BlockStart(Get(event, "index"), Get(event, "content_block"))
        else if nested == Str("content_block_stop") then BlockStop
        else if nested == Str("message_start") then MessageStart
        else OtherStreamEvent
      else if kind == Str("tool_result") then ToolResultEvent(data)
      else if kind == Str("user") then UserEvent(data)
      else if kind == Str("assistant") then AssistantEvent(data)
      else if kind == Str("error") then ErrorEvent(data)
      else if kind == Str("system") then SystemEvent(data)
      else if kind == Str("result") then ResultEvent(data)
      else Ignored
  }

  /** What handling one event does: the new state, what it wrote to standard
      output, and whether it threw (state changed before a throw stays changed). */
  datatype Reaction = Reaction(st: State, out: seq<Chunk>, raised: bool)

  /** content_block_delta: a truthy `text` is written as it is (the output
      stream throws on a chunk that is not a string), then a defined
      `partial_json` is appended to the buffer. */
  function OnDelta(st: State, delta: JsValue): (r: Reaction)
    ensures r.st == st.(toolInputBuffer := r.st.toolInputBuffer)
    ensures |r.out| <= 1
    ensures r.raised ==> r.st == st && r.out == []
  {
    var text := Get(delta, "text");
    if Truthy(text) && !text.Str? then Reaction(st, [], true)
    else
      var out := if Truthy(text) then [Write(text.s)] else [];
      var fragment := Get(delta, "partial_json");
      if fragment.Undefined? then Reaction(st, out, false)
      else Reaction(st.(toolInputBuffer := st.toolInputBuffer + AsString(fragment)), out, false)
  }

  predicate IsToolUse(block: JsValue) {
    Get(block, "type") == Str("tool_use")
  }

  function Header(name: JsValue): Chunk {
    LogLine("\n" + Ansi.Cyan + "\U{1F527} " + AsString(name) + Ansi.Reset)
  }

  /** content_block_start of a tool_use block opens the tool slot. */
  function OnBlockStart(st: State, index: JsValue, block: JsValue): (r: Reaction)
    ensures r.st.messageCount == st.messageCount && !r.raised
    ensures |r.out| == (if IsToolUse(block) then 1 else 0)
  {
    if !IsToolUse(block) then Reaction(st, [], false)
    else
      var name := Get(block, "name");
      Reaction(st.(currentToolIndex := index, currentToolName := name, lastToolName := name,
                   toolInputBuffer := "", toolUseCount := st.toolUseCount + 1),
               [Header(name)], false)
  }

  /** The slot after content_block_stop: no current tool, an empty buffer. */
  function Closed(st: State): State {
    st.(currentToolName := Null, currentToolIndex := Null, toolInputBuffer := "")
  }

  function DetailChunks(details: string): (r: seq<Chunk>)
    ensures 1 <= |r| <= ToolDetails.MaxDetailLines + 1
  {
    var lines := ToolDetails.DetailLines(details);
    seq(|lines|, i requires 0 <= i < |lines| => LogLine(lines[i]))
  }

  /** content_block_stop, corrected: echo the details of the current tool
      when there is one and its buffer is non-empty, then close the slot. A
      detail that is not a string shows nothing. */
  function Stop(st: State, parse: string -> Option<JsValue>): (r: Reaction)
    ensures r.st.currentToolName == Null && r.st.currentToolIndex == Null && r.st.toolInputBuffer == ""
    ensures !r.raised && |r.out| <= ToolDetails.MaxDetailLines + 1
  {
    var shown :=
      if Truthy(st.currentToolName) && st.toolInputBuffer != "" then
        match ToolDetails.Details(st.currentToolName, parse(st.toolInputBuffer))
        case Some(d) => DetailChunks(d)
        case None => []
      else [];
    Reaction(Closed(st), shown, false)
  }

  /** content_block_stop as written: when formatToolDetails returns a truthy
      non-string, `details.split` throws before the slot is reset, so the
      slot stays open. */
  function StopAsWritten(st: State, parse: string -> Option<JsValue>): (r: Reaction)
    ensures r.raised ==> r.st == st && r.out == [] && st.currentToolName == Str("Task")
    ensures !r.raised ==> r.st == Closed(st)
  {
    if Truthy(st.currentToolName) && st.toolInputBuffer != "" then
      var d := ToolDetails.DetailsAsWritten(st.currentToolName, parse(st.toolInputBuffer));
      if !Truthy(d) then Reaction(Closed(st), [], false)
      else if d.Str? then Reaction(Closed(st), DetailChunks(d.s), false)
      else Reaction(st, [], true)
    else Reaction(Closed(st), [], false)
  }

  function ResultMarker(isError: bool): Chunk {
    if isError then LogLine(Ansi.Red + "   \U{2717} Error:" + Ansi.Reset)
    else LogLine(Ansi.Green + "   \U{21B3} Result:" + Ansi.Reset)
  }

  function ResultLine(line: string): Chunk {
    LogLine(Ansi.Gray + "     " + line + Ansi.Reset)
  }

  function ResultChunks(lines: seq<string>): seq<Chunk> {
    seq(|lines|, i requires 0 <= i < |lines| => ResultLine(lines[i]))
  }

  /** The marker and the formatted result lines of one tool result, and
      whether formatting threw. */
  function ShowResult(isError: bool, content: JsValue): (r: (seq<Chunk>, bool))
    ensures |r.0| >= 1 && r.0[0] == ResultMarker(isError)
    ensures r.1 <==> ToolResult.FormattedResult(content).Raised?
    ensures r.1 || !Truthy(content) ==> r.0 == [ResultMarker(isError)]
  {
    var marker := ResultMarker(isError);
    match ToolResult.FormattedResult(content)
    case Raised => ([marker], true)
    case NoDisplay => ([marker], false)
    case Display(s) => ([marker] + (if s != "" then ResultChunks(Split(s, '\n')) else []), false)
  }

  /** A top-level tool_result event: nothing in the state changes. */
  function OnToolResult(st: State, data: JsValue): (r: Reaction)
    ensures r.st == st
    ensures |r.out| >= 1 && r.out[0] == ResultMarker(Truthy(Get(data, "is_error")))
    ensures !Truthy(Get(data, "result")) && !Truthy(Get(data, "content")) ==>
              r == Reaction(st, [ResultMarker(Truthy(Get(data, "is_error")))], false)
  {
    var shown := ShowResult(Truthy(Get(data, "is_error")), Or(Get(data, "result"), Get(data, "content")));
    Reaction(st, shown.0, shown.1)
  }

  /** The label files/parse_stream.js:194 computes for a tool result: the
      event's tool_name, else the last tool opened, else "tool". It is never
      printed. */
  function ResultToolName(st: State, data: JsValue): (r: JsValue)
    ensures Truthy(r)
    ensures r == Get(data, "tool_name") || r == st.lastToolName || r == Str("tool")
  {
    Or(Or(Get(data, "tool_name"), st.lastToolName), Str("tool"))
  }

  /** One block of a user message: a tool_result block shows its result, a
      null block throws when its type is read, any other block is skipped. */
  function UserBlock(block: JsValue): (r: (seq<Chunk>, bool))
    ensures r.0 != [] <==> !IsNullish(block) && Get(block, "type") == Str("tool_result")
    ensures IsNullish(block) ==> r.1
  {
    if IsNullish(block) then ([], true)
    else if Get(block, "type") == Str("tool_result") then
      ShowResult(Truthy(Get(block, "is_error")), Get(block, "content"))
    else ([], false)
  }

  /** Items shown one after the other, up to the first whose showing
      throws: everything written, and whether a throw ended the loop. */
  function ShowUntilThrow(items: seq<JsValue>, show: JsValue -> (seq<Chunk>, bool)): (seq<Chunk>, bool) {
    if |items| == 0 then ([], false)
    else
      var done := ShowUntilThrow(items[..|items| - 1], show);
      if done.1 then done
      else
        var shown := show(items[|items| - 1]);
        (done.0 + shown.0, shown.1)
  }

  /** The blocks of a user message, in order, up to the first that throws. */
  function UserBlocks(blocks: seq<JsValue>): (seq<Chunk>, bool) {
    ShowUntilThrow(blocks, UserBlock)
  }

  function OnUser(st: State, data: JsValue): (r: Reaction)
    ensures r.st == st
    ensures r.raised || r.out != [] ==> Get(Get(data, "message"), "content").Arr?
  {
    match Get(Get(data, "message"), "content")
    case Arr(blocks) => var shown := UserBlocks(blocks); Reaction(st, shown.0, shown.1)
    case _ => Reaction(st, [], false)
  }

  function OnAssistant(st: State, data: JsValue): (r: Reaction)
    ensures r.st == st && !r.raised
    ensures |r.out| == (if Truthy(Get(Get(data, "message"), "subagent")) then 1 else 0)
  {
    var subagent := Get(Get(data, "message"), "subagent");
    if Truthy(subagent) then
      Reaction(st, [LogLine("\n" + Ansi.Magenta + "  \U{21B3} [" + AsString(Or(Get(subagent, "type"), Str("subagent")))
                        + "] " + AsString(Or(Get(subagent, "status"), Str(""))) + Ansi.Reset)], false)
    else Reaction(st, [], false)
  }

  function OnError(st: State, data: JsValue, stringify: JsValue -> string): (r: Reaction)
    ensures r.st == st && !r.raised && |r.out| == 1
    ensures var m := Get(Get(data, "error"), "message");
            Truthy(Get(data, "error")) && m.Str? && m.s != "" ==>
              r.out == [LogLine("\n" + Ansi.Red + "\U{274C} Error: " + m.s + Ansi.Reset)]
    ensures !Truthy(Get(data, "error")) && !Truthy(Get(data, "message")) ==>
              r.out == [LogLine("\n" + Ansi.Red + "\U{274C} Error: " + stringify(data) + Ansi.Reset)]
  {
    var error := Or(Get(data, "error"), data);
    var message := Get(error, "message");
    var text := if Truthy(message) then AsString(message) else stringify(error);
    Reaction(st, [LogLine("\n" + Ansi.Red + "\U{274C} Error: " + text + Ansi.Reset)], false)
  }

  function OnSystem(st: State, data: JsValue): (r: Reaction)
    ensures r.st == st && !r.raised
    ensures |r.out| == (if Truthy(Get(data, "message")) then 1 else 0)
  {
    var message := Get(data, "message");
    if Truthy(message) then Reaction(st, [LogLine(Ansi.Yellow + "\U{2139}\U{FE0F}  " + AsString(message) + Ansi.Reset)], false)
    else Reaction(st, [], false)
  }

  const Rule := "\U{2501}\U{2501}\U{2501}\U{2501}\U{2501}\U{2501}\U{2501}\U{2501}\U{2501}\U{2501}\U{2501}\U{2501}\U{2501}\U{2501}\U{2501}\U{2501}\U{2501}\U{2501}\U{2501}\U{2501}\U{2501}\U{2501}\U{2501}\U{2501}\U{2501}\U{2501}\U{2501}\U{2501}\U{2501}\U{2501}\U{2501}\U{2501}\U{2501}\U{2501}\U{2501}\U{2501}\U{2501}\U{2501}\U{2501}\U{2501}"

  /** The result event: the rule, then the summary line; `cost.toFixed`
      throws when the cost is not a number. */
  function OnResult(st: State, data: JsValue): (r: Reaction)
    ensures r.st == st
    ensures |r.out| >= 1 && r.out[0] == LogLine("\n\n" + Rule)
    ensures r.raised <==> !Summary.Cost(data).Num?
  {
    var rule := LogLine("\n\n" + Rule);
    var cost := Summary.Cost(data);
    if !cost.Num? then Reaction(st, [rule], true)
    else
      Reaction(st, [rule, Done(Summary.Elapsed(Get(data, "duration_ms")), cost.value,
                               Summary.InputTokens(data), Summary.OutputTokens(data), st.toolUseCount)], false)
  }

  function OnEvent(st: State, ev: Event, host: Host): (r: Reaction)
    ensures r.st.messageCount >= st.messageCount && r.st.toolUseCount >= st.toolUseCount
    ensures r.raised ==> r.st == st
    ensures r.raised && !(ev.ToolResultEvent? || ev.UserEvent? || ev.ResultEvent?) ==> r.out == []
  {
    match ev
    case NullLine => Reaction(st, [], true)
    case BlockDelta(delta) => OnDelta(st, delta)
    case BlockStart(index, block) => OnBlockStart(st, index, block)
    case BlockStop => StopAsWritten(st, host.parse)
    case MessageStart => Reaction(st.(messageCount := st.messageCount + 1), [], false)
    case OtherStreamEvent => Reaction(st, [], false)
    case ToolResultEvent(data) => OnToolResult(st, data)
    case UserEvent(data) => OnUser(st, data)
    case AssistantEvent(data) => OnAssistant(st, data)
    case ErrorEvent(data) => OnError(st, data, host.stringify)
    case SystemEvent(data) => OnSystem(st, data)
    case ResultEvent(data) => OnResult(st, data)
    case Ignored => Reaction(st, [], false)
  }

  /** What one input line produces: the new state, the standard output and
      the standard error it writes. */
  datatype LineResult = LineResult(st: State, out: seq<Chunk>, err: string)

  /** The catch block: a non-blank line that failed is copied to standard error. */
  function Echo(line: string): (r: string)
    ensures r == "" <==> IsBlank(line)
    ensures r != "" ==> r == line + "\n"
  {
    if IsBlank(line) then "" else line + "\n"
  }

  function Step(st: State, line: string, host: Host): (r: LineResult)
    ensures r.err == "" || r.err == line + "\n"
    ensures host.parse(line).None? ==> r.st == st && r.out == []
  {
    match host.parse(line)
    case None => LineResult(st, [], Echo(line))
    case Some(data) =>
      var r := OnEvent(st, Decode(data), host);
      LineResult(r.st, r.out, if r.raised then Echo(line) else "")
  }

  /** Reacting to each event in turn: the final state and everything written. */
  function Fold(st: State, evs: seq<Event>, react: (State, Event) -> Reaction): (State, seq<Chunk>) {
    if |evs| == 0 then (st, [])
    else
      var before := Fold(st, evs[..|evs| - 1], react);
      var r := react(before.0, evs[|evs| - 1]);
      (r.st, before.1 + r.out)
  }

  /** The handler, with the host fixed, as a step function. */
  function Reactor(host: Host): (State, Event) -> Reaction {
    (s: State, ev: Event) => OnEvent(s, ev, host)
  }

  /** A run of events from a state: the final state and everything written. */
  function Run(st: State, evs: seq<Event>, host: Host): (State, seq<Chunk>) {
    Fold(st, evs, Reactor(host))
  }
}
