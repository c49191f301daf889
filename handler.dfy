/** The script's module-level state and its line handler
    (files/parse_stream.js:27-34 and 123-282), updated in place, each step
    proved to do what the matching function of module Stream says. */
module Handler {
  import opened Wrappers
  import opened JsValues
  import opened Truncation
  import opened Stream
  import Ansi
  import ToolDetails
  import ToolResult
  import Summary

  class StreamParser {
    var currentToolIndex: JsValue
    var currentToolName: JsValue
    var toolInputBuffer: string
    var lastToolName: JsValue
    var messageCount: nat
    var toolUseCount: nat
    /** Everything written so far to standard output and to standard error. */
    var out: seq<Chunk>
    var err: string

    function Snapshot(): State
      reads this
    {
      State(currentToolIndex, currentToolName, toolInputBuffer, lastToolName, messageCount, toolUseCount)
    }

    /** The new state is `r.st`, standard output grew by `r.out`, standard
        error did not change, and `raised` says whether the step threw. */
    twostate predicate Reacted(r: Reaction, raised: bool)
      reads this
    {
      Snapshot() == r.st && out == old(out) + r.out && err == old(err) && raised == r.raised
    }

    constructor ()
      ensures Snapshot() == Initial && out == [] && err == ""
    {
      currentToolIndex, currentToolName, toolInputBuffer, lastToolName := Null, Null, "", Null;
      messageCount, toolUseCount := 0, 0;
      out, err := [], "";
    }

    /** The `line` handler: parse, dispatch, and copy a non-blank line that
        failed to standard error. */
    method HandleLine(line: string, host: Host)
      modifies this
      ensures var r := Step(old(Snapshot()), line, host);
              Snapshot() == r.st && out == old(out) + r.out && err == old(err) + r.err
    {
      var parsed := host.parse(line);
      var raised := true;
      if parsed.Some? {
        raised := Dispatch(Decode(parsed.value), host);
      }
      if raised && !IsBlank(line) {
        err := err + line + "\n";
      }
    }

    method Dispatch(ev: Event, host: Host) returns (raised: bool)
      modifies this
      ensures Reacted(OnEvent(old(Snapshot()), ev, host), raised)
    {
      match ev {
        case NullLine => raised := true;
        case BlockDelta(delta) => raised := HandleDelta(delta);
        case BlockStart(index, block) => raised := HandleBlockStart(index, block);
        case BlockStop => raised := HandleBlockStop(host.parse);
        case MessageStart =>
          messageCount := messageCount + 1;
          raised := false;
        case OtherStreamEvent => raised := false;
        case ToolResultEvent(data) =>
          raised := ShowToolResult(Truthy(Get(data, "is_error")), Or(Get(data, "result"), Get(data, "content")));
        case UserEvent(data) => raised := HandleUser(data);
        case AssistantEvent(data) => raised := HandleAssistant(data);
        case ErrorEvent(data) => raised := HandleError(data, host.stringify);
        case SystemEvent(data) => raised := HandleSystem(data);
        case ResultEvent(data) => raised := HandleResult(data);
        case Ignored => raised := false;
      }
    }

    method HandleDelta(delta: JsValue) returns (raised: bool)
      modifies this
      ensures Reacted(OnDelta(old(Snapshot()), delta), raised)
    {
      var text := Get(delta, "text");
      if Truthy(text) {
        if !text.Str? {
          return true;
        }
        out := out + [Write(text.s)];
      }
      var fragment := Get(delta, "partial_json");
      if !fragment.Undefined? {
        toolInputBuffer := toolInputBuffer + AsString(fragment);
      }
      raised := false;
    }

    method HandleBlockStart(index: JsValue, block: JsValue) returns (raised: bool)
      modifies this
      ensures Reacted(OnBlockStart(old(Snapshot()), index, block), raised)
    {
      if IsToolUse(block) {
        var name := Get(block, "name");
        currentToolIndex := index;
        currentToolName := name;
        lastToolName := name;
        toolInputBuffer := "";
        toolUseCount := toolUseCount + 1;
        out := out + [Header(name)];
      }
      raised := false;
    }

    method HandleBlockStop(parse: string -> Option<JsValue>) returns (raised: bool)
      modifies this
      ensures Reacted(StopAsWritten(old(Snapshot()), parse), raised)
    {
      if Truthy(currentToolName) && toolInputBuffer != "" {
        var details := ToolDetails.DetailsAsWritten(currentToolName, parse(toolInputBuffer));
        if Truthy(details) {
          if !details.Str? {
            // `details.split` is not a function: the slot is left as it is.
            return true;
          }
          ShowDetails(details.s);
        }
      }
      currentToolName := Null;
      currentToolIndex := Null;
      toolInputBuffer := "";
      raised := false;
    }

    /** The echo of a detail text: its first three lines, truncated, and the
        count of the lines left out. */
    method ShowDetails(details: string)
      modifies this`out
      ensures out == old(out) + DetailChunks(details)
    {
      var lines := Split(details, '\n');
      var shown := Min(|lines|, ToolDetails.MaxDetailLines);
      ghost var expected := DetailChunks(details);
      for i := 0 to shown
        invariant out == old(out) + expected[..i]
      {
        var line := lines[i];
        if |line| > ToolDetails.MaxDetailLength {
          line := line[..ToolDetails.MaxDetailLength - 3] + "...";
        }
        out := out + [LogLine(Ansi.Dim + "   " + line + Ansi.Reset)];
        assert expected[..i + 1] == expected[..i] + [expected[i]];
      }
      if |lines| > ToolDetails.MaxDetailLines {
        out := out + [LogLine(Ansi.Dim + "   ... +" + NatText(|lines| - ToolDetails.MaxDetailLines)
                              + " more lines" + Ansi.Reset)];
      }
      assert out == old(out) + expected;
    }

    /** The marker and the lines of one formatted tool result. */
    method ShowToolResult(isError: bool, content: JsValue) returns (raised: bool)
      modifies this`out
      ensures out == old(out) + ShowResult(isError, content).0
      ensures raised == ShowResult(isError, content).1
    {
      out := out + [ResultMarker(isError)];
      var formatted := ToolResult.FormatToolResult(content);
      ShowResultOf(isError, content, formatted, old(out));
      raised := formatted.Raised?;
      if formatted.Display? && formatted.text != "" {
        ShowResultLines(Split(formatted.text, '\n'));
      }
    }

    /** ShowResult in terms of what formatToolResult returned. */
    static lemma ShowResultOf(isError: bool, content: JsValue, f: ToolResult.Formatted, base: seq<Chunk>)
      requires f == ToolResult.FormattedResult(content)
      ensures base + ShowResult(isError, content).0
              == base + [ResultMarker(isError)]
                 + (if f.Display? && f.text != "" then ResultChunks(Split(f.text, '\n')) else [])
      ensures ShowResult(isError, content).1 == f.Raised?
    {
      var rest := if f.Display? && f.text != "" then ResultChunks(Split(f.text, '\n')) else [];
      assert ShowResult(isError, content).0 == [ResultMarker(isError)] + rest;
      assert base + ([ResultMarker(isError)] + rest) == base + [ResultMarker(isError)] + rest;
    }

    /** The `forEach` over the lines of a formatted result. */
    method ShowResultLines(lines: seq<string>)
      modifies this`out
      ensures out == old(out) + ResultChunks(lines)
    {
      for i := 0 to |lines|
        invariant out == old(out) + ResultChunks(lines[..i])
      {
        ghost var before := ResultChunks(lines[..i]);
        assert ResultChunks(lines[..i + 1]) == before + [ResultLine(lines[i])];
        out := out + [ResultLine(lines[i])];
        assert old(out) + before + [ResultLine(lines[i])] == old(out) + (before + [ResultLine(lines[i])]);
      }
      assert lines[..|lines|] == lines;
    }

    method HandleUser(data: JsValue) returns (raised: bool)
      modifies this
      ensures Reacted(OnUser(old(Snapshot()), data), raised)
    {
      raised := false;
      var content := Get(Get(data, "message"), "content");
      if content.Arr? {
        raised := ShowUserBlocks(content.items);
      }
    }

    /** The `for...of` loop over the blocks of a user message. */
    method ShowUserBlocks(blocks: seq<JsValue>) returns (raised: bool)
      modifies this`out
      ensures out == old(out) + UserBlocks(blocks).0
      ensures raised == UserBlocks(blocks).1
    {
      raised := false;
      var i := 0;
      while i < |blocks| && !raised
        invariant i <= |blocks|
        invariant out == old(out) + UserBlocks(blocks[..i]).0
        invariant raised == UserBlocks(blocks[..i]).1
      {
        raised := ShowNextBlock(blocks, i, old(out));
        i := i + 1;
      }
      UserBlocksDone(blocks, i);
    }

    /** One turn of that loop: the output so far is `base` followed by the
        chunks of the first `i` blocks, and the turn adds those of block `i`. */
    method ShowNextBlock(blocks: seq<JsValue>, i: nat, ghost base: seq<Chunk>) returns (raised: bool)
      requires i < |blocks| && !UserBlocks(blocks[..i]).1
      requires out == base + UserBlocks(blocks[..i]).0
      modifies this`out
      ensures out == base + UserBlocks(blocks[..i + 1]).0
      ensures raised == UserBlocks(blocks[..i + 1]).1
    {
      UserBlocksNext(blocks, i, base);
      raised := ShowUserBlock(blocks[i]);
    }

    /** The body of that loop for one block. */
    method ShowUserBlock(block: JsValue) returns (raised: bool)
      modifies this`out
      ensures out == old(out) + UserBlock(block).0
      ensures raised == UserBlock(block).1
    {
      if IsNullish(block) {
        return true;
      }
      raised := false;
      if Get(block, "type") == Str("tool_result") {
        raised := ShowToolResult(Truthy(Get(block, "is_error")), Get(block, "content"));
      }
    }

    /** One more block of a user message, while none has thrown yet. */
    static lemma UserBlocksNext(blocks: seq<JsValue>, i: nat, base: seq<Chunk>)
      requires i < |blocks| && !UserBlocks(blocks[..i]).1
      ensures base + UserBlocks(blocks[..i + 1]).0 == base + UserBlocks(blocks[..i]).0 + UserBlock(blocks[i]).0
      ensures UserBlocks(blocks[..i + 1]).1 == UserBlock(blocks[i]).1
    {
      assert blocks[..i + 1][..i] == blocks[..i];
      var before := UserBlocks(blocks[..i]).0;
      assert base + before + UserBlock(blocks[i]).0 == base + (before + UserBlock(blocks[i]).0);
    }

    /** Once a block of a user message has thrown, the later blocks are never
        reached; once every block has been seen, nothing is left. */
    static lemma {:induction false} UserBlocksDone(blocks: seq<JsValue>, k: nat)
      requires k <= |blocks|
      requires k == |blocks| || UserBlocks(blocks[..k]).1
      ensures UserBlocks(blocks) == UserBlocks(blocks[..k])
      decreases |blocks| - k
    {
      if k < |blocks| {
        assert blocks[..k + 1][..k] == blocks[..k];
        UserBlocksDone(blocks, k + 1);
      } else {
        assert blocks[..k] == blocks;
      }
    }

    method HandleAssistant(data: JsValue) returns (raised: bool)
      modifies this
      ensures Reacted(OnAssistant(old(Snapshot()), data), raised)
    {
      var subagent := Get(Get(data, "message"), "subagent");
      if Truthy(subagent) {
        out := out + [LogLine("\n" + Ansi.Magenta + "  \U{21B3} [" + AsString(Or(Get(subagent, "type"), Str("subagent")))
                              + "] " + AsString(Or(Get(subagent, "status"), Str(""))) + Ansi.Reset)];
      }
      raised := false;
    }

    method HandleError(data: JsValue, stringify: JsValue -> string) returns (raised: bool)
      modifies this
      ensures Reacted(OnError(old(Snapshot()), data, stringify), raised)
    {
      var error := Or(Get(data, "error"), data);
      var message := Get(error, "message");
      var text := if Truthy(message) then AsString(message) else stringify(error);
      out := out + [LogLine("\n" + Ansi.Red + "\U{274C} Error: " + text + Ansi.Reset)];
      raised := false;
    }

    method HandleSystem(data: JsValue) returns (raised: bool)
      modifies this
      ensures Reacted(OnSystem(old(Snapshot()), data), raised)
    {
      var message := Get(data, "message");
      if Truthy(message) {
        out := out + [LogLine(Ansi.Yellow + "\U{2139}\U{FE0F}  " + AsString(message) + Ansi.Reset)];
      }
      raised := false;
    }

    method HandleResult(data: JsValue) returns (raised: bool)
      modifies this
      ensures Reacted(OnResult(old(Snapshot()), data), raised)
    {
      var elapsed := Summary.Elapsed(Get(data, "duration_ms"));
      var cost := Summary.Cost(data);
      var inputTokens := Summary.InputTokens(data);
      var outputTokens := Summary.OutputTokens(data);
      out := out + [LogLine("\n\n" + Rule)];
      if !cost.Num? {
        return true;
      }
      out := out + [Done(elapsed, cost.value, inputTokens, outputTokens, toolUseCount)];
      raised := false;
    }
  }
}
