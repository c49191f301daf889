/** What the line handler of files/parse_stream.js:123-282 guarantees over
    single events and over runs of events: the tool slot, the input buffer,
    the counters, the label of a tool result and the echo of malformed lines. */
module StreamProperties {
  import opened Wrappers
  import opened JsValues
  import opened Stream
  import Ansi
  import ToolDetails
  import ToolResult
  import Summary

  // ---------------------------------------------------------------------
  // Opening a tool slot

  /** A tool_use start sets the current and the last tool name to the
      block's name, the current index to the event's index, empties the
      buffer, counts one more tool call and writes the header; the message
      count stays. */
  lemma StartOpensSlot(st: State, index: JsValue, block: JsValue)
    requires IsToolUse(block)
    ensures var r := OnBlockStart(st, index, block);
            && r.st.currentToolName == Get(block, "name")
            && r.st.lastToolName == Get(block, "name")
            && r.st.currentToolIndex == index
            && r.st.toolInputBuffer == ""
            && r.st.toolUseCount == st.toolUseCount + 1
            && r.st.messageCount == st.messageCount
            && r.out == [Header(Get(block, "name"))]
            && !r.raised
  {
  }

  /** Any other block start changes nothing and writes nothing. */
  lemma OtherStartIgnored(st: State, index: JsValue, block: JsValue)
    requires !IsToolUse(block)
    ensures OnBlockStart(st, index, block) == Reaction(st, [], false)
  {
  }

  // ---------------------------------------------------------------------
  // Deltas

  /** Reading a property of a one-property object. */
  lemma GetSingle(key: string, v: JsValue, other: string)
    ensures Get(Obj([(key, v)]), key) == v
    ensures other != key ==> Get(Obj([(key, v)]), other) == Undefined
  {
    var props := [(key, v)];
    assert props[1..] == [];
    assert Lookup(props[1..], other) == Undefined;
    if other != key {
      assert props[0].0 != other;
      assert Lookup(props, other) == Lookup(props[1..], other);
    }
  }

  /** A delta whose `partial_json` is defined. */
  predicate CarriesFragment(ev: Event) {
    ev.BlockDelta? && !Get(ev.delta, "partial_json").Undefined?
  }

  /** A delta that carries a fragment and no text to write. */
  predicate IsFragmentDelta(ev: Event) {
    CarriesFragment(ev) && !Truthy(Get(ev.delta, "text"))
  }

  predicate AllFragments(evs: seq<Event>) {
    forall i :: 0 <= i < |evs| ==> IsFragmentDelta(evs[i])
  }

  /** What a delta appends to the buffer: its `partial_json` as a string. */
  function FragmentText(ev: Event): string {
    if CarriesFragment(ev) then AsString(Get(ev.delta, "partial_json")) else ""
  }

  /** The fragments of a run of deltas, one after the other, in arrival order. */
  function Fragments(evs: seq<Event>): string {
    if |evs| == 0 then "" else Fragments(evs[..|evs| - 1]) + FragmentText(evs[|evs| - 1])
  }

  /** A delta without `partial_json` writes its string text verbatim when
      it is non-empty, writes nothing when it is empty, and changes no state,
      whatever other properties (such as `type`) it carries. */
  lemma TextDeltaPassesThrough(st: State, delta: JsValue)
    requires Get(delta, "partial_json").Undefined? && Get(delta, "text").Str?
    ensures var t := Get(delta, "text").s;
            OnDelta(st, delta) == Reaction(st, if t != "" then [Write(t)] else [], false)
  {
  }

  /** A defined `partial_json` is appended as a string, even when it is
      empty or not a string, after any text has been written; only the
      buffer changes. */
  lemma FragmentAppends(st: State, delta: JsValue)
    requires !Get(delta, "partial_json").Undefined?
    requires !Truthy(Get(delta, "text")) || Get(delta, "text").Str?
    ensures var text := Get(delta, "text");
            OnDelta(st, delta)
            == Reaction(st.(toolInputBuffer := st.toolInputBuffer + AsString(Get(delta, "partial_json"))),
                        if Truthy(text) then [Write(text.s)] else [], false)
  {
  }

  /** A truthy `text` that is not a string makes the write throw before
      any fragment is appended: nothing changes and nothing is written. */
  lemma NonStringTextThrows(st: State, delta: JsValue)
    requires Truthy(Get(delta, "text")) && !Get(delta, "text").Str?
    ensures OnDelta(st, delta) == Reaction(st, [], true)
  {
  }

  lemma AppendAssoc(a: string, b: string, c: string)
    ensures a + b + c == a + (b + c)
  {
  }

  /** Any step function that appends each event's fragment and writes
      nothing, folded over a run, appends their concatenation. */
  lemma {:induction false} FoldAppendsFragments(st: State, evs: seq<Event>, react: (State, Event) -> Reaction)
    requires forall s: State, i :: 0 <= i < |evs| ==>
               react(s, evs[i]).st == s.(toolInputBuffer := s.toolInputBuffer + FragmentText(evs[i]))
               && react(s, evs[i]).out == []
    ensures Fold(st, evs, react) == (st.(toolInputBuffer := st.toolInputBuffer + Fragments(evs)), [])
  {
    if |evs| == 0 {
      assert st.toolInputBuffer + Fragments(evs) == st.toolInputBuffer;
    } else {
      var init := evs[..|evs| - 1];
      forall s: State, i | 0 <= i < |init|
        ensures react(s, init[i]).st == s.(toolInputBuffer := s.toolInputBuffer + FragmentText(init[i]))
        ensures react(s, init[i]).out == []
      {
        assert init[i] == evs[i];
      }
      FoldAppendsFragments(st, init, react);
      var none: seq<Chunk> := [];
      assert none + none == none;
      AppendAssoc(st.toolInputBuffer, Fragments(init), FragmentText(evs[|evs| - 1]));
    }
  }

  /** Fragments accumulate in arrival order: a run of fragment deltas
      appends their concatenation to the buffer, writes nothing, and leaves
      everything else as it was. */
  lemma FragmentsAccumulate(st: State, evs: seq<Event>, host: Host)
    requires AllFragments(evs)
    ensures Run(st, evs, host) == (st.(toolInputBuffer := st.toolInputBuffer + Fragments(evs)), [])
  {
    forall s: State, i | 0 <= i < |evs|
      ensures Reactor(host)(s, evs[i]).st == s.(toolInputBuffer := s.toolInputBuffer + FragmentText(evs[i]))
      ensures Reactor(host)(s, evs[i]).out == []
    {
      FragmentAppends(s, evs[i].delta);
    }
    FoldAppendsFragments(st, evs, Reactor(host));
  }

  // ---------------------------------------------------------------------
  // Runs

  /** Reacting to two runs of events one after the other. */
  lemma {:induction false} FoldAppend(st: State, a: seq<Event>, b: seq<Event>, react: (State, Event) -> Reaction)
    ensures var first := Fold(st, a, react);
            var second := Fold(first.0, b, react);
            Fold(st, a + b, react) == (second.0, first.1 + second.1)
  {
    if |b| == 0 {
      assert a + b == a;
      var first := Fold(st, a, react);
      assert Fold(first.0, b, react) == (first.0, []);
      assert first.1 + [] == first.1;
    } else {
      var b' := b[..|b| - 1];
      var ab := a + b;
      assert ab[..|ab| - 1] == a + b';
      assert ab[|ab| - 1] == b[|b| - 1];
      FoldAppend(st, a, b', react);
      var first := Fold(st, a, react);
      var mid := Fold(first.0, b', react);
      var r := react(mid.0, b[|b| - 1]);
      assert Fold(first.0, b, react) == (r.st, mid.1 + r.out);
      assert Fold(st, ab, react) == (r.st, (first.1 + mid.1) + r.out);
      assert (first.1 + mid.1) + r.out == first.1 + (mid.1 + r.out);
    }
  }

  /** One more event after a run. */
  lemma RunSnoc(st: State, evs: seq<Event>, ev: Event, host: Host)
    ensures var before := Run(st, evs, host);
            var r := OnEvent(before.0, ev, host);
            Run(st, evs + [ev], host) == (r.st, before.1 + r.out)
  {
    var all := evs + [ev];
    assert all[..|all| - 1] == evs && all[|all| - 1] == ev;
    assert Reactor(host)(Run(st, evs, host).0, ev) == OnEvent(Run(st, evs, host).0, ev, host);
  }

  /** The last event of a run, reacted to in the state the rest of the run
      leaves. */
  lemma RunLast(st: State, evs: seq<Event>, host: Host)
    requires |evs| > 0
    ensures var before := Run(st, evs[..|evs| - 1], host);
            var r := OnEvent(before.0, evs[|evs| - 1], host);
            Run(st, evs, host) == (r.st, before.1 + r.out)
  {
    assert Reactor(host)(Run(st, evs[..|evs| - 1], host).0, evs[|evs| - 1])
        == OnEvent(Run(st, evs[..|evs| - 1], host).0, evs[|evs| - 1], host);
  }

  /** A stop after a run. */
  lemma StopSnoc(st: State, evs: seq<Event>, host: Host)
    ensures var before := Run(st, evs, host);
            var r := StopAsWritten(before.0, host.parse);
            Run(st, evs + [BlockStop], host) == (r.st, before.1 + r.out)
  {
    RunSnoc(st, evs, BlockStop, host);
  }

  lemma RunAppend(st: State, a: seq<Event>, b: seq<Event>, host: Host)
    ensures var first := Run(st, a, host);
            var second := Run(first.0, b, host);
            Run(st, a + b, host) == (second.0, first.1 + second.1)
  {
    FoldAppend(st, a, b, Reactor(host));
  }

  /** After a tool_use start and any number of fragments, the buffer holds
      exactly the fragments in arrival order and the slot names the tool. */
  lemma StartThenFragments(st: State, index: JsValue, block: JsValue, deltas: seq<Event>, host: Host)
    requires IsToolUse(block) && AllFragments(deltas)
    ensures var r := Run(st, [BlockStart(index, block)] + deltas, host);
            && r.0 == OnBlockStart(st, index, block).st.(toolInputBuffer := Fragments(deltas))
            && r.0.toolInputBuffer == Fragments(deltas)
            && r.0.currentToolName == Get(block, "name")
            && r.0.currentToolIndex == index
            && r.1 == [Header(Get(block, "name"))]
  {
    var start := [BlockStart(index, block)];
    assert [] + start == start;
    assert Run(st, [], host) == (st, []);
    RunSnoc(st, [], BlockStart(index, block), host);
    var r := OnBlockStart(st, index, block);
    assert Run(st, start, host) == (r.st, [] + r.out);
    assert [] + r.out == [Header(Get(block, "name"))];
    RunAppend(st, start, deltas, host);
    FragmentsAccumulate(r.st, deltas, host);
    assert r.out + [] == r.out;
  }

  // ---------------------------------------------------------------------
  // Closing the slot

  /** A stop always closes the slot, whatever formatting yields: no current
      tool, no index, an empty buffer. The last tool name and both counters
      are kept, and the stop never throws. */
  lemma StopCloses(st: State, parse: string -> Option<JsValue>)
    ensures var r := Stop(st, parse);
            && r.st.currentToolName == Null
            && r.st.currentToolIndex == Null
            && r.st.toolInputBuffer == ""
            && r.st.lastToolName == st.lastToolName
            && r.st.messageCount == st.messageCount
            && r.st.toolUseCount == st.toolUseCount
            && !r.raised
  {
  }

  /** Details are echoed only when a tool name is current and the buffer is
      non-empty, and then they are exactly the echo of the non-empty string
      formatToolDetails gives for the parsed buffer, at most four lines. The
      stop throws exactly when that value is truthy and not a string. */
  lemma StopEcho(st: State, parse: string -> Option<JsValue>)
    ensures var r := StopAsWritten(st, parse);
            var d := ToolDetails.Details(st.currentToolName, parse(st.toolInputBuffer));
            && (r.out != [] ==> Truthy(st.currentToolName) && st.toolInputBuffer != "")
            && (r.out != [] <==> d.Some? && Truthy(st.currentToolName) && st.toolInputBuffer != "")
            && (r.out != [] ==> r.out == DetailChunks(d.value))
            && |r.out| <= ToolDetails.MaxDetailLines + 1
    ensures var r := StopAsWritten(st, parse);
            var raw := ToolDetails.DetailsAsWritten(st.currentToolName, parse(st.toolInputBuffer));
            r.raised <==> Truthy(st.currentToolName) && st.toolInputBuffer != "" && Truthy(raw) && !raw.Str?
  {
    ToolDetails.DetailsMatchSource(st.currentToolName, parse(st.toolInputBuffer));
  }

  /** A fragment that arrives with no tool current lands in the buffer, but
      the next stop shows nothing for it and discards it. */
  lemma StrayFragmentDiscarded(st: State, delta: JsValue, parse: string -> Option<JsValue>)
    requires !Truthy(st.currentToolName)
    requires !Get(delta, "partial_json").Undefined?
    requires !Truthy(Get(delta, "text")) || Get(delta, "text").Str?
    ensures var after := OnDelta(st, delta).st;
            && after.toolInputBuffer == st.toolInputBuffer + AsString(Get(delta, "partial_json"))
            && StopAsWritten(after, parse) == Reaction(Closed(after), [], false)
  {
    FragmentAppends(st, delta);
  }

  // ---------------------------------------------------------------------
  // The start/stop window

  /** Whether a tool slot is open after `evs`: the latest tool_use start
      has not been followed by a stop. */
  function InWindow(evs: seq<Event>): bool {
    if |evs| == 0 then false
    else
      var last := evs[|evs| - 1];
      if OpensTool(last) then true
      else if last.BlockStop? then false
      else InWindow(evs[..|evs| - 1])
  }

  /** Every fragment arrives while a tool slot is open. */
  predicate FragmentsInWindows(evs: seq<Event>) {
    forall i :: 0 <= i < |evs| && CarriesFragment(evs[i]) ==> InWindow(evs[..i])
  }

  /** Only three kinds of event touch the buffer: a tool_use start empties
      it, a stop that does not throw empties it, and a fragment delta that
      does not throw appends its fragment. A stop that throws leaves the
      whole state as it was. */
  lemma BufferStep(st: State, ev: Event, host: Host)
    ensures var r := OnEvent(st, ev, host);
            && (OpensTool(ev) ==> r.st.toolInputBuffer == "")
            && (ev.BlockStop? && !r.raised ==> r.st.toolInputBuffer == "")
            && (ev.BlockStop? && r.raised ==> r.st == st && st.currentToolName == Str("Task"))
            && (CarriesFragment(ev) && !r.raised ==>
                  r.st.toolInputBuffer == st.toolInputBuffer + FragmentText(ev))
            && (!OpensTool(ev) && !ev.BlockStop? && !CarriesFragment(ev) ==>
                  r.st.toolInputBuffer == st.toolInputBuffer)
  {
  }

  /** The parser never yields an input for which formatToolDetails returns
      a truthy value that is not a string. */
  ghost predicate DetailsAreStrings(parse: string -> Option<JsValue>) {
    forall name: JsValue, s: string ::
      Truthy(ToolDetails.DetailsAsWritten(name, parse(s))) ==> ToolDetails.DetailsAsWritten(name, parse(s)).Str?
  }

  /** No stop of the run throws: each stop closes the slot. */
  ghost predicate NoStopThrows(st: State, evs: seq<Event>, host: Host) {
    forall i :: 0 <= i < |evs| && evs[i].BlockStop? ==> !StopAsWritten(Run(st, evs[..i], host).0, host.parse).raised
  }

  /** Under a parser that never yields a truthy non-string detail, no stop
      of any run throws. */
  lemma StopCompletes(st: State, evs: seq<Event>, host: Host)
    requires DetailsAreStrings(host.parse)
    ensures NoStopThrows(st, evs, host)
  {
    forall i | 0 <= i < |evs| && evs[i].BlockStop?
      ensures !StopAsWritten(Run(st, evs[..i], host).0, host.parse).raised
    {
      var before := Run(st, evs[..i], host).0;
      var d := ToolDetails.DetailsAsWritten(before.currentToolName, host.parse(before.toolInputBuffer));
      assert Truthy(d) ==> d.Str?;
    }
  }

  /** A tool_use start whose block names `Task`. */
  predicate OpensTask(ev: Event) {
    OpensTool(ev) && Get(ev.block, "name") == Str("Task")
  }

  /** The current tool name changes only to the name a tool_use start
      carries, or to null. */
  lemma NameStep(st: State, ev: Event, host: Host)
    ensures var name := OnEvent(st, ev, host).st.currentToolName;
            name == st.currentToolName || name == Null || (OpensTool(ev) && name == Get(ev.block, "name"))
  {
  }

  /** A run that opens no `Task` call, from a state whose current tool is not
      `Task`, never has `Task` current, so none of its stops throws. */
  lemma {:induction false} TaskFreeRun(st: State, evs: seq<Event>, host: Host)
    requires st.currentToolName != Str("Task")
    requires forall i :: 0 <= i < |evs| ==> !OpensTask(evs[i])
    ensures Run(st, evs, host).0.currentToolName != Str("Task")
    ensures NoStopThrows(st, evs, host)
  {
    if |evs| > 0 {
      var init := evs[..|evs| - 1];
      var last := evs[|evs| - 1];
      assert forall i :: 0 <= i < |init| ==> init[i] == evs[i];
      TaskFreeRun(st, init, host);
      assert init + [last] == evs;
      RunSnoc(st, init, last, host);
      NameStep(Run(st, init, host).0, last, host);
      forall i | 0 <= i < |evs| && evs[i].BlockStop?
        ensures !StopAsWritten(Run(st, evs[..i], host).0, host.parse).raised
      {
        if i < |init| {
          assert init[i] == evs[i] && init[..i] == evs[..i];
        } else {
          assert evs[..i] == init;
        }
      }
    }
  }

  /** When the stream sends fragments only inside a start/stop window, and
      no stop throws, the buffer is empty whenever no window is open. A
      fragment sent outside every window breaks this (see
      StrayFragmentDiscarded), and so does a stop that throws (see
      TrapLeavesBufferFull). */
  lemma {:induction false} BufferEmptyOutsideWindow(st: State, evs: seq<Event>, host: Host)
    requires st.toolInputBuffer == ""
    requires FragmentsInWindows(evs)
    requires NoStopThrows(st, evs, host)
    ensures !InWindow(evs) ==> Run(st, evs, host).0.toolInputBuffer == ""
  {
    if |evs| > 0 {
      var init := evs[..|evs| - 1];
      var last := evs[|evs| - 1];
      assert FragmentsInWindows(init) && NoStopThrows(st, init, host) by {
        forall i | 0 <= i < |init|
          ensures init[i] == evs[i] && init[..i] == evs[..i]
        {
        }
      }
      BufferEmptyOutsideWindow(st, init, host);
      RunLast(st, evs, host);
      var before := Run(st, init, host).0;
      BufferStep(before, last, host);
      if last.BlockStop? {
        assert !StopAsWritten(before, host.parse).raised;
      } else if !InWindow(evs) && !OpensTool(last) {
        assert !InWindow(init);
        assert !CarriesFragment(last);
      }
    }
  }

  /** In particular, whatever the parser, a run that opens no `Task` call
      and sends fragments only inside windows has an empty buffer whenever
      no window is open. */
  lemma TaskFreeBufferEmpty(st: State, evs: seq<Event>, host: Host)
    requires st.toolInputBuffer == "" && st.currentToolName != Str("Task")
    requires FragmentsInWindows(evs)
    requires forall i :: 0 <= i < |evs| ==> !OpensTask(evs[i])
    ensures !InWindow(evs) ==> Run(st, evs, host).0.toolInputBuffer == ""
  {
    TaskFreeRun(st, evs, host);
    BufferEmptyOutsideWindow(st, evs, host);
  }

  /** A run that starts with a tool_use start and holds no stop keeps the
      slot open. */
  lemma {:induction false} OpenUntilStop(start: Event, evs: seq<Event>)
    requires OpensTool(start)
    requires forall i :: 0 <= i < |evs| ==> !evs[i].BlockStop?
    ensures InWindow([start] + evs)
  {
    if |evs| > 0 {
      var init := evs[..|evs| - 1];
      var all := [start] + evs;
      assert all[..|all| - 1] == [start] + init;
      OpenUntilStop(start, init);
    } else {
      assert [start] + evs == [start];
    }
  }

  /** Fragments sent between a tool_use start and the next stop are sent
      inside the window, and the stop closes it. */
  lemma WindowAroundFragments(start: Event, deltas: seq<Event>)
    requires OpensTool(start) && AllFragments(deltas)
    ensures var evs := [start] + deltas + [BlockStop];
            FragmentsInWindows(evs) && !InWindow(evs)
  {
    var evs := [start] + deltas + [BlockStop];
    forall i | 0 <= i < |evs| && CarriesFragment(evs[i])
      ensures InWindow(evs[..i])
    {
      assert 1 <= i < |evs| - 1;
      var sent := deltas[..i - 1];
      assert evs[..i] == [start] + sent;
      forall j | 0 <= j < |sent| ensures !sent[j].BlockStop? {
        assert sent[j] == deltas[j] && IsFragmentDelta(deltas[j]);
      }
      OpenUntilStop(start, sent);
    }
  }

  /** formatToolDetails for a Task call whose only input is the numeric
      description 5 returns that number. */
  lemma NumericDescriptionDetail()
    ensures ToolDetails.DetailsAsWritten(Str("Task"), Some(Obj([("description", Num(5.0, "5"))])))
            == Num(5.0, "5")
  {
    GetSingle("description", Num(5.0, "5"), "subagent_type");
  }

  /** A tool_use block that names `Task`. */
  function TaskBlock(): JsValue {
    Obj([("type", Str("tool_use")), ("name", Str("Task"))])
  }

  lemma TaskBlockOpens()
    ensures IsToolUse(TaskBlock()) && Get(TaskBlock(), "name") == Str("Task")
  {
    GetSingle("type", Str("tool_use"), "type");
    assert [("type", Str("tool_use")), ("name", Str("Task"))][1..] == [("name", Str("Task"))];
    GetSingle("name", Str("Task"), "name");
  }

  /** Without the hypothesis that no stop throws, the buffer can stay full
      outside every window: a Task call whose fragments parse to a numeric
      description sends its fragments inside the window, yet after the stop
      the window is closed and the buffer still holds every fragment. */
  lemma TrapLeavesBufferFull(st: State, index: JsValue, deltas: seq<Event>, host: Host)
    requires AllFragments(deltas) && Fragments(deltas) != ""
    requires host.parse(Fragments(deltas)) == Some(Obj([("description", Num(5.0, "5"))]))
    ensures var evs := [BlockStart(index, TaskBlock())] + deltas + [BlockStop];
            && FragmentsInWindows(evs)
            && !InWindow(evs)
            && Run(st, evs, host).0.toolInputBuffer == Fragments(deltas)
            && Run(st, evs, host).0.currentToolName == Str("Task")
            && !NoStopThrows(st, evs, host)
  {
    var start := BlockStart(index, TaskBlock());
    var prefix := [start] + deltas;
    TaskBlockOpens();
    WindowAroundFragments(start, deltas);
    assert (prefix + [BlockStop])[..|prefix|] == prefix;
    StartThenFragments(st, index, TaskBlock(), deltas, host);
    var open := Run(st, prefix, host).0;
    StopSnoc(st, prefix, host);
    NumericDescriptionDetail();
    assert StopAsWritten(open, host.parse) == Reaction(open, [], true);
    var evs := prefix + [BlockStop];
    assert evs[|prefix|].BlockStop? && evs[..|prefix|] == prefix;
  }

  // ---------------------------------------------------------------------
  // The label of a tool result

  /** The label is the event's tool_name when truthy, else the last tool
      opened when truthy, else "tool"; it is always truthy. */
  lemma ResultLabel(st: State, data: JsValue)
    ensures Truthy(Get(data, "tool_name")) ==> ResultToolName(st, data) == Get(data, "tool_name")
    ensures !Truthy(Get(data, "tool_name")) && Truthy(st.lastToolName) ==> ResultToolName(st, data) == st.lastToolName
    ensures !Truthy(Get(data, "tool_name")) && !Truthy(st.lastToolName) ==> ResultToolName(st, data) == Str("tool")
    ensures Truthy(ResultToolName(st, data))
  {
  }

  /** After a tool call has been opened, fed and closed, a tool result with
      no tool_name of its own is labelled with that tool's name when the
      name is truthy. */
  lemma LabelAfterToolCall(st: State, index: JsValue, block: JsValue, deltas: seq<Event>,
                           data: JsValue, host: Host)
    requires IsToolUse(block) && Truthy(Get(block, "name")) && AllFragments(deltas)
    requires !Truthy(Get(data, "tool_name"))
    ensures var evs := [BlockStart(index, block)] + deltas + [BlockStop];
            ResultToolName(Run(st, evs, host).0, data) == Get(block, "name")
  {
    var prefix := [BlockStart(index, block)] + deltas;
    StartThenFragments(st, index, block, deltas, host);
    StopSnoc(st, prefix, host);
  }

  // ---------------------------------------------------------------------
  // Counters

  function MessageStarts(evs: seq<Event>): nat {
    if |evs| == 0 then 0
    else MessageStarts(evs[..|evs| - 1]) + (if evs[|evs| - 1].MessageStart? then 1 else 0)
  }

  predicate OpensTool(ev: Event) {
    ev.BlockStart? && IsToolUse(ev.block)
  }

  function ToolStarts(evs: seq<Event>): nat {
    if |evs| == 0 then 0
    else ToolStarts(evs[..|evs| - 1]) + (if OpensTool(evs[|evs| - 1]) then 1 else 0)
  }

  /** One event moves each counter by at most one: messageCount exactly on
      message_start, toolUseCount exactly on a tool_use start. The last
      tool name changes only on a tool_use start. */
  lemma CountersStep(st: State, ev: Event, host: Host)
    ensures var r := OnEvent(st, ev, host);
            && r.st.messageCount == st.messageCount + (if ev.MessageStart? then 1 else 0)
            && r.st.toolUseCount == st.toolUseCount + (if OpensTool(ev) then 1 else 0)
            && (!OpensTool(ev) ==> r.st.lastToolName == st.lastToolName)
  {
  }

  /** Over a run, messageCount grows by the number of message_start events
      and toolUseCount by the number of tool_use starts. */
  lemma {:induction false} RunCounts(st: State, evs: seq<Event>, host: Host)
    ensures Run(st, evs, host).0.messageCount == st.messageCount + MessageStarts(evs)
    ensures Run(st, evs, host).0.toolUseCount == st.toolUseCount + ToolStarts(evs)
  {
    if |evs| > 0 {
      RunCounts(st, evs[..|evs| - 1], host);
      CountersStep(Run(st, evs[..|evs| - 1], host).0, evs[|evs| - 1], host);
    }
  }

  // ---------------------------------------------------------------------
  // Lines and the error stream

  /** A line that does not parse changes nothing, writes nothing to standard
      output, and is copied to standard error unless it is blank. */
  lemma MalformedLineEchoed(st: State, line: string, host: Host)
    requires host.parse(line).None?
    ensures Step(st, line, host).st == st
    ensures Step(st, line, host).out == []
    ensures Step(st, line, host).err == (if IsBlank(line) then "" else line + "\n")
  {
  }

  /** A line holding JSON null throws when its type is read, and is echoed. */
  lemma NullLineEchoed(st: State, line: string, host: Host)
    requires host.parse(line) == Some(Null)
    ensures Step(st, line, host) == LineResult(st, [], Echo(line))
  {
  }

  /** Standard error receives something only for a line that failed, and
      then exactly that line. */
  lemma ErrOnlyOnFailure(st: State, line: string, host: Host)
    ensures Step(st, line, host).err == "" || Step(st, line, host).err == line + "\n"
    ensures host.parse(line).Some? && !OnEvent(st, Decode(host.parse(line).value), host).raised
            ==> Step(st, line, host).err == ""
  {
  }

  // ---------------------------------------------------------------------
  // Two complete scenarios

  /** A tool_use block for the Bash tool. */
  function BashBlock(): JsValue {
    Obj([("type", Str("tool_use")), ("name", Str("Bash"))])
  }

  /** A stop with a current tool, a non-empty buffer and a detail text
      echoes that detail and closes the slot. */
  lemma StopShows(st: State, parse: string -> Option<JsValue>, d: string)
    requires Truthy(st.currentToolName) && st.toolInputBuffer != ""
    requires ToolDetails.Details(st.currentToolName, parse(st.toolInputBuffer)) == Some(d)
    ensures StopAsWritten(st, parse) == Reaction(Closed(st), DetailChunks(d), false)
  {
    ToolDetails.DetailsMatchSource(st.currentToolName, parse(st.toolInputBuffer));
  }

  /** A one-line detail is echoed as one log line. */
  lemma DetailChunksSingle(line: string)
    requires '\n' !in line && |line| <= ToolDetails.MaxDetailLength
    ensures DetailChunks(line) == [LogLine(Ansi.Dim + "   " + line + Ansi.Reset)]
  {
    ToolDetails.DetailLinesSingle(line);
  }

  /** Stopping a Bash call whose buffered input parses to `{"command": c}`
      shows `$ c` on one line when c is a short non-empty single line, and
      closes the slot. */
  lemma BashStop(st: State, parse: string -> Option<JsValue>, command: string)
    requires st.currentToolName == Str("Bash") && st.toolInputBuffer != ""
    requires parse(st.toolInputBuffer) == Some(Obj([("command", Str(command))]))
    requires command != "" && '\n' !in command && |command| <= ToolDetails.MaxDetailLength - 2
    ensures StopAsWritten(st, parse) == Reaction(Closed(st), [LogLine(Ansi.Dim + "   $ " + command + Ansi.Reset)], false)
  {
    var params := Obj([("command", Str(command))]);
    GetSingle("command", Str(command), "command");
    ToolDetails.BashDetail(params);
    StopShows(st, parse, "$ " + command);
    assert '\n' !in "$ ";
    DetailChunksSingle("$ " + command);
    assert Ansi.Dim + "   " + ("$ " + command) + Ansi.Reset == Ansi.Dim + "   $ " + command + Ansi.Reset;
  }

  /** A Bash call streamed from the initial state as any number of
      fragments that together parse to `{"command": c}`: the header, then
      `$ c`; afterwards the slot is closed and one tool call has been
      counted. */
  lemma BashScenario(index: JsValue, deltas: seq<Event>, command: string, host: Host)
    requires AllFragments(deltas) && Fragments(deltas) != ""
    requires host.parse(Fragments(deltas)) == Some(Obj([("command", Str(command))]))
    requires command != "" && '\n' !in command && |command| <= ToolDetails.MaxDetailLength - 2
    ensures var evs := [BlockStart(index, BashBlock())] + deltas + [BlockStop];
            && Run(Initial, evs, host).0 == Initial.(lastToolName := Str("Bash"), toolUseCount := 1)
            && Run(Initial, evs, host).1
               == [Header(Str("Bash")), LogLine(Ansi.Dim + "   $ " + command + Ansi.Reset)]
  {
    var prefix := [BlockStart(index, BashBlock())] + deltas;
    assert IsToolUse(BashBlock()) && Get(BashBlock(), "name") == Str("Bash") by {
      GetSingle("type", Str("tool_use"), "type");
      assert [("type", Str("tool_use")), ("name", Str("Bash"))][1..] == [("name", Str("Bash"))];
      GetSingle("name", Str("Bash"), "name");
    }
    StartThenFragments(Initial, index, BashBlock(), deltas, host);
    var st := Run(Initial, prefix, host).0;
    assert st == Initial.(currentToolIndex := index, currentToolName := Str("Bash"),
                          lastToolName := Str("Bash"), toolInputBuffer := Fragments(deltas), toolUseCount := 1);
    StopSnoc(Initial, prefix, host);
    BashStop(st, host.parse, command);
  }

  /** A result event writes the rule, then (when the cost is a number) the
      summary: the elapsed time, the cost, the first truthy token aliases and
      the number of tool calls counted so far. A cost that is not a number
      throws after the rule. Nothing in the state changes. */
  lemma ResultSummary(st: State, data: JsValue, host: Host)
    requires Get(data, "type") == Str("result")
    ensures var r := OnEvent(st, Decode(data), host);
            && r.st == st
            && (Summary.Cost(data).Num? ==>
                  r == Reaction(st, [LogLine("\n\n" + Rule),
                                     Done(Summary.Elapsed(Get(data, "duration_ms")), Summary.Cost(data).value,
                                          Summary.InputTokens(data), Summary.OutputTokens(data), st.toolUseCount)],
                                false))
            && (!Summary.Cost(data).Num? ==> r == Reaction(st, [LogLine("\n\n" + Rule)], true))
  {
    assert Decode(data) == ResultEvent(data);
  }

  /** From the initial state, the tool count a summary reports is the number
      of tool_use blocks opened before it. */
  lemma SummaryCountsTools(evs: seq<Event>, data: JsValue, host: Host)
    requires Get(data, "type") == Str("result") && Summary.Cost(data).Num?
    ensures var r := OnEvent(Run(Initial, evs, host).0, Decode(data), host);
            |r.out| == 2 && r.out[1].Done? && r.out[1].tools == ToolStarts(evs)
  {
    RunCounts(Initial, evs, host);
    ResultSummary(Run(Initial, evs, host).0, data, host);
  }

  // ---------------------------------------------------------------------
  // User messages

  /** The blocks of a user message are shown in order and showing stops at
      the first block that throws: two runs of blocks shown one after the
      other give the output of the first, then, unless the first threw,
      the output of the second. */
  lemma UserBlocksAppend(a: seq<JsValue>, b: seq<JsValue>)
    ensures var first := UserBlocks(a);
            var second := UserBlocks(b);
            UserBlocks(a + b) == if first.1 then first else (first.0 + second.0, second.1)
  {
    ShowUntilThrowAppend(a, b, UserBlock);
  }

  /** The same for any way of showing one item. */
  lemma {:induction false} ShowUntilThrowAppend(a: seq<JsValue>, b: seq<JsValue>,
                                                show: JsValue -> (seq<Chunk>, bool))
    ensures var first := ShowUntilThrow(a, show);
            var second := ShowUntilThrow(b, show);
            ShowUntilThrow(a + b, show) == if first.1 then first else (first.0 + second.0, second.1)
  {
    if |b| == 0 {
      assert a + b == a;
      assert ShowUntilThrow(a, show).0 + [] == ShowUntilThrow(a, show).0;
    } else {
      var init := b[..|b| - 1];
      var ab := a + b;
      assert ab[..|ab| - 1] == a + init;
      assert ab[|ab| - 1] == b[|b| - 1];
      ShowUntilThrowAppend(a, init, show);
      var first := ShowUntilThrow(a, show);
      var mid := ShowUntilThrow(init, show);
      var shown := show(b[|b| - 1]);
      if !first.1 && !mid.1 {
        assert (first.0 + mid.0) + shown.0 == first.0 + (mid.0 + shown.0);
      }
    }
  }

  /** A message with no tool_result block and no null block shows nothing
      and does not throw. */
  lemma {:induction false} UserBlocksWithoutResults(blocks: seq<JsValue>)
    requires forall i :: 0 <= i < |blocks| ==>
               !IsNullish(blocks[i]) && Get(blocks[i], "type") != Str("tool_result")
    ensures UserBlocks(blocks) == ([], false)
  {
    if |blocks| > 0 {
      var init := blocks[..|blocks| - 1];
      assert forall i :: 0 <= i < |init| ==> init[i] == blocks[i];
      UserBlocksWithoutResults(init);
      assert UserBlock(blocks[|blocks| - 1]) == ([], false);
      var none: seq<Chunk> := [];
      assert none + none == none;
      assert UserBlocks(blocks) == (none + none, false);
    }
  }

  /** Showing items until one throws ends in a throw exactly when some
      item's showing throws, and writes nothing when no item writes. */
  lemma {:induction false} ShowUntilThrowRaised(items: seq<JsValue>, show: JsValue -> (seq<Chunk>, bool))
    ensures ShowUntilThrow(items, show).1 <==> exists i :: 0 <= i < |items| && show(items[i]).1
    ensures (forall i :: 0 <= i < |items| ==> show(items[i]).0 == []) ==> ShowUntilThrow(items, show).0 == []
  {
    if |items| > 0 {
      var init := items[..|items| - 1];
      ShowUntilThrowRaised(init, show);
      assert forall i :: 0 <= i < |init| ==> init[i] == items[i];
      var none: seq<Chunk> := [];
      assert none + none == none;
      if exists i :: 0 <= i < |items| && show(items[i]).1 {
        var i :| 0 <= i < |items| && show(items[i]).1;
        if i < |init| {
          assert show(init[i]).1;
        }
      }
    }
  }

  /** A user message throws exactly when one of its blocks throws, so
      always when one of them is null or undefined. */
  lemma UserBlocksThrow(blocks: seq<JsValue>)
    ensures UserBlocks(blocks).1 <==> exists i :: 0 <= i < |blocks| && UserBlock(blocks[i]).1
    ensures (exists i :: 0 <= i < |blocks| && IsNullish(blocks[i])) ==> UserBlocks(blocks).1
  {
    ShowUntilThrowRaised(blocks, UserBlock);
  }

  // ---------------------------------------------------------------------
  // Tool results

  /** A displayed result echoes, after its marker, exactly the rendered
      lines: the non-blank lines of its text, at most five, capped at 120
      characters, and the count of those left out. */
  lemma ResultEchoLines(isError: bool, content: JsValue)
    requires ToolResult.FormattedResult(content).Display?
    ensures var text := ToolResult.ContentText(content).value.s;
            var lines := ToolResult.NonBlank(Split(text, '\n'));
            ShowResult(isError, content)
            == ([ResultMarker(isError)] + ResultChunks(ToolResult.Rendered(lines)), false)
  {
    var text := ToolResult.ContentText(content).value.s;
    var pieces := Split(text, '\n');
    var lines := ToolResult.NonBlank(pieces);
    var rendered := ToolResult.Rendered(lines);
    assert ToolResult.FormattedResult(content) == ToolResult.Display(Join(rendered, '\n'));
    if lines == [] {
      assert rendered == [];
      assert Join(rendered, '\n') == "";
      assert ResultChunks(rendered) == [];
    } else {
      ToolResult.NonBlankLines(pieces);
      forall i | 0 <= i < |lines|
        ensures '\n' !in lines[i]
      {
        assert lines[i] in lines;
        assert lines[i] in pieces;
      }
      ToolResult.RenderedSplitsBack(lines);
      ToolResult.DisplayCases(content);
    }
  }

  // ---------------------------------------------------------------------
  // The stop handler as written

  /** Where the stop handler as written does not throw, it is the corrected
      one; where it throws, it leaves the state as it was, slot open, while
      the corrected one closes the slot. */
  lemma StopAsWrittenAgrees(st: State, parse: string -> Option<JsValue>)
    ensures !StopAsWritten(st, parse).raised ==> StopAsWritten(st, parse) == Stop(st, parse)
    ensures StopAsWritten(st, parse).raised ==>
              && StopAsWritten(st, parse) == Reaction(st, [], true)
              && Stop(st, parse) == Reaction(Closed(st), [], false)
              && st.currentToolName == Str("Task")
  {
    if Truthy(st.currentToolName) && st.toolInputBuffer != "" {
      ToolDetails.DetailsMatchSource(st.currentToolName, parse(st.toolInputBuffer));
    }
  }

  /** The buffered input of a Task call whose description is a number. */
  const NumericDescription := "{\"description\":5}"

  function DescriptionParse(s: string): Option<JsValue> {
    if s == NumericDescription then Some(Obj([("description", Num(5.0, "5"))])) else None
  }

  function TaskOpen(): State {
    Initial.(currentToolIndex := Zero, currentToolName := Str("Task"), lastToolName := Str("Task"),
             toolInputBuffer := NumericDescription, toolUseCount := 1)
  }

  /** A Task call whose description is the number 5 and which names no
      subagent type: formatToolDetails returns the number itself, splitting
      it throws, and the slot stays open with its buffer; the corrected stop
      shows nothing and closes the slot. */
  lemma TaskSlotLeftOpen()
    ensures StopAsWritten(TaskOpen(), DescriptionParse) == Reaction(TaskOpen(), [], true)
    ensures StopAsWritten(TaskOpen(), DescriptionParse).st.currentToolName == Str("Task")
    ensures Stop(TaskOpen(), DescriptionParse) == Reaction(Closed(TaskOpen()), [], false)
  {
    assert DescriptionParse(TaskOpen().toolInputBuffer) == Some(Obj([("description", Num(5.0, "5"))]));
    NumericDescriptionDetail();
  }
}
