/** The ANSI escape sequences the script wraps its lines in: constant
    decoration, kept so that rendered lines read as the script prints them. */
module Ansi {

  const Reset := "\U{1B}[0m"
  const Dim := "\U{1B}[2m"
  const Green := "\U{1B}[32m"
  const Yellow := "\U{1B}[33m"
  const Magenta := "\U{1B}[35m"
  const Cyan := "\U{1B}[36m"
  const Red := "\U{1B}[31m"
  const Gray := "\U{1B}[90m"
}

/** The line-length cap shared by the detail echo and the result echo:
    a line longer than the budget keeps its first `max - 3` characters and
    ends in "...". */
module Truncation {

  function Cap(line: string, max: nat): string
    requires max >= 3
  {
    if |line| > max then line[..max - 3] + "..." else line
  }

  function Min(a: nat, b: nat): nat {
    if a < b then a else b
  }

  /** A capped line fits the budget; it is the line itself exactly when the
      line already fitted, and otherwise a prefix of it followed by "...". */
  lemma CapFits(line: string, max: nat)
    requires max >= 3
    ensures |Cap(line, max)| <= max
    ensures Cap(line, max) == line <==> |line| <= max
    ensures |line| > max ==> Cap(line, max) == line[..max - 3] + "..." && |Cap(line, max)| == max
  {
  }

  /** Capping twice is capping once. */
  lemma CapIdempotent(line: string, max: nat)
    requires max >= 3
    ensures Cap(Cap(line, max), max) == Cap(line, max)
  {
    CapFits(line, max);
  }
}

/** formatToolDetails and the echo of its result when a tool block stops
    (files/parse_stream.js:37-79 and 158-172). */
module ToolDetails {
  import opened Wrappers
  import opened JsValues
  import opened Truncation
  import Ansi

  /** Tools shown by one designated field: the field, and the text put
      before and after its value. */
  function FieldRule(tool: string): Option<(string, string, string)> {
    if tool == "Bash" then Some(("command", "$ ", ""))
    else if tool == "Read" then Some(("file_path", "\U{1F4C4} ", ""))
    else if tool == "Write" then Some(("file_path", "\U{270F}\U{FE0F}  ", ""))
    else if tool == "Edit" then Some(("file_path", "\U{1F528} ", ""))
    else if tool == "Glob" then Some(("pattern", "\U{1F50D} ", ""))
    else if tool == "Grep" then Some(("pattern", "\U{1F50E} \"", "\""))
    else if tool == "WebFetch" then Some(("url", "\U{1F310} ", ""))
    else if tool == "WebSearch" then Some(("query", "\U{1F50D} \"", "\""))
    else None
  }

  predicate IsKnownTool(name: JsValue) {
    name == Str("Task") || name == Str("TodoWrite") || name == Str("TaskCreate")
    || (name.Str? && FieldRule(name.s).Some?)
  }

  /** The first key of Object.keys(params) with its value: an object's first
      property, or index "0" of a non-empty array or string. */
  function FirstEntry(params: JsValue): Option<(string, JsValue)> {
    match params
    case Obj(props) => if |props| > 0 then Some(props[0]) else None
    case Arr(items) => if |items| > 0 then Some(("0", items[0])) else None
    case Str(s) => if |s| > 0 then Some(("0", Str([s[0]]))) else None
    case _ => None
  }

  /** The fallback for an unknown tool: `key: value` when the first value is
      a string shorter than 80 characters. */
  function FirstKeyDetail(params: JsValue): (r: JsValue)
    ensures r.Str? || r == Null
    ensures r.Str? <==> FirstEntry(params).Some? && FirstEntry(params).value.1.Str?
                        && |FirstEntry(params).value.1.s| < 80
    ensures r.Str? ==> r.s == FirstEntry(params).value.0 + ": " + FirstEntry(params).value.1.s
  {
    match FirstEntry(params)
    case Some((key, Str(s))) => if |s| < 80 then Str(key + ": " + s) else Null
    case _ => Null
  }

  /** formatToolDetails as written. `parsed` is what JSON.parse made of the
      buffered input (None when it threw); JavaScript null is `Null`. Reading
      a property of a null `params` throws, and the catch turns that into
      null. A Task call returns the description value itself, which need
      not be a string. */
  function DetailsAsWritten(name: JsValue, parsed: Option<JsValue>): (r: JsValue)
    ensures parsed.None? || IsNullish(parsed.value) ==> r == Null
    ensures r.Str? || r == Null || name == Str("Task")
  {
    match parsed
    case None => Null
    case Some(params) =>
      if IsNullish(params) then Null
      else if name == Str("Task") then
        var desc := Or(Get(params, "description"), Str(""));
        var kind := Or(Get(params, "subagent_type"), Str(""));
        if Truthy(kind) then Str(AsString(kind) + "(" + AsString(desc) + ")") else desc
      else if name == Str("TodoWrite") || name == Str("TaskCreate") then
        var todos := Get(params, "todos");
        if Truthy(todos) then Str(AsString(Get(todos, "length")) + " tasks") else Null
      else if name.Str? && FieldRule(name.s).Some? then
        var (field, before, after) := FieldRule(name.s).value;
        var v := Get(params, field);
        if Truthy(v) then Str(before + AsString(v) + after) else Null
      else FirstKeyDetail(params)
  }

  /** The detail text shown for a tool call, None for no display: what
      DetailsAsWritten yields when it is a non-empty string. A non-string
      result, which only a Task call can give, is no display. */
  function Details(name: JsValue, parsed: Option<JsValue>): (r: Option<string>)
    ensures r.Some? ==> r.value != ""
    ensures parsed.None? ==> r.None?
  {
    match DetailsAsWritten(name, parsed)
    case Str(s) => if s != "" then Some(s) else None
    case _ => None
  }

  /** The corrected formatter agrees with the source wherever the source
      yields a string or a falsy value; the two differ only on a truthy
      non-string result, and only a Task call produces one. */
  lemma DetailsMatchSource(name: JsValue, parsed: Option<JsValue>)
    ensures Details(name, parsed).Some? <==>
              DetailsAsWritten(name, parsed).Str? && Truthy(DetailsAsWritten(name, parsed))
    ensures Details(name, parsed).Some? ==> DetailsAsWritten(name, parsed) == Str(Details(name, parsed).value)
    ensures Truthy(DetailsAsWritten(name, parsed)) && !DetailsAsWritten(name, parsed).Str? ==>
              name == Str("Task")
  {
    if parsed.Some? && !IsNullish(parsed.value) && name != Str("Task") {
      var params := parsed.value;
      if !(name == Str("TodoWrite") || name == Str("TaskCreate")) && !(name.Str? && FieldRule(name.s).Some?) {
        assert DetailsAsWritten(name, parsed) == FirstKeyDetail(params);
      }
    }
  }

  /** A Bash call shows `$ ` and its command when the command is a non-empty
      string, and nothing when the command is missing or falsy. */
  lemma BashDetail(params: JsValue)
    requires !IsNullish(params)
    ensures Get(params, "command").Str? && Get(params, "command").s != "" ==>
              Details(Str("Bash"), Some(params)) == Some("$ " + Get(params, "command").s)
    ensures !Truthy(Get(params, "command")) ==> Details(Str("Bash"), Some(params)).None?
  {
    assert FieldRule("Bash") == Some(("command", "$ ", ""));
    var v := Get(params, "command");
    assert "Bash" != "Task" && "Bash" != "TodoWrite" && "Bash" != "TaskCreate";
    if v.Str? && v.s != "" {
      assert "$ " + AsString(v) + "" == "$ " + v.s;
    }
  }

  /** A tool shown by a designated field (Bash, Read, Write, Edit, Glob,
      Grep, WebFetch, WebSearch) shows its decorated value when the field is
      truthy, and nothing when it is missing or falsy. */
  lemma FieldToolDetail(tool: string, params: JsValue)
    requires FieldRule(tool).Some? && !IsNullish(params)
    ensures var rule := FieldRule(tool).value;
            var v := Get(params, rule.0);
            Details(Str(tool), Some(params)) == if Truthy(v) then Some(rule.1 + AsString(v) + rule.2) else None
  {
    assert tool != "Task" && tool != "TodoWrite" && tool != "TaskCreate";
    assert FieldRule(tool).value.1 != "";
  }

  /** TodoWrite and TaskCreate show the length of a truthy `todos` followed
      by " tasks", and nothing otherwise. */
  lemma TodoDetail(name: JsValue, params: JsValue)
    requires name == Str("TodoWrite") || name == Str("TaskCreate")
    requires !IsNullish(params)
    ensures var todos := Get(params, "todos");
            Details(name, Some(params)) ==
              if Truthy(todos) then Some(AsString(Get(todos, "length")) + " tasks") else None
  {
  }

  /** A Task call shows `type(description)` when it names a subagent type,
      else its description when that is a non-empty string. */
  lemma TaskDetail(params: JsValue)
    requires !IsNullish(params)
    ensures var kind := Get(params, "subagent_type");
            var desc := Get(params, "description");
            Details(Str("Task"), Some(params)) ==
              if Truthy(kind) then Some(AsString(kind) + "(" + AsString(Or(desc, Str(""))) + ")")
              else if desc.Str? && desc.s != "" then Some(desc.s)
              else None
  {
  }

  /** An unknown tool shows `key: value` for the first key of
      Object.keys(params) exactly when that key's value is a string shorter
      than 80 characters: an object is keyed by its first property, an array
      or a string by "0"; an empty object, array or string, a number and a
      boolean have no keys and show nothing. */
  lemma UnknownToolDetail(name: JsValue, params: JsValue)
    requires !IsKnownTool(name) && !IsNullish(params)
    ensures params.Num? || params.Bool? || params == Obj([]) || params == Arr([]) || params == Str("") ==>
              Details(name, Some(params)).None?
    ensures params.Obj? && |params.props| > 0 ==>
              var (key, v) := params.props[0];
              && (Details(name, Some(params)).Some? <==> v.Str? && |v.s| < 80)
              && (Details(name, Some(params)).Some? ==> Details(name, Some(params)).value == key + ": " + v.s)
    ensures params.Arr? && |params.items| > 0 ==>
              var v := params.items[0];
              && (Details(name, Some(params)).Some? <==> v.Str? && |v.s| < 80)
              && (Details(name, Some(params)).Some? ==> Details(name, Some(params)).value == "0: " + v.s)
    ensures params.Str? && |params.s| > 0 ==> Details(name, Some(params)) == Some("0: " + [params.s[0]])
  {
    assert DetailsAsWritten(name, Some(params)) == FirstKeyDetail(params);
    if params.Str? && |params.s| > 0 {
      assert FirstEntry(params) == Some(("0", Str([params.s[0]])));
      assert "0" + ": " + [params.s[0]] == "0: " + [params.s[0]];
    }
  }

  /** Unparsable input and a null document show nothing, whatever the tool. */
  lemma NoDetailWithoutParams(name: JsValue, parsed: Option<JsValue>)
    requires parsed.None? || IsNullish(parsed.value)
    ensures Details(name, parsed).None?
  {
  }

  const MaxDetailLines := 3
  const MaxDetailLength := 100

  /** The echo of a detail text, as logged at files/parse_stream.js:162-171:
      its first three lines, each capped at 100 characters, and a count of
      the lines left out. */
  function DetailLines(details: string): (r: seq<string>)
    ensures 1 <= |r| <= MaxDetailLines + 1
  {
    var lines := Split(details, '\n');
    var shown := Min(|lines|, MaxDetailLines);
    seq(shown, i requires 0 <= i < shown => Ansi.Dim + "   " + Cap(lines[i], MaxDetailLength) + Ansi.Reset)
    + (if |lines| > MaxDetailLines
       then [Ansi.Dim + "   ... +" + NatText(|lines| - MaxDetailLines) + " more lines" + Ansi.Reset]
       else [])
  }

  /** At most three detail lines are echoed, in order, each the source line
      when it fits 100 characters and otherwise its first 97 characters and
      "..."; one more line reports N = count - 3 exactly when there were more
      than three lines. */
  lemma DetailLinesShape(details: string)
    ensures var lines := Split(details, '\n');
            var r := DetailLines(details);
            && |r| == Min(|lines|, 3) + (if |lines| > 3 then 1 else 0)
            && (forall i :: 0 <= i < Min(|lines|, 3) ==>
                  var t := Cap(lines[i], 100);
                  r[i] == Ansi.Dim + "   " + t + Ansi.Reset && |t| <= 100
                  && (t == lines[i] <==> |lines[i]| <= 100)
                  && (|lines[i]| > 100 ==> t == lines[i][..97] + "..."))
            && (|lines| > 3 ==> r[3] == Ansi.Dim + "   ... +" + NatText(|lines| - 3) + " more lines" + Ansi.Reset)
  {
    var lines := Split(details, '\n');
    forall i | 0 <= i < Min(|lines|, 3)
      ensures var t := Cap(lines[i], 100);
              |t| <= 100 && (t == lines[i] <==> |lines[i]| <= 100)
              && (|lines[i]| > 100 ==> t == lines[i][..97] + "...")
    {
      CapFits(lines[i], 100);
    }
  }

  /** A detail of one short line is echoed as that line alone. */
  lemma DetailLinesSingle(line: string)
    requires '\n' !in line && |line| <= MaxDetailLength
    ensures DetailLines(line) == [Ansi.Dim + "   " + line + Ansi.Reset]
  {
    SplitNone(line, '\n');
  }
}
