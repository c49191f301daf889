/** formatToolResult (files/parse_stream.js:82-121): the text of a tool
    result, without blank lines, at most five lines of at most 120
    characters, and a count of the lines left out. */
module ToolResult {
  import opened Wrappers
  import opened JsValues
  import opened Truncation
  import Ansi

  const MaxLines := 5
  const MaxLineLength := 120

  /** What formatToolResult does: it throws, returns null, or returns a string. */
  datatype Formatted = Raised | NoDisplay | Display(text: string)

  /** The text gathered from an array of content blocks: each block whose
      type is "text" appends its `text`, converted to a string; any other
      block adds nothing. None when a block is null, whose `type` cannot be
      read. */
  function BlocksText(blocks: seq<JsValue>): (r: Option<string>)
    ensures r.Some? <==> forall i :: 0 <= i < |blocks| ==> !IsNullish(blocks[i])
  {
    if |blocks| == 0 then Some("")
    else match BlocksText(blocks[..|blocks| - 1])
      case None => None
      case Some(t) =>
        var block := blocks[|blocks| - 1];
        if IsNullish(block) then None
        else if Get(block, "type") == Str("text") then Some(t + AsString(Get(block, "text")))
        else Some(t)
  }

  /** The `text` formatToolResult extracts from a truthy content: the
      gathered blocks of an array, a string itself, or an object's truthy
      `text` field, else the empty string. None when gathering throws. */
  function ContentText(content: JsValue): (r: Option<JsValue>)
    ensures r.None? <==> content.Arr? && exists i :: 0 <= i < |content.items| && IsNullish(content.items[i])
    ensures content.Str? ==> r == Some(content)
    ensures r.Some? && content.Arr? ==> r.value.Str?
    ensures r.Some? && Truthy(r.value) && !content.Arr? && !content.Str? ==> r.value == Get(content, "text")
  {
    match content
    case Arr(blocks) =>
      (match BlocksText(blocks)
       case None => None
       case Some(t) => Some(Str(t)))
    case Str(_) => Some(content)
    case _ => Some(Or(Get(content, "text"), Str("")))
  }

  /** `lines.filter(l => l.trim())`. */
  function NonBlank(lines: seq<string>): (r: seq<string>)
    ensures |r| <= |lines|
    ensures forall i :: 0 <= i < |r| ==> !IsBlank(r[i])
  {
    if |lines| == 0 then []
    else (if IsBlank(lines[0]) then [] else [lines[0]]) + NonBlank(lines[1..])
  }

  /** The first five lines, each capped at 120 characters. */
  function Capped(lines: seq<string>): (r: seq<string>)
    ensures |r| == Min(|lines|, MaxLines)
    ensures forall i :: 0 <= i < |r| ==> |r[i]| <= MaxLineLength
    ensures forall i :: 0 <= i < |r| && |lines[i]| <= MaxLineLength ==> r[i] == lines[i]
  {
    var n := Min(|lines|, MaxLines);
    seq(n, i requires 0 <= i < n => Cap(lines[i], MaxLineLength))
  }

  function Marker(count: nat): string
    requires count > MaxLines
  {
    Ansi.Dim + "... +" + NatText(count - MaxLines) + " more lines" + Ansi.Reset
  }

  /** The lines formatToolResult joins: the capped lines, then the marker
      when lines were left out. */
  function Rendered(lines: seq<string>): (r: seq<string>)
    ensures |r| == Min(|lines|, MaxLines) + (if |lines| > MaxLines then 1 else 0)
    ensures |r| <= MaxLines + 1
  {
    Capped(lines) + (if |lines| > MaxLines then [Marker(|lines|)] else [])
  }

  /** formatToolResult as a function of its argument. */
  function FormattedResult(content: JsValue): (r: Formatted)
    ensures !Truthy(content) ==> r == NoDisplay
    ensures Truthy(content) && content.Str? ==> r.Display?
  {
    if !Truthy(content) then NoDisplay
    else match ContentText(content)
      case None => Raised
      case Some(text) =>
        if !Truthy(text) then NoDisplay
        else if !text.Str? then Raised
        else Display(Join(Rendered(NonBlank(Split(text.s, '\n'))), '\n'))
  }

  /** The `for...of` loop at files/parse_stream.js:89-93. */
  method CollectText(blocks: seq<JsValue>) returns (text: string, raised: bool)
    ensures raised <==> BlocksText(blocks).None?
    ensures !raised ==> BlocksText(blocks) == Some(text)
  {
    text, raised := "", false;
    for i := 0 to |blocks|
      invariant BlocksText(blocks[..i]) == Some(text)
    {
      var block := blocks[i];
      assert blocks[..i + 1][..i] == blocks[..i];
      if IsNullish(block) {
        BlocksTextAppend(blocks[..i + 1], blocks[i + 1..]);
        assert blocks[..i + 1] + blocks[i + 1..] == blocks;
        raised := true;
        return;
      }
      if Get(block, "type") == Str("text") {
        text := text + AsString(Get(block, "text"));
      }
    }
    assert blocks[..|blocks|] == blocks;
  }

  /** The index loop at files/parse_stream.js:107-118. */
  method Truncate(lines: seq<string>) returns (result: seq<string>)
    ensures result == Rendered(lines)
  {
    result := [];
    var n := Min(|lines|, MaxLines);
    for i := 0 to n
      invariant |result| == i
      invariant forall k :: 0 <= k < i ==> result[k] == Cap(lines[k], MaxLineLength)
    {
      var line := lines[i];
      if |line| > MaxLineLength {
        line := line[..MaxLineLength - 3] + "...";
      }
      result := result + [line];
    }
    assert result == Capped(lines);
    if |lines| > MaxLines {
      result := result + [Marker(|lines|)];
    }
  }

  method FormatToolResult(content: JsValue) returns (f: Formatted)
    ensures f == FormattedResult(content)
  {
    if !Truthy(content) {
      return NoDisplay;
    }
    var text := Str("");
    match content {
      case Arr(blocks) =>
        var t, raised := CollectText(blocks);
        if raised {
          return Raised;
        }
        text := Str(t);
      case Str(_) =>
        text := content;
      case _ =>
        if Truthy(Get(content, "text")) {
          text := Get(content, "text");
        }
    }
    if !Truthy(text) {
      return NoDisplay;
    }
    if !text.Str? {
      return Raised;
    }
    var lines := NonBlank(Split(text.s, '\n'));
    var result := Truncate(lines);
    f := Display(Join(result, '\n'));
  }

  /** Gathering is order-preserving: the text of two runs of blocks is the
      text of the first followed by the text of the second, and a null block
      anywhere makes the whole gathering throw. */
  lemma {:induction false} BlocksTextAppend(a: seq<JsValue>, b: seq<JsValue>)
    ensures BlocksText(a + b) ==
              if BlocksText(a).Some? && BlocksText(b).Some?
              then Some(BlocksText(a).value + BlocksText(b).value)
              else None
  {
    if |b| == 0 {
      assert a + b == a;
      assert BlocksText(b) == Some("");
      if BlocksText(a).Some? {
        assert BlocksText(a).value + "" == BlocksText(a).value;
      }
    } else {
      var b' := b[..|b| - 1];
      BlocksTextAppend(a, b');
      assert (a + b)[..|a + b| - 1] == a + b';
      if BlocksText(a).Some? && BlocksText(b').Some? {
        assert BlocksText(a).value + BlocksText(b').value + AsString(Get(b[|b| - 1], "text"))
            == BlocksText(a).value + (BlocksText(b').value + AsString(Get(b[|b| - 1], "text")));
      }
    }
  }

  /** Only a block typed "text" contributes, with its text. */
  lemma OneBlockText(block: JsValue)
    requires !IsNullish(block)
    ensures BlocksText([block]) ==
              Some(if Get(block, "type") == Str("text") then AsString(Get(block, "text")) else "")
  {
    assert [block][..0] == [];
    assert BlocksText([]) == Some("");
    assert "" + AsString(Get(block, "text")) == AsString(Get(block, "text"));
  }

  /** Filtering keeps every non-blank line, drops every blank one, and keeps
      their order. */
  lemma {:induction false} NonBlankAppend(a: seq<string>, b: seq<string>)
    ensures NonBlank(a + b) == NonBlank(a) + NonBlank(b)
  {
    if |a| > 0 {
      NonBlankAppend(a[1..], b);
      assert (a + b)[0] == a[0] && (a + b)[1..] == a[1..] + b;
    } else {
      assert a + b == b;
    }
  }

  lemma {:induction false} NonBlankLines(lines: seq<string>)
    ensures forall l :: l in NonBlank(lines) <==> l in lines && !IsBlank(l)
    ensures forall i :: 0 <= i < |NonBlank(lines)| ==> !IsBlank(NonBlank(lines)[i])
    ensures (forall i :: 0 <= i < |lines| ==> !IsBlank(lines[i])) ==> NonBlank(lines) == lines
    ensures (forall i :: 0 <= i < |lines| ==> IsBlank(lines[i])) ==> NonBlank(lines) == []
  {
    if |lines| > 0 {
      NonBlankLines(lines[1..]);
      assert lines == [lines[0]] + lines[1..];
    }
  }

  /** At most five content lines are shown, in their original order, each
      the line itself when it fits 120 characters and otherwise its first
      117 characters and "..."; a sixth line reports N = count - 5 exactly
      when more than five lines exist. */
  lemma RenderedShape(lines: seq<string>)
    ensures var r := Rendered(lines);
            && |r| == Min(|lines|, 5) + (if |lines| > 5 then 1 else 0)
            && (forall i :: 0 <= i < Min(|lines|, 5) ==>
                  |r[i]| <= 120 && (r[i] == lines[i] <==> |lines[i]| <= 120)
                  && (|lines[i]| > 120 ==> r[i] == lines[i][..117] + "..."))
            && (|lines| > 5 ==> r[5] == Ansi.Dim + "... +" + NatText(|lines| - 5) + " more lines" + Ansi.Reset)
  {
    var r := Rendered(lines);
    forall i | 0 <= i < Min(|lines|, 5)
      ensures |r[i]| <= 120 && (r[i] == lines[i] <==> |lines[i]| <= 120)
              && (|lines[i]| > 120 ==> r[i] == lines[i][..117] + "...")
    {
      CapFits(lines[i], 120);
    }
  }

  /** Re-applying the caps to capped lines changes nothing. */
  lemma CappedIdempotent(lines: seq<string>)
    ensures Capped(Capped(lines)) == Capped(lines)
  {
    var c := Capped(lines);
    forall i | 0 <= i < |c|
      ensures Capped(c)[i] == c[i]
    {
      CapIdempotent(lines[i], MaxLineLength);
    }
  }

  /** No rendered line holds a line break, so the lines the caller gets back
      by splitting the joined result are exactly the rendered lines. */
  lemma RenderedSplitsBack(lines: seq<string>)
    requires forall i :: 0 <= i < |lines| ==> '\n' !in lines[i]
    requires |lines| > 0
    ensures Split(Join(Rendered(lines), '\n'), '\n') == Rendered(lines)
  {
    var r := Rendered(lines);
    forall i | 0 <= i < |r|
      ensures '\n' !in r[i]
    {
      if i < Min(|lines|, MaxLines) {
        CapFits(lines[i], MaxLineLength);
        if |lines[i]| > MaxLineLength {
          assert forall c :: c in lines[i][..MaxLineLength - 3] ==> c in lines[i];
        }
      } else {
        var digits := NatText(|lines| - MaxLines);
        assert '\n' !in digits;
        assert r[i] == Ansi.Dim + "... +" + digits + " more lines" + Ansi.Reset;
      }
    }
    SplitJoin(r, '\n');
  }

  /** A result is shown only for truthy content whose extracted text is
      truthy: falsy content and an empty extracted text give null. A
      displayed string is empty exactly when every line of the text is blank. */
  lemma DisplayCases(content: JsValue)
    ensures !Truthy(content) ==> FormattedResult(content) == NoDisplay
    ensures Truthy(content) && ContentText(content) == Some(Str("")) ==> FormattedResult(content) == NoDisplay
    ensures FormattedResult(content).Display? ==>
              var text := ContentText(content).value;
              && Truthy(content) && text.Str? && text.s != ""
              && (FormattedResult(content).text == "" <==> NonBlank(Split(text.s, '\n')) == [])
  {
    if FormattedResult(content).Display? {
      var text := ContentText(content).value;
      var lines := NonBlank(Split(text.s, '\n'));
      NonBlankLines(Split(text.s, '\n'));
      if lines != [] {
        var r := Rendered(lines);
        assert r[0] == Cap(lines[0], MaxLineLength);
        CapFits(lines[0], MaxLineLength);
        assert !IsBlank(lines[0]);
        assert r[0] != "";
        assert |Join(r, '\n')| >= |r[0]|;
      }
    }
  }
}
