/** The frame around every tool result on its way to the model. */
module ToolData {
  import opened Results
  import opened JsonValues
  import opened JsonText

  const OPEN_MARK: string := "<TOOL_DATA>"
  const CLOSE_MARK: string := "</TOOL_DATA>"

  /** `format_tool_result_for_llm`. */
  function FormatToolResult(result: Json): string {
    OPEN_MARK + ("\n" + (Dumps(result, true) + ("\n" + CLOSE_MARK)))
  }

  /** `text.split('\n')`. */
  function Lines(text: string): (lines: seq<string>)
    ensures lines != []
  {
    if text == "" then [""]
    else if text[0] == '\n' then [""] + Lines(text[1..])
    else
      var rest := Lines(text[1..]);
      [[text[0]] + rest[0]] + rest[1..]
  }

  lemma {:induction false} FirstLine(line: string, rest: string)
    requires '\n' !in line
    ensures Lines(line + ("\n" + rest)) == [line] + Lines(rest)
  {
    var text := line + ("\n" + rest);
    if line == "" {
      assert text[1..] == rest;
    } else {
      assert text[1..] == line[1..] + ("\n" + rest);
      FirstLine(line[1..], rest);
      assert line == [line[0]] + line[1..];
    }
  }

  lemma {:induction false} OneLine(line: string)
    requires '\n' !in line
    ensures Lines(line) == [line]
  {
    if line != "" {
      OneLine(line[1..]);
      assert line == [line[0]] + line[1..];
    }
  }

  /**
   Whatever strings sit inside the value, closing markers and line breaks included, the
   frame has three lines: the opening mark, the value, the closing mark. No value prints
   as either mark, and reading the middle line gives the value back.
   */
  lemma FrameHoldsItsContents(result: Json)
    requires Wf(result)
    ensures var lines := Lines(FormatToolResult(result));
      && lines == [OPEN_MARK, Dumps(result, true), CLOSE_MARK]
      && lines[1] != OPEN_MARK && lines[1] != CLOSE_MARK
      && Loads(lines[1]) == Some(result)
  {
    var text := Dumps(result, true);
    DumpsPrintable(result);
    FirstLine(OPEN_MARK, text + ("\n" + CLOSE_MARK));
    FirstLine(text, CLOSE_MARK);
    OneLine(CLOSE_MARK);
    DumpsHead(result, true, "");
    assert text + "" == text;
    RoundTrip(result, true);
  }

  /** Two results with the same frame are the same result. */
  lemma FrameIsInjective(a: Json, b: Json)
    requires Wf(a) && Wf(b)
    requires FormatToolResult(a) == FormatToolResult(b)
    ensures a == b
  {
    FrameHoldsItsContents(a);
    FrameHoldsItsContents(b);
  }
}
