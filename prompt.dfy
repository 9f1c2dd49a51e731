/** Prompt rendering: `StructuralDataLoader.generate_prompt` and the list
    comprehension in `preprocess_function` that renders one prompt per row. */
module Prompt {
  import opened PyStr

  /** The fixed pieces of the three-section template, newlines included. */
  const InstructionHeader: string := "### Instruction:\n"
  const InputHeader: string := "\n\n### Input:\n"
  const ResponseHeader: string := "\n\n### Response:\n"

  /** The response header without its final newline: what the prompt ends
      with when the response is blank. */
  const ResponseLabel: string := "\n\n### Response:"

  /** The f-string before `.strip()` is applied. */
  function Unstripped(instruction: string, input: string, response: string): string {
    InstructionHeader + instruction + InputHeader + input + ResponseHeader + response
  }

  /** `generate_prompt(instruction, input, response)`. */
  function GeneratePrompt(instruction: string, input: string, response: string): string {
    Strip(Unstripped(instruction, input, response))
  }

  /** Everything of the template up to and including the response label; no
      stripping ever reaches into it. */
  function Kept(instruction: string, input: string): string {
    InstructionHeader + instruction + InputHeader + input + ResponseLabel
  }

  /** The prompt spelt out without `strip`: the response loses its trailing
      whitespace, and a blank response also takes the newline after
      `### Response:` with it. */
  lemma {:induction false} PromptShape(instruction: string, input: string, response: string)
    ensures GeneratePrompt(instruction, input, response) ==
      if AllSpace(response) then Kept(instruction, input)
      else InstructionHeader + instruction + InputHeader + input + ResponseHeader + StripTrailing(response)
  {
    var u := Unstripped(instruction, input, response);
    var a := InstructionHeader + instruction + InputHeader + input + ResponseHeader;
    var k := Kept(instruction, input);
    assert u == a + response;
    assert u[0] == '#';
    StripLeadingNoop(u);
    StripTrailingAppend(a, response);
    StripTrailingEmptyIff(response);
    assert a == k + "\n";
    StripTrailingAppend(k, "\n");
    assert StripTrailing(k) == k by {
      assert k[|k| - 1] == ':';
    }
  }

  /** The prompt always opens with the instruction header and the instruction,
      and keeps the whole template through `### Response:`: the leading strip
      removes nothing because the template starts with `#`. */
  lemma PromptStartsWithTemplate(instruction: string, input: string, response: string)
    ensures Kept(instruction, input) <= GeneratePrompt(instruction, input, response)
    ensures InstructionHeader + instruction <= GeneratePrompt(instruction, input, response)
    ensures GeneratePrompt(instruction, input, response)[0] == '#'
  {
    PromptShape(instruction, input, response);
    var tail := if AllSpace(response) then "" else "\n" + StripTrailing(response);
    assert GeneratePrompt(instruction, input, response) == Kept(instruction, input) + tail;
    KeptIsPrefix(instruction, input, tail);
  }

  /** Whatever follows the kept template, the instruction header and the
      instruction come first. */
  lemma KeptIsPrefix(instruction: string, input: string, tail: string)
    ensures Kept(instruction, input) <= Kept(instruction, input) + tail
    ensures InstructionHeader + instruction <= Kept(instruction, input) + tail
    ensures (Kept(instruction, input) + tail)[0] == '#'
  {
    var h := InstructionHeader + instruction;
    var k := Kept(instruction, input);
    assert k == h + (InputHeader + input + ResponseLabel);
    assert (k + tail)[..|k|] == k;
    assert (k + tail)[..|h|] == h;
  }

  /** The prompt is the unstripped template with only trailing whitespace cut. */
  lemma PromptIsTrailingTrim(instruction: string, input: string, response: string)
    ensures var u := Unstripped(instruction, input, response);
      var p := GeneratePrompt(instruction, input, response);
      p <= u && AllSpace(u[|p|..])
  {
    var u := Unstripped(instruction, input, response);
    assert u[0] == '#';
    StripLeadingNoop(u);
    StripTrailingSpec(u);
  }

  /** The prompt is never empty and never ends in whitespace. */
  lemma PromptEndsInNonSpace(instruction: string, input: string, response: string)
    ensures var p := GeneratePrompt(instruction, input, response);
      |p| > 0 && !IsSpace(p[|p| - 1])
  {
    var u := Unstripped(instruction, input, response);
    var l := StripLeading(u);
    StripTrailingSpec(l);
    assert StripTrailing(l) == GeneratePrompt(instruction, input, response);
    assert |GeneratePrompt(instruction, input, response)| > 0 by {
      PromptStartsWithTemplate(instruction, input, response);
    }
  }

  /** A response whose last character is not whitespace survives whole: the
      prompt is exactly the filled-in template. */
  lemma PromptExactWhenResponseEndsInNonSpace(instruction: string, input: string, response: string)
    requires |response| > 0 && !IsSpace(response[|response| - 1])
    ensures GeneratePrompt(instruction, input, response) == Unstripped(instruction, input, response)
  {
    PromptShape(instruction, input, response);
  }

  /** An empty or all-whitespace response vanishes together with the newline
      after the response header, so the prompt ends with `### Response:`. */
  lemma PromptWhenResponseBlank(instruction: string, input: string, response: string)
    requires AllSpace(response)
    ensures GeneratePrompt(instruction, input, response) == Kept(instruction, input)
    ensures var p := GeneratePrompt(instruction, input, response);
      |p| >= 13 && p[|p| - 13..] == "### Response:"
  {
    PromptShape(instruction, input, response);
    var k := Kept(instruction, input);
    var front := InstructionHeader + instruction + InputHeader + input;
    assert k == front + ResponseLabel;
    assert k[|k| - 13..] == ResponseLabel[2..];
  }

  /** The six-line example: instruction "Explain X", input "Y", response "Z". */
  lemma PromptExample(instruction: string, input: string, response: string)
    requires instruction == "Explain X" && input == "Y" && response == "Z"
    ensures GeneratePrompt(instruction, input, response) ==
      "### Instruction:\nExplain X\n\n### Input:\nY\n\n### Response:\nZ"
  {
    PromptExactWhenResponseEndsInNonSpace(instruction, input, response);
    var a := InstructionHeader + instruction;
    var b := a + InputHeader + input;
    assert a == "### Instruction:\nExplain X";
    assert b == "### Instruction:\nExplain X\n\n### Input:\nY";
    assert Unstripped(instruction, input, response) == b + ResponseHeader + response;
  }

  /** One row of the three configured columns. */
  datatype Row = Row(instruction: string, input: string, response: string)

  function Min3(a: nat, b: nat, c: nat): nat {
    if a <= b && a <= c then a else if b <= c then b else c
  }

  /** Python's `zip` over three lists: stops at the shortest one. */
  function Zip3(instructions: seq<string>, inputs: seq<string>, responses: seq<string>): (rows: seq<Row>)
    ensures |rows| == Min3(|instructions|, |inputs|, |responses|)
    ensures forall k :: 0 <= k < |rows| ==>
      rows[k] == Row(instructions[k], inputs[k], responses[k])
  {
    if |instructions| == 0 || |inputs| == 0 || |responses| == 0 then
      []
    else
      [Row(instructions[0], inputs[0], responses[0])]
      + Zip3(instructions[1..], inputs[1..], responses[1..])
  }

  /** The comprehension `[generate_prompt(i, x, r) for i, x, r in zip(...)]`:
      one prompt per row, in row order, as many as the shortest column has. */
  function BuildPrompts(instructions: seq<string>, inputs: seq<string>, responses: seq<string>): (prompts: seq<string>)
    ensures |prompts| == Min3(|instructions|, |inputs|, |responses|)
    ensures forall k :: 0 <= k < |prompts| ==>
      prompts[k] == GeneratePrompt(instructions[k], inputs[k], responses[k])
  {
    var rows := Zip3(instructions, inputs, responses);
    seq(|rows|, k requires 0 <= k < |rows| =>
      GeneratePrompt(rows[k].instruction, rows[k].input, rows[k].response))
  }

  /** Rows past the end of the shortest column play no part. */
  lemma BuildPromptsIgnoresOverhang(instructions: seq<string>, inputs: seq<string>, responses: seq<string>)
    ensures var n := Min3(|instructions|, |inputs|, |responses|);
      BuildPrompts(instructions, inputs, responses)
        == BuildPrompts(instructions[..n], inputs[..n], responses[..n])
  {
    var n := Min3(|instructions|, |inputs|, |responses|);
    var p := BuildPrompts(instructions, inputs, responses);
    var q := BuildPrompts(instructions[..n], inputs[..n], responses[..n]);
    assert |p| == |q|;
    forall k | 0 <= k < |p| ensures p[k] == q[k] {
      assert instructions[..n][k] == instructions[k];
      assert inputs[..n][k] == inputs[k];
      assert responses[..n][k] == responses[k];
    }
  }

  /** Adding one row to three columns of equal length adds its prompt at the end. */
  lemma BuildPromptsAppend(instructions: seq<string>, inputs: seq<string>, responses: seq<string>,
                           instruction: string, input: string, response: string)
    requires |instructions| == |inputs| == |responses|
    ensures BuildPrompts(instructions + [instruction], inputs + [input], responses + [response])
      == BuildPrompts(instructions, inputs, responses) + [GeneratePrompt(instruction, input, response)]
  {
    var p := BuildPrompts(instructions + [instruction], inputs + [input], responses + [response]);
    var q := BuildPrompts(instructions, inputs, responses) + [GeneratePrompt(instruction, input, response)];
    assert |p| == |q|;
    forall k | 0 <= k < |p| ensures p[k] == q[k] {
      if k < |instructions| {
        assert (instructions + [instruction])[k] == instructions[k];
        assert (inputs + [input])[k] == inputs[k];
        assert (responses + [response])[k] == responses[k];
      }
    }
  }
}
