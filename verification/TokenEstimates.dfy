/** Token estimates from character classes alone, rounded so as to err on the large side. */
module TokenEstimates {
  import opened Contracts

  const ASCII_CHARS_PER_TOKEN: nat := 3
  const ALPHABETIC_TOKENS_PER_CHAR: nat := 1
  const OTHER_TOKENS_PER_CHAR: nat := 3
  const MESSAGE_OVERHEAD_TOKENS: nat := 8
  const TOOL_OVERHEAD_TOKENS: nat := 16
  const TOOL_CALL_OVERHEAD_TOKENS: nat := 12
  const TEMPLATE_OVERHEAD_TOKENS: nat := 640

  datatype CharClass = Ascii | Alphabetic | Other

  function ClassOf(c: char): CharClass {
    if c as int < 0x80 then Ascii else if c as int < 0x2000 then Alphabetic else Other
  }

  function Count(text: string, cls: CharClass): nat {
    if text == "" then 0
    else Count(text[..|text| - 1], cls) + if ClassOf(text[|text| - 1]) == cls then 1 else 0
  }

  function CeilDiv(n: nat, d: nat): nat
    requires d > 0
  {
    (n + d - 1) / d
  }

  function TextTokens(text: string): nat {
    CeilDiv(Count(text, Ascii), ASCII_CHARS_PER_TOKEN)
    + Count(text, Alphabetic) * ALPHABETIC_TOKENS_PER_CHAR
    + Count(text, Other) * OTHER_TOKENS_PER_CHAR
  }

  lemma {:induction false} AllAscii(text: string)
    requires forall i | 0 <= i < |text| :: ClassOf(text[i]).Ascii?
    ensures Count(text, Ascii) == |text| && Count(text, Alphabetic) == 0 && Count(text, Other) == 0
  {
    if text != "" {
      AllAscii(text[..|text| - 1]);
    }
  }

  /** The all-ASCII shortcut and the classifying loop agree with one definition. */
  method EstimateTextTokens(text: string) returns (tokens: nat)
    ensures tokens == TextTokens(text)
  {
    if forall i | 0 <= i < |text| :: text[i] as int < 0x80 {
      AllAscii(text);
      return CeilDiv(|text|, ASCII_CHARS_PER_TOKEN);
    }
    var asciiChars, alphabetic, other := 0, 0, 0;
    for i := 0 to |text|
      invariant asciiChars == Count(text[..i], Ascii)
      invariant alphabetic == Count(text[..i], Alphabetic)
      invariant other == Count(text[..i], Other)
    {
      assert text[..i + 1][..i] == text[..i];
      var code := text[i] as int;
      if code < 0x80 {
        asciiChars := asciiChars + 1;
      } else if code < 0x2000 {
        alphabetic := alphabetic + 1;
      } else {
        other := other + 1;
      }
    }
    assert text[..|text|] == text;
    tokens := CeilDiv(asciiChars, ASCII_CHARS_PER_TOKEN)
      + alphabetic * ALPHABETIC_TOKENS_PER_CHAR
      + other * OTHER_TOKENS_PER_CHAR;
  }

  lemma {:induction false} CountConcat(a: string, b: string, cls: CharClass)
    ensures Count(a + b, cls) == Count(a, cls) + Count(b, cls)
  {
    if b == "" {
      assert a + b == a;
    } else {
      assert (a + b)[..|a + b| - 1] == a + b[..|b| - 1];
      CountConcat(a, b[..|b| - 1], cls);
    }
  }

  lemma {:induction false} CountTotal(text: string)
    ensures Count(text, Ascii) + Count(text, Alphabetic) + Count(text, Other) == |text|
  {
    if text != "" {
      CountTotal(text[..|text| - 1]);
    }
  }

  /** Splitting a text never lowers its estimate and raises it by one token at most, so
      fragments cannot be used to under-count; three characters never cost less than a token. */
  lemma TextTokensSplit(a: string, b: string)
    ensures TextTokens(a + b) <= TextTokens(a) + TextTokens(b) <= TextTokens(a + b) + 1
    ensures |a| <= ASCII_CHARS_PER_TOKEN * TextTokens(a)
  {
    CountConcat(a, b, Ascii);
    CountConcat(a, b, Alphabetic);
    CountConcat(a, b, Other);
    CountTotal(a);
  }

  function CallsTokens(calls: seq<ToolRequest>, compact: Json -> string): nat {
    if calls == [] then 0
    else
      var call := calls[|calls| - 1];
      CallsTokens(calls[..|calls| - 1], compact)
      + TOOL_CALL_OVERHEAD_TOKENS + TextTokens(call.id) + TextTokens(call.name)
      + TextTokens(compact(call.arguments))
  }

  function MessageTokens(m: Message, compact: Json -> string): (tokens: nat)
    ensures tokens >= MESSAGE_OVERHEAD_TOKENS
  {
    MESSAGE_OVERHEAD_TOKENS + TextTokens(m.content) + CallsTokens(m.toolRequests, compact)
    + match m.toolRequestId
      case None => 0
      case Some(id) => TextTokens(id) + TextTokens(if m.toolName.Some? then m.toolName.value else "")
  }

  method EstimateMessageTokens(m: Message, compact: Json -> string) returns (total: nat)
    ensures total == MessageTokens(m, compact)
  {
    var content := EstimateTextTokens(m.content);
    total := MESSAGE_OVERHEAD_TOKENS + content;
    for i := 0 to |m.toolRequests|
      invariant total == MESSAGE_OVERHEAD_TOKENS + TextTokens(m.content)
                         + CallsTokens(m.toolRequests[..i], compact)
    {
      assert m.toolRequests[..i + 1][..i] == m.toolRequests[..i];
      var call := m.toolRequests[i];
      var id := EstimateTextTokens(call.id);
      var name := EstimateTextTokens(call.name);
      var arguments := EstimateTextTokens(compact(call.arguments));
      total := total + TOOL_CALL_OVERHEAD_TOKENS + id + name + arguments;
    }
    assert m.toolRequests[..|m.toolRequests|] == m.toolRequests;
    if m.toolRequestId.Some? {
      var id := EstimateTextTokens(m.toolRequestId.value);
      var name := EstimateTextTokens(if m.toolName.Some? then m.toolName.value else "");
      total := total + id + name;
    }
  }

  function DefinitionsTokens(tools: seq<ToolDefinition>, compact: Json -> string): nat {
    if tools == [] then 0
    else
      var tool := tools[|tools| - 1];
      DefinitionsTokens(tools[..|tools| - 1], compact)
      + TOOL_OVERHEAD_TOKENS + TextTokens(tool.name) + TextTokens(tool.description)
      + TextTokens(compact(tool.inputSchema))
  }

  function ToolsTokens(tools: seq<ToolDefinition>, outputSchema: Option<Json>,
                       compact: Json -> string): nat {
    DefinitionsTokens(tools, compact)
    + if outputSchema.Some? then TOOL_OVERHEAD_TOKENS + TextTokens(compact(outputSchema.value)) else 0
  }

  method EstimateToolsTokens(tools: seq<ToolDefinition>, outputSchema: Option<Json>,
                             compact: Json -> string)
    returns (total: nat)
    ensures total == ToolsTokens(tools, outputSchema, compact)
  {
    total := 0;
    for i := 0 to |tools|
      invariant total == DefinitionsTokens(tools[..i], compact)
    {
      assert tools[..i + 1][..i] == tools[..i];
      var name := EstimateTextTokens(tools[i].name);
      var description := EstimateTextTokens(tools[i].description);
      var schema := EstimateTextTokens(compact(tools[i].inputSchema));
      total := total + TOOL_OVERHEAD_TOKENS + name + description + schema;
    }
    assert tools[..|tools|] == tools;
    if outputSchema.Some? {
      var schema := EstimateTextTokens(compact(outputSchema.value));
      total := total + TOOL_OVERHEAD_TOKENS + schema;
    }
  }
}
