/** The size of a chat request, the adapter's prompt measure, and the check that refuses a
    request that is too long. */
module RequestSizing {
  import opened Contracts
  import opened ContextPlanner
  import opened Decimals
  import opened SchemaRewrite

  datatype Invocation = Invocation(
    messages: seq<Message>,
    tools: seq<ToolDefinition>,
    limits: Limits,
    outputSchema: Option<Json>,
    effort: Option<string>)

  /** The profile's model, and the parts of JSON text this model does not open: the text of
      call arguments, and the printed length of strings and of fractions. */
  datatype Encoder = Encoder(
    model: string,
    argumentsText: Json -> string,
    stringChars: string -> nat,
    fractionChars: real -> nat)

  // ---------------------------------------------------------------------------------------
  // The body
  // ---------------------------------------------------------------------------------------

  function RoleName(role: Role): string {
    match role
    case System => "system"
    case User => "user"
    case Assistant => "assistant"
    case Tool => "tool"
  }

  function CallBody(e: Encoder, call: ToolRequest): Json {
    Obj([("id", Str(call.id)), ("type", Str("function")),
         ("function", Obj([("name", Str(call.name)), ("arguments", Str(e.argumentsText(call.arguments)))]))])
  }

  function CallBodies(e: Encoder, calls: seq<ToolRequest>): seq<Json> {
    seq(|calls|, i requires 0 <= i < |calls| => CallBody(e, calls[i]))
  }

  function MessageBody(e: Encoder, m: Message): Json {
    Obj([("role", Str(RoleName(m.role))), ("content", Str(m.content))]
        + (if m.toolRequests != [] then [("tool_calls", Arr(CallBodies(e, m.toolRequests)))] else [])
        + (if m.toolRequestId.Some? then
             [("tool_call_id", Str(m.toolRequestId.value)),
              ("name", if m.toolName.Some? then Str(m.toolName.value) else Null)]
           else []))
  }

  function MessageBodies(e: Encoder, messages: seq<Message>): seq<Json> {
    seq(|messages|, i requires 0 <= i < |messages| => MessageBody(e, messages[i]))
  }

  function ToolBody(tool: ToolDefinition): Json {
    Obj([("type", Str("function")),
         ("function", Obj([("name", Str(tool.name)), ("description", Str(tool.description)),
                           ("parameters", tool.inputSchema)]))])
  }

  function ToolBodies(tools: seq<ToolDefinition>): seq<Json> {
    seq(|tools|, i requires 0 <= i < |tools| => ToolBody(tools[i]))
  }

  function HeadEntries(e: Encoder, inv: Invocation): seq<(string, Json)> {
    [("model", Str(e.model)), ("messages", Arr(MessageBodies(e, inv.messages)))]
  }

  function TailEntries(inv: Invocation, stream: bool): seq<(string, Json)> {
    [("stream", Bool(stream))]
    + (if stream then [("stream_options", Obj([("include_usage", Bool(true))]))] else [])
    + (if inv.tools != [] then [("tools", Arr(ToolBodies(inv.tools))), ("tool_choice", Str("auto"))] else [])
    + (if inv.effort.Some? then [("reasoning_effort", Str(inv.effort.value))] else [])
    + (if inv.outputSchema.Some? then
         [("response_format",
           Obj([("type", Str("json_schema")),
                ("json_schema", Obj([("name", Str("runtime_output")), ("strict", Bool(true)),
                                     ("schema", inv.outputSchema.value)]))]))]
       else [])
  }

  function ChatBody(e: Encoder, inv: Invocation, stream: bool): Json {
    Obj(HeadEntries(e, inv) + [("max_tokens", Int(inv.limits.maxOutputTokens))] + TailEntries(inv, stream))
  }

  // ---------------------------------------------------------------------------------------
  // Its length as JSON text, with ", " and ": " as separators
  // ---------------------------------------------------------------------------------------

  function TextChars(e: Encoder, v: Json): nat
    decreases v, 1, 0
  {
    match v
    case Null => 4
    case Bool(flag) => if flag then 4 else 5
    case Int(n) => if n < 0 then 1 + |Decimal(-n)| else |Decimal(n)|
    case Float(r) => e.fractionChars(r)
    case Str(text) => e.stringChars(text)
    case Arr(items) => 2 + Separators(|items|) + ItemsChars(e, v, 0)
    case Obj(entries) => 2 + Separators(|entries|) + EntriesChars(e, v, 0)
  }

  function Separators(n: nat): nat { if n == 0 then 0 else 2 * (n - 1) }

  function ItemsChars(e: Encoder, v: Json, i: nat): nat
    requires v.Arr? && i <= |v.items|
    decreases v, 0, |v.items| - i
  {
    if i == |v.items| then 0 else TextChars(e, v.items[i]) + ItemsChars(e, v, i + 1)
  }

  function EntriesChars(e: Encoder, v: Json, i: nat): nat
    requires v.Obj? && i <= |v.entries|
    decreases v, 0, |v.entries| - i
  {
    if i == |v.entries| then 0
    else e.stringChars(v.entries[i].0) + 2 + TextChars(e, v.entries[i].1) + EntriesChars(e, v, i + 1)
  }

  // ---------------------------------------------------------------------------------------
  // Measuring and sending
  // ---------------------------------------------------------------------------------------

  /** The request, unless it is longer than the input limit. */
  function Sent(e: Encoder, inv: Invocation, stream: bool): Option<Json> {
    var body := ChatBody(e, inv, stream);
    if TextChars(e, body) > inv.limits.maxInputChars then None else Some(body)
  }

  /** The request's size with no limit applied. */
  function ChatPromptChars(e: Encoder, inv: Invocation, stream: bool): nat {
    TextChars(e, ChatBody(e, inv, stream))
  }

  /** LM Studio is sent translated tool schemas. */
  function Translated(inv: Invocation): Invocation {
    inv.(tools := seq(|inv.tools|, i requires 0 <= i < |inv.tools| =>
                    inv.tools[i].(inputSchema := Compatible(inv.tools[i].inputSchema))))
  }

  /** LM Studio may send either shape and counts the longer one. */
  function LmPromptChars(e: Encoder, inv: Invocation): nat {
    Max(ChatPromptChars(e, Translated(inv), false), ChatPromptChars(e, Translated(inv), true))
  }

  // ---------------------------------------------------------------------------------------
  // Planned means accepted
  // ---------------------------------------------------------------------------------------

  /** Objects that differ in one entry differ in length as that entry does. */
  lemma {:induction false} OneEntryDiffers(e: Encoder, v: Json, w: Json, at: nat, i: nat)
    requires v.Obj? && w.Obj? && |v.entries| == |w.entries| && at < |v.entries| && i <= |v.entries|
    requires v.entries[at].0 == w.entries[at].0 && TextChars(e, v.entries[at].1) <= TextChars(e, w.entries[at].1)
    requires forall k | 0 <= k < |v.entries| && k != at :: v.entries[k] == w.entries[k]
    ensures EntriesChars(e, v, i) <= EntriesChars(e, w, i)
    decreases |v.entries| - i
  {
    if i < |v.entries| {
      OneEntryDiffers(e, v, w, at, i + 1);
    }
  }

  /** A request with a smaller output allowance is no longer. */
  lemma SmallerAllowanceIsNoLonger(e: Encoder, inv: Invocation, output: nat, stream: bool)
    requires output <= inv.limits.maxOutputTokens
    ensures ChatPromptChars(e, inv.(limits := inv.limits.(maxOutputTokens := output)), stream)
         <= ChatPromptChars(e, inv, stream)
  {
    var less := inv.(limits := inv.limits.(maxOutputTokens := output));
    var v, w := ChatBody(e, less, stream), ChatBody(e, inv, stream);
    DecimalLengthMonotone(output, inv.limits.maxOutputTokens);
    assert v.entries == HeadEntries(e, inv) + [("max_tokens", Int(output))] + TailEntries(inv, stream);
    OneEntryDiffers(e, v, w, 2, 0);
  }

  /** The invocation a window is measured as. */
  function Measured(r: Request, messages: seq<Message>, effort: Option<string>): Invocation {
    Invocation(messages, r.tools, r.limits, r.outputSchema, effort)
  }

  /** The invocation a planned window is sent as: the allocated output, not the configured one. */
  function Invoked(r: Request, plan: ContextPlan, effort: Option<string>): Invocation {
    Invocation(plan.messages, r.tools, r.limits.(maxOutputTokens := plan.allocatedOutputTokens), r.outputSchema, effort)
  }

  /** A window LM Studio's measure admitted is never refused by its send-time check, in either
      request shape. */
  lemma PlannedMeansAccepted(e: Encoder, r: Request, effort: Option<string>, stream: bool)
    requires forall messages: seq<Message> :: r.measure(messages) == LmPromptChars(e, Measured(r, messages, effort))
    requires PlanOf(r).failure.None?
    ensures Sent(e, Translated(Invoked(r, PlanOf(r), effort)), stream).Some?
  {
    PlanIsSound(r);
    var plan := PlanOf(r);
    var measured := Measured(r, plan.messages, effort);
    SmallerAllowanceIsNoLonger(e, Translated(measured), plan.allocatedOutputTokens, stream);
    assert Translated(Invoked(r, plan, effort))
        == Translated(measured).(limits := r.limits.(maxOutputTokens := plan.allocatedOutputTokens));
  }

  /** The same for an adapter that sends one request shape and measures that shape. */
  lemma OneShapePlannedMeansAccepted(e: Encoder, r: Request, effort: Option<string>, stream: bool)
    requires forall messages: seq<Message> ::
             r.measure(messages) == ChatPromptChars(e, Measured(r, messages, effort), stream)
    requires PlanOf(r).failure.None?
    ensures Sent(e, Invoked(r, PlanOf(r), effort), stream).Some?
  {
    PlanIsSound(r);
    var plan := PlanOf(r);
    SmallerAllowanceIsNoLonger(e, Measured(r, plan.messages, effort), plan.allocatedOutputTokens, stream);
  }

  // ---------------------------------------------------------------------------------------
  // Building the request
  // ---------------------------------------------------------------------------------------

  /** Builds the body entry by entry and applies the limit. */
  method BuildChatBody(e: Encoder, inv: Invocation, stream: bool) returns (sent: Option<Json>)
    ensures sent == Sent(e, inv, stream)
  {
    var messages: seq<Json> := [];
    for i := 0 to |inv.messages|
      invariant messages == MessageBodies(e, inv.messages)[..i]
    {
      var m := inv.messages[i];
      var item := [("role", Str(RoleName(m.role))), ("content", Str(m.content))];
      if m.toolRequests != [] {
        item := item + [("tool_calls", Arr(CallBodies(e, m.toolRequests)))];
      }
      if m.toolRequestId.Some? {
        item := item + [("tool_call_id", Str(m.toolRequestId.value))];
        item := item + [("name", if m.toolName.Some? then Str(m.toolName.value) else Null)];
      }
      assert Obj(item) == MessageBody(e, m);
      messages := messages + [Obj(item)];
    }
    assert messages == MessageBodies(e, inv.messages);
    var body := Obj([("model", Str(e.model)), ("messages", Arr(messages))]
                    + [("max_tokens", Int(inv.limits.maxOutputTokens))] + TailEntries(inv, stream));
    if TextChars(e, body) > inv.limits.maxInputChars {
      return None;
    }
    sent := Some(body);
  }
}
