/** OpenAI-compatible chat completions: decoding a whole message, and accumulating one that
    arrives as a stream of chunks. */
module ChatCodec {
  import opened Contracts

  const MAX_CALLS: nat := 128
  const MAX_ID_CHARS: nat := 128

  datatype Failure = InvalidOutput | Incomplete | RefusedByProvider | OutputLimit

  type Entries = seq<(string, Json)>

  /** The invocation as decoding reads it. `parse` is JSON parsing of a text and `blank` tells
      texts of white space only. */
  datatype Invocation = Invocation(
    maxOutputChars: nat,
    hasOutputSchema: bool,
    hasTools: bool,
    parse: string -> Option<Json>,
    blank: string -> bool)

  datatype Completion = Completion(
    text: string,
    toolRequests: seq<ToolRequest>,
    model: Option<string>,
    upstream: Option<string>,
    usage: Entries)

  /** Python truth of a JSON value. */
  predicate Truthy(value: Option<Json>) {
    match value
    case None => false
    case Some(Null) => false
    case Some(Bool(b)) => b
    case Some(Int(n)) => n != 0
    case Some(Float(x)) => x != 0.0
    case Some(Str(s)) => s != ""
    case Some(Arr(items)) => items != []
    case Some(Obj(entries)) => entries != []
  }

  predicate Absent(value: Option<Json>) { value.None? || value.value.Null? }

  function Identity(value: Option<Json>): Result<Option<string>, Failure> {
    if Absent(value) then Ok(None)
    else if value.value.Str? && 0 < |value.value.text| <= 256
            && forall i | 0 <= i < |value.value.text| :: value.value.text[i] as int >= 32
    then Ok(Some(value.value.text))
    else Err(InvalidOutput)
  }

  predicate IsUsage(entry: (string, Json)) {
    && entry.0 in {"prompt_tokens", "completion_tokens", "total_tokens", "input_tokens", "output_tokens", "cost"}
    && ((entry.1.Int? && entry.1.number >= 0) || (entry.1.Float? && entry.1.amount >= 0.0))
  }

  function Filtered(entries: Entries): (usage: Entries)
    ensures forall i | 0 <= i < |usage| :: IsUsage(usage[i])
  {
    if entries == [] then []
    else (if IsUsage(entries[0]) then [entries[0]] else []) + Filtered(entries[1..])
  }

  function SafeUsage(value: Option<Json>): Entries {
    if value.Some? && value.value.Obj? then Filtered(value.value.entries) else []
  }

  // ---------------------------------------------------------------------------------------
  // A whole message
  // ---------------------------------------------------------------------------------------

  function StrOf(value: Option<Json>): Option<string> {
    if value.Some? && value.value.Str? then Some(value.value.text) else None
  }

  function DecodeCall(env: Invocation, call: Json): Option<ToolRequest> {
    if !call.Obj? || Lookup(call.entries, "type") != Some(Str("function")) then None
    else
      match Lookup(call.entries, "function")
      case Some(Obj(function_)) =>
        var arguments, id, name := StrOf(Lookup(function_, "arguments")), StrOf(Lookup(call.entries, "id")),
                                   StrOf(Lookup(function_, "name"));
        if arguments.None? || id.None? || name.None? then None
        else
          var parsed := env.parse(arguments.value);
          if parsed.None? || !parsed.value.Obj? || id.value == "" || |id.value| > MAX_ID_CHARS then None
          else Some(ToolRequest(id.value, name.value, parsed.value))
      case _ => None
  }

  function DecodeCalls(env: Invocation, calls: seq<Json>): Option<seq<ToolRequest>> {
    if calls == [] then Some([])
    else
      var first, rest := DecodeCall(env, calls[0]), DecodeCalls(env, calls[1..]);
      if first.None? || rest.None? then None else Some([first.value] + rest.value)
  }

  ghost predicate OneForOne<A, B>(decode: A -> Option<B>, raws: seq<A>, decoded: Option<seq<B>>) {
    if decoded.None? then exists i | 0 <= i < |raws| :: decode(raws[i]).None?
    else
      && |decoded.value| == |raws|
      && forall i | 0 <= i < |raws| :: decode(raws[i]) == Some(decoded.value[i])
  }

  lemma OneForOneCons<A, B>(decode: A -> Option<B>, raw: A, raws: seq<A>, decoded: Option<seq<B>>)
    requires OneForOne(decode, raws, decoded)
    ensures OneForOne(decode, [raw] + raws,
                      match decode(raw)
                      case None => None
                      case Some(first) => if decoded.None? then None else Some([first] + decoded.value))
  {
    var all := [raw] + raws;
    if decode(raw).None? {
      assert decode(all[0]).None?;
    } else if decoded.None? {
      var i :| 0 <= i < |raws| && decode(raws[i]).None?;
      assert decode(all[i + 1]).None?;
    }
  }

  /** Calls are decoded one for one, in order, and all of them or none. */
  lemma {:induction false} DecodeCallsOneForOne(env: Invocation, calls: seq<Json>)
    ensures OneForOne((call: Json) => DecodeCall(env, call), calls, DecodeCalls(env, calls))
  {
    var decode := (call: Json) => DecodeCall(env, call);
    if calls != [] {
      DecodeCallsOneForOne(env, calls[1..]);
      OneForOneCons(decode, calls[0], calls[1..], DecodeCalls(env, calls[1..]));
      assert calls == [calls[0]] + calls[1..];
    }
  }

  /** The first reasoning field that is not blank, if it is a bounded JSON text. */
  function ReasoningAnswer(env: Invocation, message: Entries): Result<string, Failure> {
    var first, second := StrOf(Lookup(message, "reasoning_content")), StrOf(Lookup(message, "reasoning"));
    var candidate := if first.Some? && !env.blank(first.value) then first
                     else if second.Some? && !env.blank(second.value) then second
                     else None;
    if candidate.None? then Ok("")
    else if |candidate.value| > env.maxOutputChars || env.parse(candidate.value).None? then Err(InvalidOutput)
    else Ok(candidate.value)
  }

  function DecodeMessage(env: Invocation, message: Entries, structured: bool)
    : Result<(string, seq<ToolRequest>), Failure>
  {
    DecodeParts(env, Truthy(Lookup(message, "refusal")), Lookup(message, "content"), Lookup(message, "tool_calls"),
                structured, ReasoningAnswer(env, message))
  }

  function DecodeParts(env: Invocation, refused: bool, raw: Option<Json>, calls: Option<Json>, structured: bool,
                       reasoning: Result<string, Failure>): Result<(string, seq<ToolRequest>), Failure>
  {
    if refused then Err(RefusedByProvider)
    else
      var content := ContentOf(raw);
      if content.None? || |content.value| > env.maxOutputChars then Err(InvalidOutput)
      else if calls.Some? && (!calls.value.Arr? || |calls.value.items| > MAX_CALLS) then Err(InvalidOutput)
      else Settle(env, content.value, DecodeCalls(env, if calls.Some? then calls.value.items else []), structured,
                  reasoning)
  }

  /** A content that is false for Python counts as empty. */
  function ContentOf(raw: Option<Json>): Option<string> {
    if Truthy(raw) then StrOf(raw) else Some("")
  }

  /** Promotes the reasoning of a structured answer without text, and refuses an empty answer. */
  function Settle(env: Invocation, content: string, requests: Option<seq<ToolRequest>>, structured: bool,
                  reasoning: Result<string, Failure>): Result<(string, seq<ToolRequest>), Failure>
  {
    if requests.None? then Err(InvalidOutput)
    else
      var promoted := structured && env.hasOutputSchema && !env.hasTools
                      && env.blank(content) && requests.value == [];
      var text := if promoted then reasoning else Ok(content);
      if text.Err? then Err(text.error)
      else if env.blank(text.value) && requests.value == [] then Err(InvalidOutput)
      else Ok((text.value, requests.value))
  }

  function DecodeChoice(env: Invocation, choice: Entries, structured: bool)
    : Result<(string, seq<ToolRequest>), Failure>
  {
    match Lookup(choice, "message")
    case Some(Obj(message)) => DecodeMessage(env, message, structured)
    case _ => Err(InvalidOutput)
  }

  function DecodeChat(env: Invocation, payload: Entries, structured: bool): Result<Completion, Failure> {
    match Lookup(payload, "choices")
    case Some(Arr(choices)) =>
      if |choices| != 1 || !choices[0].Obj? then Err(InvalidOutput)
      else
        CompletionOf(Lookup(choices[0].entries, "finish_reason"), DecodeChoice(env, choices[0].entries, structured),
                     Identity(Lookup(payload, "model")), Identity(Lookup(payload, "provider")),
                     SafeUsage(Lookup(payload, "usage")))
    case _ => Err(InvalidOutput)
  }

  /** The checks around the message: how it finished, what it says, and who says it. */
  function CompletionOf(finish: Option<Json>, decoded: Result<(string, seq<ToolRequest>), Failure>,
                        model: Result<Option<string>, Failure>, upstream: Result<Option<string>, Failure>,
                        usage: Entries): Result<Completion, Failure>
  {
    if finish.Some? && (finish.value.Arr? || finish.value.Obj?) then Err(InvalidOutput)
    else if finish != Some(Str("stop")) && finish != Some(Str("tool_calls")) then Err(Incomplete)
    else if decoded.Err? then Err(decoded.error)
    else if model.Err? || upstream.Err? then Err(InvalidOutput)
    else Ok(Completion(decoded.value.0, decoded.value.1, model.value, upstream.value, usage))
  }

  // ---------------------------------------------------------------------------------------
  // A streamed message
  // ---------------------------------------------------------------------------------------

  datatype Call = Call(id: Option<string>, name: string, arguments: string)

  const NoCall: Call := Call(None, "", "")

  datatype Decoder = Decoder(
    textParts: seq<string>,
    textChars: nat,
    calls: map<int, Call>,
    finish: Option<string>,
    model: Option<string>,
    usage: Entries,
    refused: bool)

  const Fresh: Decoder := Decoder([], 0, map[], None, None, [], false)

  function Glue(parts: seq<string>): string {
    if parts == [] then "" else Glue(parts[..|parts| - 1]) + parts[|parts| - 1]
  }

  /** `dict.update`: known keys are replaced in place, new ones come last. */
  function Update(entries: Entries, more: Entries): Entries
    decreases |more|
  {
    if more == [] then entries else Update(Set(entries, more[0].0, more[0].1), more[1..])
  }

  function Set(entries: Entries, key: string, value: Json): Entries {
    if entries == [] then [(key, value)]
    else if entries[0].0 == key then [(key, value)] + entries[1..]
    else [entries[0]] + Set(entries[1..], key, value)
  }

  /** `choice.get("index", 0) != 0` is false: absent, zero, or false, which equals zero. */
  predicate IsFirst(index: Option<Json>) {
    index.None? || index.value == Int(0) || index.value == Float(0.0) || index.value == Bool(false)
  }

  /** Adds a fragment under one key; the flag says whether it was a text or absent. */
  function Extended(text: string, fragment: Option<Json>): (string, bool) {
    if Absent(fragment) then (text, true)
    else if fragment.value.Str? then (text + fragment.value.text, true)
    else (text, false)
  }

  function CallIndex(raw: Json): Option<int> {
    if !raw.Obj? then None
    else match Lookup(raw.entries, "index")
      case Some(Int(index)) => if 0 <= index < MAX_CALLS then Some(index) else None
      case _ => None
  }

  /** One tool-call fragment, with what stays recorded when it is refused half way. */
  function AcceptCall(calls: map<int, Call>, raw: Json): (map<int, Call>, bool) {
    var at := CallIndex(raw);
    if at.None? then (calls, false)
    else
      var index := at.value;
      var call := if index in calls then calls[index] else NoCall;
      var id, kind, function_ := Lookup(raw.entries, "id"), Lookup(raw.entries, "type"), Lookup(raw.entries,
          "function");
      if !Absent(id) && (!id.value.Str? || (call.id.Some? && call.id != Some(id.value.text)))
      then (calls[index := call], false)
      else
        var named := if Absent(id) then call else call.(id := Some(id.value.text));
        if !Absent(kind) && kind != Some(Str("function")) then (calls[index := named], false)
        else if Absent(function_) then (calls[index := named], true)
        else if !function_.value.Obj? then (calls[index := named], false)
        else
          var (name, nameOk) := Extended(named.name, Lookup(function_.value.entries, "name"));
          var (arguments, argumentsOk) :=
            if nameOk then Extended(named.arguments, Lookup(function_.value.entries, "arguments"))
            else (named.arguments, false);
          (calls[index := named.(name := name, arguments := arguments)], nameOk && argumentsOk)
  }

  function AcceptCalls(calls: map<int, Call>, raws: seq<Json>): (map<int, Call>, bool) {
    if raws == [] then (calls, true)
    else
      var (before, ok) := AcceptCalls(calls, raws[..|raws| - 1]);
      if ok then AcceptCall(before, raws[|raws| - 1]) else (before, false)
  }

  /** Takes a text fragment under the bound on the whole text. */
  function TakeContent(env: Invocation, d: Decoder, content: Option<Json>): (Decoder, Result<string, Failure>) {
    if Absent(content) then (d, Ok(""))
    else if !content.value.Str? then (d, Err(InvalidOutput))
    else
      var text := content.value.text;
      if d.textChars + |text| > env.maxOutputChars then (d, Err(OutputLimit))
      else if text == "" then (d, Ok(""))
      else (d.(textParts := d.textParts + [text], textChars := d.textChars + |text|), Ok(text))
  }

  /** Takes the refusal, the call fragments and the finish reason. */
  function TakeCalls(d: Decoder, refusal: bool, raws: Option<Json>, finish: Option<Json>): (Decoder, bool) {
    var d1 := if refusal then d.(refused := true) else d;
    if raws.Some? && !raws.value.Arr? then (d1, false)
    else
      var (calls, ok) := AcceptCalls(d1.calls, if raws.Some? then raws.value.items else []);
      var d2 := d1.(calls := calls);
      if !ok || (!Absent(finish) && !finish.value.Str?) then (d2, false)
      else (d2.(finish := if Absent(finish) then d2.finish else Some(finish.value.text)), true)
  }

  function AcceptDelta(env: Invocation, d: Decoder, delta: Entries, finish: Option<Json>)
    : (Decoder, Result<seq<string>, Failure>)
  {
    AcceptParts(env, d, Lookup(delta, "content"), Truthy(Lookup(delta, "refusal")), Lookup(delta, "tool_calls"), finish)
  }

  function AcceptParts(env: Invocation, d: Decoder, content: Option<Json>, refusal: bool, raws: Option<Json>,
                       finish: Option<Json>): (Decoder, Result<seq<string>, Failure>)
  {
    var (d1, text) := TakeContent(env, d, content);
    if text.Err? then (d1, Err(text.error))
    else
      var (d2, ok) := TakeCalls(d1, refusal, raws, finish);
      (d2, if !ok then Err(InvalidOutput) else Ok(if text.value == "" then [] else [text.value]))
  }

  function AcceptChoice(env: Invocation, d: Decoder, choice: Json): (Decoder, Result<seq<string>, Failure>) {
    if !choice.Obj? || !IsFirst(Lookup(choice.entries, "index")) then (d, Err(InvalidOutput))
    else match Lookup(choice.entries, "delta")
      case Some(Obj(delta)) => AcceptDelta(env, d, delta, Lookup(choice.entries, "finish_reason"))
      case _ => (d, Err(InvalidOutput))
  }

  /** One chunk: the new state and the texts to show, or the failure. */
  function Accepted(env: Invocation, d: Decoder, payload: Entries): (Decoder, Result<seq<string>, Failure>) {
    var model := Identity(Lookup(payload, "model"));
    if model.Err? || (model.value.Some? && d.model.Some? && d.model != model.value) then (d, Err(InvalidOutput))
    else
      var d1 := d.(model := if model.value.Some? then model.value else d.model,
                   usage := Update(d.usage, SafeUsage(Lookup(payload, "usage"))));
      match Lookup(payload, "choices")
      case Some(Arr(choices)) =>
        if choices == [] then (d1, Ok([]))
        else if |choices| != 1 || d1.finish.Some? then (d1, Err(InvalidOutput))
        else AcceptChoice(env, d1, choices[0])
      case _ => (d1, Err(InvalidOutput))
  }

  function CallValue(call: Call): Json {
    Obj([("id", if call.id.Some? then Str(call.id.value) else Null),
         ("type", Str("function")),
         ("function", Obj([("name", Str(call.name)), ("arguments", Str(call.arguments))]))])
  }

  /** Recorded indices from `from` on, ascending. */
  function Indices(calls: map<int, Call>, from: nat): (indices: seq<int>)
    ensures forall i | 0 <= i < |indices| :: indices[i] in calls && from <= indices[i] < MAX_CALLS
    ensures forall i, j | 0 <= i < j < |indices| :: indices[i] < indices[j]
    ensures forall n | from <= n < MAX_CALLS && n in calls :: n in indices
    decreases MAX_CALLS - from
  {
    if from >= MAX_CALLS then []
    else if from in calls then [from as int] + Indices(calls, from + 1)
    else Indices(calls, from + 1)
  }

  function CallValues(calls: map<int, Call>): seq<Json> {
    var indices := Indices(calls, 0);
    seq(|indices|, i requires 0 <= i < |indices| => CallValue(calls[indices[i]]))
  }

  function WholeMessage(content: string, calls: map<int, Call>, refused: bool): Entries {
    [("content", Str(content)), ("tool_calls", Arr(CallValues(calls)))]
    + if refused then [("refusal", Bool(true))] else []
  }

  function WholePayload(content: string, calls: map<int, Call>, finish: Option<string>, model: Option<string>,
                        usage: Entries, refused: bool): Entries {
    [("choices", Arr([Obj([
        ("finish_reason", if finish.Some? then Str(finish.value) else Null),
        ("message", Obj(WholeMessage(content, calls, refused)))])])),
     ("model", if model.Some? then Str(model.value) else Null),
     ("usage", Obj(usage))]
  }

  function Completed(env: Invocation, d: Decoder): Result<Completion, Failure> {
    DecodeChat(env, WholePayload(Glue(d.textParts), d.calls, d.finish, d.model, d.usage, d.refused), false)
  }
}
