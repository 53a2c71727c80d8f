/** The provider-neutral values every other module shares: JSON values, transcript
    messages, limits and the provider's capacity evidence. */
module Contracts {

  datatype Option<+T> = None | Some(value: T)

  datatype Result<+T, +E> = Ok(value: T) | Err(error: E)

  /** A decoded JSON value. An object keeps its entries in the order of the dictionary. */
  datatype Json =
    | Null
    | Bool(flag: bool)
    | Int(number: int)
    | Float(amount: real)
    | Str(text: string)
    | Arr(items: seq<Json>)
    | Obj(entries: seq<(string, Json)>)

  function Lookup(entries: seq<(string, Json)>, key: string): (r: Option<Json>)
    ensures r.Some? ==> (key, r.value) in entries
    ensures r.None? <==> forall i | 0 <= i < |entries| :: entries[i].0 != key
  {
    if entries == [] then None
    else if entries[0].0 == key then Some(entries[0].1)
    else Lookup(entries[1..], key)
  }

  lemma LookupCons(key: string, value: Json, rest: seq<(string, Json)>, wanted: string)
    ensures Lookup([(key, value)] + rest, wanted) == if key == wanted then Some(value) else Lookup(rest, wanted)
  {
    assert ([(key, value)] + rest)[1..] == rest;
  }

  lemma LookupTwo(k0: string, v0: Json, k1: string, v1: Json, wanted: string)
    ensures Lookup([(k0, v0), (k1, v1)], wanted)
         == if k0 == wanted then Some(v0) else if k1 == wanted then Some(v1) else None
  {
    LookupCons(k0, v0, [(k1, v1)], wanted);
    LookupCons(k1, v1, [], wanted);
    assert [(k0, v0), (k1, v1)] == [(k0, v0)] + [(k1, v1)] && [(k1, v1)] == [(k1, v1)] + [];
  }

  lemma LookupThree(k0: string, v0: Json, k1: string, v1: Json, k2: string, v2: Json, wanted: string)
    ensures Lookup([(k0, v0), (k1, v1), (k2, v2)], wanted)
         == if k0 == wanted then Some(v0) else if k1 == wanted then Some(v1)
            else if k2 == wanted then Some(v2) else None
  {
    LookupCons(k0, v0, [(k1, v1), (k2, v2)], wanted);
    LookupTwo(k1, v1, k2, v2, wanted);
    assert [(k0, v0), (k1, v1), (k2, v2)] == [(k0, v0)] + [(k1, v1), (k2, v2)];
  }

  datatype Role = System | User | Assistant | Tool

  datatype ToolRequest = ToolRequest(id: string, name: string, arguments: Json)

  datatype ToolDefinition = ToolDefinition(name: string, description: string, inputSchema: Json)

  datatype Message = Message(
    role: Role,
    content: string,
    toolRequests: seq<ToolRequest>,
    toolRequestId: Option<string>,
    toolName: Option<string>)

  function Plain(role: Role, content: string): Message {
    Message(role, content, [], None, None)
  }

  datatype Limits = Limits(
    maxInputChars: nat,
    maxOutputChars: nat,
    maxOutputTokens: nat,
    maxToolRounds: nat)

  /** The bounds a profile must keep to be configured. */
  predicate Configurable(limits: Limits) {
    && 1_000 <= limits.maxInputChars <= 200_000
    && 1_000 <= limits.maxOutputChars <= 100_000
    && 1 <= limits.maxOutputTokens <= 128_000
    && limits.maxToolRounds <= 32
  }

  /** Loaded context length as the provider reports it; unknown capacity has no count. */
  datatype ContextWindow = ContextWindow(tokens: Option<nat>, source: string)

  function Min(a: int, b: int): int { if a <= b then a else b }

  function Max(a: int, b: int): int { if a >= b then a else b }

  /** A nonempty sequence is its front followed by its last element. */
  lemma FrontAndLast<T>(s: seq<T>)
    requires s != []
    ensures s == s[..|s| - 1] + [s[|s| - 1]]
  {
  }
}
