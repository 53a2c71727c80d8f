/** The accumulator itself: the object whose fields each chunk updates in place. */
module ChatStreamAccumulator {
  import opened Contracts
  import opened ChatCodec
  import opened ChatStream

  class ChatStreamDecoder {
    const env: Invocation
    var textParts: seq<string>
    var textChars: nat
    var calls: map<int, Call>
    var finish: Option<string>
    var model: Option<string>
    var usage: Entries
    var refused: bool
    /** The chunks accepted so far. */
    ghost var chunks: seq<Entries>

    function State(): Decoder
      reads this
    {
      Decoder(textParts, textChars, calls, finish, model, usage, refused)
    }

    /** The fields hold what the chunks accepted so far amount to. */
    ghost predicate Valid()
      reads this
    {
      AcceptAll(env, chunks).0 == State() && AcceptAll(env, chunks).1.Ok?
    }

    constructor (env: Invocation)
      ensures Valid() && this.env == env && chunks == []
    {
      this.env := env;
      textParts, textChars, calls, finish, model, usage, refused := [], 0, map[], None, None, [], false;
      chunks := [];
    }

    /** Notes one chunk and returns the text to show. A failure ends the stream: the fields then
        keep whatever part of the chunk was noted before it. */
    method Accept(payload: Entries) returns (shown: Result<seq<string>, Failure>)
      requires Valid()
      modifies this
      ensures State() == Accepted(env, old(State()), payload).0
      ensures shown == Accepted(env, old(State()), payload).1
      ensures shown.Ok? ==> Valid() && chunks == old(chunks) + [payload]
      ensures shown.Err? ==> chunks == old(chunks)
    {
      ghost var start := State();
      shown := AcceptChunk(payload);
      if shown.Ok? {
        Recorded(start, payload);
      }
    }

    method AcceptChunk(payload: Entries) returns (shown: Result<seq<string>, Failure>)
      modifies this`textParts, this`textChars, this`calls, this`finish, this`model, this`usage, this`refused
      ensures State() == Accepted(env, old(State()), payload).0
      ensures shown == Accepted(env, old(State()), payload).1
    {
      ghost var accepted := Accepted(env, State(), payload);
      var identity := Identity(Lookup(payload, "model"));
      if identity.Err? {
        return Err(InvalidOutput);
      }
      if identity.value.Some? {
        if model.Some? && model != identity.value {
          return Err(InvalidOutput);
        }
        model := identity.value;
      }
      usage := Update(usage, SafeUsage(Lookup(payload, "usage")));
      var choices := Lookup(payload, "choices");
      if choices.None? || !choices.value.Arr? {
        return Err(InvalidOutput);
      }
      if choices.value.items == [] {
        return Ok([]);
      }
      if |choices.value.items| != 1 || finish.Some? {
        return Err(InvalidOutput);
      }
      assert accepted == AcceptChoice(env, State(), choices.value.items[0]);
      shown := AcceptOnlyChoice(choices.value.items[0]);
    }

    /** Extends the ghost record of accepted chunks. */
    ghost method Recorded(start: Decoder, payload: Entries)
      requires AcceptAll(env, chunks).0 == start && AcceptAll(env, chunks).1.Ok?
      requires Accepted(env, start, payload).0 == State() && Accepted(env, start, payload).1.Ok?
      modifies this`chunks
      ensures Valid() && chunks == old(chunks) + [payload]
      ensures State() == old(State())
    {
      var all := chunks + [payload];
      assert all[..|all| - 1] == chunks && all[|all| - 1] == payload;
      chunks := all;
    }

    method AcceptOnlyChoice(choice: Json) returns (shown: Result<seq<string>, Failure>)
      modifies this`textParts, this`textChars, this`calls, this`finish, this`refused
      ensures State() == AcceptChoice(env, old(State()), choice).0
      ensures shown == AcceptChoice(env, old(State()), choice).1
    {
      if !choice.Obj? || !IsFirst(Lookup(choice.entries, "index")) {
        return Err(InvalidOutput);
      }
      var delta := Lookup(choice.entries, "delta");
      if delta.None? || !delta.value.Obj? {
        return Err(InvalidOutput);
      }
      var entries := delta.value.entries;
      var text := AcceptContent(Lookup(entries, "content"));
      if text.Err? {
        return Err(text.error);
      }
      var ok := AcceptRest(Truthy(Lookup(entries, "refusal")), Lookup(entries, "tool_calls"),
                           Lookup(choice.entries, "finish_reason"));
      if !ok {
        return Err(InvalidOutput);
      }
      shown := Ok(if text.value != "" then [text.value] else []);
    }

    method AcceptContent(content: Option<Json>) returns (text: Result<string, Failure>)
      modifies this`textParts, this`textChars
      ensures (State(), text) == TakeContent(env, old(State()), content)
    {
      if Absent(content) {
        return Ok("");
      }
      if !content.value.Str? {
        return Err(InvalidOutput);
      }
      if textChars + |content.value.text| > env.maxOutputChars {
        return Err(OutputLimit);
      }
      if content.value.text != "" {
        textParts := textParts + [content.value.text];
        textChars := textChars + |content.value.text|;
      }
      text := Ok(content.value.text);
    }

    method AcceptRest(refusal: bool, raws: Option<Json>, reason: Option<Json>) returns (ok: bool)
      modifies this`calls, this`finish, this`refused
      ensures (State(), ok) == TakeCalls(old(State()), refusal, raws, reason)
    {
      if refusal {
        refused := true;
      }
      if raws.Some? && !raws.value.Arr? {
        return false;
      }
      ok := AcceptFragments(if raws.Some? then raws.value.items else []);
      if !ok || (!Absent(reason) && !reason.value.Str?) {
        return false;
      }
      if !Absent(reason) {
        finish := Some(reason.value.text);
      }
    }

    /** The loop over the call fragments of one chunk. */
    method AcceptFragments(raws: seq<Json>) returns (ok: bool)
      modifies this`calls
      ensures (calls, ok) == AcceptCalls(old(calls), raws)
    {
      ok := true;
      for i := 0 to |raws|
        invariant ok && (calls, true) == AcceptCalls(old(calls), raws[..i])
      {
        assert raws[..i + 1][..i] == raws[..i];
        var noted: map<int, Call>;
        noted, ok := AcceptCall(calls, raws[i]).0, AcceptCall(calls, raws[i]).1;
        calls := noted;
        if !ok {
          FailureStays(old(calls), raws, i + 1);
          return;
        }
      }
      assert raws[..|raws|] == raws;
    }

    /** The whole message, as if it had not been streamed. */
    method Complete() returns (result: Result<Completion, Failure>)
      requires Valid()
      ensures result == Completed(env, State())
      ensures result.Ok? ==> result.value.text == Glue(AcceptAll(env, chunks).1.value)
    {
      result := DecodeChat(env, WholePayload(Glue(textParts), calls, finish, model, usage, refused), false);
      if result.Ok? {
        CompletedTextIsShown(env, chunks);
      }
    }
  }

  lemma {:induction false} FailureStays(calls: map<int, Call>, raws: seq<Json>, n: nat)
    requires n <= |raws| && !AcceptCalls(calls, raws[..n]).1
    ensures AcceptCalls(calls, raws) == AcceptCalls(calls, raws[..n])
  {
    if n < |raws| {
      var front := raws[..|raws| - 1];
      assert front[..n] == raws[..n];
      FailureStays(calls, front, n);
    } else {
      assert raws[..n] == raws;
    }
  }
}
