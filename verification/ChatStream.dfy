/** Streaming a chat message in fragments gives what decoding the whole message gives. */
module ChatStream {
  import opened Contracts
  import opened ChatCodec

  /** Part of one tool call. */
  datatype CallFragment = CallFragment(
    index: int,
    id: Option<string>,
    name: Option<string>,
    arguments: Option<string>)

  /** What one chunk contributes; a chunk without a choice carries only identity and usage. */
  datatype Fragment = Fragment(
    hasChoice: bool,
    content: Option<string>,
    refusal: bool,
    calls: seq<CallFragment>,
    finish: Option<string>,
    model: Option<string>,
    usage: Entries)

  predicate SaysText(value: Option<Json>, text: Option<string>) {
    if text.None? then Absent(value) else value == Some(Str(text.value))
  }

  /** `raw` is some JSON form of the call fragment: absent and null keys mean the same. */
  predicate SaysCall(raw: Json, c: CallFragment) {
    && CallIndex(raw) == Some(c.index)
    && SaysText(Lookup(raw.entries, "id"), c.id)
    && (var kind := Lookup(raw.entries, "type"); Absent(kind) || kind == Some(Str("function")))
    && var function_ := Lookup(raw.entries, "function");
       if Absent(function_) then c.name.None? && c.arguments.None?
       else
         && function_.value.Obj?
         && SaysText(Lookup(function_.value.entries, "name"), c.name)
         && SaysText(Lookup(function_.value.entries, "arguments"), c.arguments)
  }

  predicate SaysCalls(raws: seq<Json>, calls: seq<CallFragment>) {
    |raws| == |calls| && forall i | 0 <= i < |raws| :: SaysCall(raws[i], calls[i])
  }

  predicate SaysChoice(choice: Json, f: Fragment) {
    && choice.Obj?
    && IsFirst(Lookup(choice.entries, "index"))
    && SaysText(Lookup(choice.entries, "finish_reason"), f.finish)
    && (match Lookup(choice.entries, "delta")
        case Some(Obj(delta)) =>
          && SaysText(Lookup(delta, "content"), f.content)
          && (Truthy(Lookup(delta, "refusal")) <==> f.refusal)
          && (match Lookup(delta, "tool_calls")
              case None => f.calls == []
              case Some(Arr(raws)) => SaysCalls(raws, f.calls)
              case _ => false)
        case _ => false)
  }

  /** `payload` is some JSON form of the fragment. */
  predicate Says(payload: Entries, f: Fragment) {
    && Identity(Lookup(payload, "model")) == Ok(f.model)
    && SafeUsage(Lookup(payload, "usage")) == f.usage
    && (match Lookup(payload, "choices")
        case Some(Arr(choices)) =>
          if f.hasChoice then |choices| == 1 && SaysChoice(choices[0], f)
          else choices == [] && f.content.None? && !f.refusal && f.calls == [] && f.finish.None?
        case _ => false)
  }

  // ---------------------------------------------------------------------------------------
  // What fragments add up to, field by field
  // ---------------------------------------------------------------------------------------

  function OrEmpty(text: Option<string>): string { if text.Some? then text.value else "" }

  function TextOf(fs: seq<Fragment>): string {
    if fs == [] then "" else TextOf(fs[..|fs| - 1]) + OrEmpty(fs[|fs| - 1].content)
  }

  function CallFragmentsOf(fs: seq<Fragment>): seq<CallFragment> {
    if fs == [] then [] else CallFragmentsOf(fs[..|fs| - 1]) + fs[|fs| - 1].calls
  }

  function NameOf(cs: seq<CallFragment>, index: int): string {
    if cs == [] then ""
    else
      var c := cs[|cs| - 1];
      NameOf(cs[..|cs| - 1], index) + if c.index == index then OrEmpty(c.name) else ""
  }

  function ArgumentsOf(cs: seq<CallFragment>, index: int): string {
    if cs == [] then ""
    else
      var c := cs[|cs| - 1];
      ArgumentsOf(cs[..|cs| - 1], index) + if c.index == index then OrEmpty(c.arguments) else ""
  }

  function IdOf(cs: seq<CallFragment>, index: int): Option<string> {
    if cs == [] then None
    else
      var c := cs[|cs| - 1];
      if c.index == index && c.id.Some? then c.id else IdOf(cs[..|cs| - 1], index)
  }

  /** The calls, each glued together from its own fragments, whatever stood between them. */
  function CallsOf(cs: seq<CallFragment>): map<int, Call> {
    map i | i in (set c | c in cs :: c.index) :: Call(IdOf(cs, i), NameOf(cs, i), ArgumentsOf(cs, i))
  }

  function FinishOf(fs: seq<Fragment>): Option<string> {
    if fs == [] then None
    else if fs[|fs| - 1].finish.Some? then fs[|fs| - 1].finish
    else FinishOf(fs[..|fs| - 1])
  }

  function ModelOf(fs: seq<Fragment>): Option<string> {
    if fs == [] then None
    else if fs[|fs| - 1].model.Some? then fs[|fs| - 1].model
    else ModelOf(fs[..|fs| - 1])
  }

  function UsageOf(fs: seq<Fragment>): Entries {
    if fs == [] then [] else Update(UsageOf(fs[..|fs| - 1]), fs[|fs| - 1].usage)
  }

  predicate RefusedIn(fs: seq<Fragment>) { exists f :: f in fs && f.refusal }

  /** Fragments of one message: identifiers of a call and the model agree wherever given, and
      nothing but identity and usage follows the finish. */
  ghost predicate Consistent(fs: seq<Fragment>) {
    && (var cs := CallFragmentsOf(fs);
        forall i, j {:trigger cs[i], cs[j]} | 0 <= i < j < |cs| && cs[i].index == cs[j].index && cs[i].id.Some?
            && cs[j].id.Some? ::
          cs[i].id == cs[j].id)
    && (forall i, j {:trigger fs[i], fs[j]} | 0 <= i < j < |fs| && fs[i].model.Some?
        && fs[j].model.Some? :: fs[i].model == fs[j].model)
    && (forall i, j {:trigger fs[i], fs[j]} | 0 <= i < j < |fs| && fs[i].finish.Some? :: !fs[j].hasChoice)
  }

  /** The decoder's state once these fragments were accepted. */
  ghost predicate Holds(d: Decoder, fs: seq<Fragment>) {
    && Glue(d.textParts) == TextOf(fs) && d.textChars == |TextOf(fs)|
    && d.calls == CallsOf(CallFragmentsOf(fs))
    && d.finish == FinishOf(fs)
    && d.model == ModelOf(fs)
    && d.usage == UsageOf(fs)
    && d.refused == RefusedIn(fs)
  }

  // ---------------------------------------------------------------------------------------
  // One step
  // ---------------------------------------------------------------------------------------

  lemma {:induction false} IdOfGiven(cs: seq<CallFragment>, index: int)
    ensures IdOf(cs, index).Some? ==>
              exists i :: 0 <= i < |cs| && cs[i].index == index && cs[i].id == IdOf(cs, index)
  {
    if cs != [] {
      var n := |cs| - 1;
      if cs[n].index != index || cs[n].id.None? {
        IdOfGiven(cs[..n], index);
        if IdOf(cs, index).Some? {
          var i :| 0 <= i < n && cs[..n][i].index == index && cs[..n][i].id == IdOf(cs, index);
          assert cs[i] == cs[..n][i];
        }
      } else {
        assert cs[n].id == IdOf(cs, index);
      }
    }
  }

  lemma {:induction false} NothingElsewhere(cs: seq<CallFragment>, index: int)
    requires forall c | c in cs :: c.index != index
    ensures IdOf(cs, index).None? && NameOf(cs, index) == "" && ArgumentsOf(cs, index) == ""
  {
    if cs != [] {
      NothingElsewhere(cs[..|cs| - 1], index);
    }
  }

  function CallOf(cs: seq<CallFragment>, index: int): Call {
    Call(IdOf(cs, index), NameOf(cs, index), ArgumentsOf(cs, index))
  }

  lemma OtherCallsStay(cs: seq<CallFragment>, c: CallFragment, i: int)
    requires i != c.index
    ensures i in CallsOf(cs + [c]) <==> i in CallsOf(cs)
    ensures CallOf(cs + [c], i) == CallOf(cs, i)
  {
    var all := cs + [c];
    assert all[..|all| - 1] == cs && all[|all| - 1] == c;
    assert forall x :: x in all <==> x in cs || x == c;
  }

  lemma CallsOfExtended(cs: seq<CallFragment>, c: CallFragment)
    ensures CallsOf(cs + [c]) == CallsOf(cs)[c.index := CallOf(cs + [c], c.index)]
    ensures (if c.index in CallsOf(cs) then CallsOf(cs)[c.index] else NoCall) == CallOf(cs, c.index)
  {
    assert c in cs + [c];
    forall i: int | i != c.index
      ensures (i in CallsOf(cs + [c]) <==> i in CallsOf(cs)) && CallOf(cs + [c], i) == CallOf(cs, i)
    {
      OtherCallsStay(cs, c, i);
    }
    if c.index !in CallsOf(cs) {
      NothingElsewhere(cs, c.index);
    }
  }

  function Grown(call: Call, c: CallFragment): Call {
    Call(if c.id.Some? then c.id else call.id, call.name + OrEmpty(c.name), call.arguments + OrEmpty(c.arguments))
  }

  lemma ExtendedSays(text: string, fragment: Option<Json>, said: Option<string>)
    requires SaysText(fragment, said)
    ensures Extended(text, fragment) == (text + OrEmpty(said), true)
  {
    assert text + "" == text;
  }

  lemma AcceptCallSays(calls: map<int, Call>, call: Call, raw: Json, c: CallFragment)
    requires SaysCall(raw, c)
    requires call == if c.index in calls then calls[c.index] else NoCall
    requires c.id.Some? ==> call.id.None? || call.id == c.id
    ensures AcceptCall(calls, raw) == (calls[c.index := Grown(call, c)], true)
  {
    var function_ := Lookup(raw.entries, "function");
    if Absent(function_) {
      assert call.name + "" == call.name && call.arguments + "" == call.arguments;
    } else {
      ExtendedSays(call.name, Lookup(function_.value.entries, "name"), c.name);
      ExtendedSays(call.arguments, Lookup(function_.value.entries, "arguments"), c.arguments);
    }
  }

  lemma AcceptOneCall(cs: seq<CallFragment>, raw: Json, c: CallFragment)
    requires SaysCall(raw, c)
    requires c.id.Some? ==> IdOf(cs, c.index).None? || IdOf(cs, c.index) == c.id
    ensures AcceptCall(CallsOf(cs), raw) == (CallsOf(cs + [c]), true)
  {
    CallsOfExtended(cs, c);
    AcceptCallSays(CallsOf(cs), CallOf(cs, c.index), raw, c);
    var all := cs + [c];
    assert all[..|all| - 1] == cs && all[|all| - 1] == c;
    assert CallOf(all, c.index) == Grown(CallOf(cs, c.index), c);
  }

  ghost predicate IdsAgree(cs: seq<CallFragment>) {
    forall i, j {:trigger cs[i], cs[j]} | 0 <= i < j < |cs| && cs[i].index == cs[j].index && cs[i].id.Some?
        && cs[j].id.Some? ::
      cs[i].id == cs[j].id
  }

  lemma SplitLast<T>(a: seq<T>, b: seq<T>)
    requires b != []
    ensures a + b[..|b| - 1] + [b[|b| - 1]] == a + b
    ensures a + b[..|b| - 1] == (a + b)[..|a + b| - 1]
  {
  }

  lemma {:induction false} AcceptSomeCalls(cs: seq<CallFragment>, raws: seq<Json>, more: seq<CallFragment>)
    requires SaysCalls(raws, more) && IdsAgree(cs + more)
    ensures AcceptCalls(CallsOf(cs), raws) == (CallsOf(cs + more), true)
  {
    if raws == [] {
      assert cs + more == cs;
    } else {
      var n := |raws| - 1;
      var before, c := cs + more[..n], more[n];
      SplitLast(cs, more);
      AcceptSomeCalls(cs, raws[..n], more[..n]);
      IdOfGiven(before, c.index);
      if IdOf(before, c.index).Some? && c.id.Some? {
        var i :| 0 <= i < |before| && before[i].index == c.index && before[i].id == IdOf(before, c.index);
        assert (cs + more)[i] == before[i] && (cs + more)[|before|] == c;
      }
      AcceptOneCall(before, raws[n], c);
    }
  }

  lemma {:induction false} ModelIsGiven(fs: seq<Fragment>)
    ensures ModelOf(fs).Some? ==> exists i :: 0 <= i < |fs| && fs[i].model == ModelOf(fs)
  {
    if fs != [] && fs[|fs| - 1].model.None? {
      var front := fs[..|fs| - 1];
      ModelIsGiven(front);
      if ModelOf(fs).Some? {
        var i :| 0 <= i < |front| && front[i].model == ModelOf(front);
        assert fs[i] == front[i];
      }
    } else if fs != [] {
      assert fs[|fs| - 1].model == ModelOf(fs);
    }
  }

  lemma {:induction false} FinishIsGiven(fs: seq<Fragment>)
    ensures FinishOf(fs).Some? ==> exists i :: 0 <= i < |fs| && fs[i].finish.Some?
  {
    if fs != [] && fs[|fs| - 1].finish.None? {
      var front := fs[..|fs| - 1];
      FinishIsGiven(front);
      if FinishOf(fs).Some? {
        var i :| 0 <= i < |front| && front[i].finish.Some?;
        assert fs[i] == front[i];
      }
    } else if fs != [] {
      assert fs[|fs| - 1].finish.Some?;
    }
  }

  lemma Unrolled(fs: seq<Fragment>, f: Fragment)
    ensures var all := fs + [f];
            && TextOf(all) == TextOf(fs) + OrEmpty(f.content)
            && CallFragmentsOf(all) == CallFragmentsOf(fs) + f.calls
            && FinishOf(all) == (if f.finish.Some? then f.finish else FinishOf(fs))
            && ModelOf(all) == (if f.model.Some? then f.model else ModelOf(fs))
            && UsageOf(all) == Update(UsageOf(fs), f.usage)
            && (RefusedIn(all) <==> f.refusal || RefusedIn(fs))
  {
    var all := fs + [f];
    assert all[..|all| - 1] == fs && all[|all| - 1] == f;
    assert f in all;
    assert forall x :: x in all <==> x in fs || x == f;
  }

  /** What the earlier fragments say about accepting the next one. */
  lemma NextIsConsistent(fs: seq<Fragment>, f: Fragment)
    requires Consistent(fs + [f])
    ensures IdsAgree(CallFragmentsOf(fs) + f.calls)
    ensures f.model.Some? ==> ModelOf(fs).None? || ModelOf(fs) == f.model
    ensures FinishOf(fs).Some? ==> !f.hasChoice
  {
    var all := fs + [f];
    Unrolled(fs, f);
    ModelIsGiven(fs);
    FinishIsGiven(fs);
    assert all[|fs|] == f;
    if ModelOf(fs).Some? {
      var i :| 0 <= i < |fs| && fs[i].model == ModelOf(fs);
      assert all[i] == fs[i];
    }
    if FinishOf(fs).Some? {
      var i :| 0 <= i < |fs| && fs[i].finish.Some?;
      assert all[i] == fs[i];
    }
  }

  lemma GlueOne(parts: seq<string>, text: string)
    ensures Glue(parts + [text]) == Glue(parts) + text
    ensures Glue([text]) == text
  {
    assert (parts + [text])[..|parts + [text]| - 1] == parts;
    assert [text][..0] == [];
  }

  /** The state once the chunk's identity and usage are noted. */
  function Identified(d: Decoder, f: Fragment): Decoder {
    d.(model := if f.model.Some? then f.model else d.model, usage := Update(d.usage, f.usage))
  }

  /** The state after a choice that turns the recorded calls into `calls`. */
  function Moved(d: Decoder, f: Fragment, calls: map<int, Call>): Decoder {
    var text := OrEmpty(f.content);
    d.(textParts := if text == "" then d.textParts else d.textParts + [text],
       textChars := d.textChars + |text|,
       calls := calls,
       finish := if f.finish.Some? then f.finish else d.finish,
       refused := d.refused || f.refusal)
  }

  function Stepped(d: Decoder, f: Fragment, calls: map<int, Call>): Decoder {
    Moved(Identified(d, f), f, calls)
  }

  function Shown(f: Fragment): seq<string> {
    if OrEmpty(f.content) == "" then [] else [OrEmpty(f.content)]
  }

  /** The calls recorded after the raw call fragments of a chunk. */
  predicate CallsBecome(before: map<int, Call>, raws: Option<Json>, after: map<int, Call>) {
    if raws.None? then after == before
    else raws.value.Arr? && AcceptCalls(before, raws.value.items) == (after, true)
  }

  lemma TakeContentSays(env: Invocation, d: Decoder, content: Option<Json>, text: Option<string>)
    requires SaysText(content, text) && d.textChars + |OrEmpty(text)| <= env.maxOutputChars
    ensures var said := OrEmpty(text);
            TakeContent(env, d, content)
            == (d.(textParts := if said == "" then d.textParts else d.textParts + [said],
                   textChars := d.textChars + |said|), Ok(said))
  {
  }

  lemma TakeCallsSays(d: Decoder, refusal: bool, raws: Option<Json>, finish: Option<Json>,
                      calls: map<int, Call>, reason: Option<string>)
    requires CallsBecome(d.calls, raws, calls) && SaysText(finish, reason)
    ensures TakeCalls(d, refusal, raws, finish)
         == (d.(calls := calls, refused := d.refused || refusal,
                finish := if reason.Some? then reason else d.finish), true)
  {
    assert AcceptCalls(d.calls, []) == (d.calls, true);
  }

  lemma AcceptPartsSays(env: Invocation, d: Decoder, content: Option<Json>, raws: Option<Json>, finish: Option<Json>,
                        f: Fragment, calls: map<int, Call>)
    requires CallsBecome(d.calls, raws, calls) && SaysText(content, f.content) && SaysText(finish, f.finish)
    requires d.textChars + |OrEmpty(f.content)| <= env.maxOutputChars
    ensures AcceptParts(env, d, content, f.refusal, raws, finish) == (Moved(d, f, calls), Ok(Shown(f)))
  {
    TakeContentSays(env, d, content, f.content);
    TakeCallsSays(TakeContent(env, d, content).0, f.refusal, raws, finish, calls, f.finish);
  }

  lemma AcceptDeltaSays(env: Invocation, d: Decoder, delta: Entries, finish: Option<Json>,
                        f: Fragment, calls: map<int, Call>)
    requires CallsBecome(d.calls, Lookup(delta, "tool_calls"), calls)
    requires d.textChars + |OrEmpty(f.content)| <= env.maxOutputChars
    requires SaysText(Lookup(delta, "content"), f.content)
    requires Truthy(Lookup(delta, "refusal")) <==> f.refusal
    requires SaysText(finish, f.finish)
    ensures AcceptDelta(env, d, delta, finish) == (Moved(d, f, calls), Ok(Shown(f)))
  {
    AcceptPartsSays(env, d, Lookup(delta, "content"), Lookup(delta, "tool_calls"), finish, f, calls);
  }

  lemma RawsBecome(raws: Option<Json>, cs: seq<CallFragment>, more: seq<CallFragment>)
    requires IdsAgree(cs + more)
    requires match raws
             case None => more == []
             case Some(Arr(items)) => SaysCalls(items, more)
             case _ => false
    ensures CallsBecome(CallsOf(cs), raws, CallsOf(cs + more))
  {
    if raws.Some? {
      AcceptSomeCalls(cs, raws.value.items, more);
    } else {
      assert cs + more == cs;
    }
  }

  lemma AcceptChoiceSays(env: Invocation, d: Decoder, payload: Entries, f: Fragment, calls: map<int, Call>)
    requires Says(payload, f) && f.hasChoice
    requires d.finish.None? && (f.model.Some? ==> d.model.None? || d.model == f.model)
    requires CallsBecome(d.calls, RawsOf(payload, f), calls)
    requires d.textChars + |OrEmpty(f.content)| <= env.maxOutputChars
    ensures Accepted(env, d, payload) == (Stepped(d, f, calls), Ok(Shown(f)))
  {
    var choice := Lookup(payload, "choices").value.items[0];
    var delta, finish := Lookup(choice.entries, "delta").value.entries, Lookup(choice.entries, "finish_reason");
    AcceptDeltaSays(env, Identified(d, f), delta, finish, f, calls);
    assert Accepted(env, d, payload) == AcceptDelta(env, Identified(d, f), delta, finish);
  }

  function RawsOf(payload: Entries, f: Fragment): Option<Json>
    requires Says(payload, f) && f.hasChoice
  {
    Lookup(Lookup(Lookup(payload, "choices").value.items[0].entries, "delta").value.entries, "tool_calls")
  }

  lemma AcceptNoticeSays(env: Invocation, d: Decoder, payload: Entries, f: Fragment)
    requires Says(payload, f) && !f.hasChoice
    requires f.model.Some? ==> d.model.None? || d.model == f.model
    ensures Accepted(env, d, payload) == (Stepped(d, f, d.calls), Ok([])) && Shown(f) == []
  {
  }

  lemma SteppedHolds(d: Decoder, fs: seq<Fragment>, f: Fragment)
    requires Holds(d, fs)
    ensures Holds(Stepped(d, f, CallsOf(CallFragmentsOf(fs) + f.calls)), fs + [f])
    ensures Glue(Shown(f)) == OrEmpty(f.content)
  {
    Unrolled(fs, f);
    GlueOne(d.textParts, OrEmpty(f.content));
  }

  /** Accepting a chunk moves the state from one list of fragments to the next and shows
      exactly the chunk's text. */
  lemma AcceptedSays(env: Invocation, d: Decoder, payload: Entries, fs: seq<Fragment>, f: Fragment)
    requires Holds(d, fs) && Says(payload, f) && Consistent(fs + [f])
    requires |TextOf(fs + [f])| <= env.maxOutputChars
    ensures var (next, shown) := Accepted(env, d, payload);
            Holds(next, fs + [f]) && shown.Ok? && Glue(shown.value) == OrEmpty(f.content)
  {
    Unrolled(fs, f);
    NextIsConsistent(fs, f);
    SteppedHolds(d, fs, f);
    var cs := CallFragmentsOf(fs);
    if f.hasChoice {
      RawsBecome(RawsOf(payload, f), cs, f.calls);
      AcceptChoiceSays(env, d, payload, f, CallsOf(cs + f.calls));
    } else {
      assert cs + f.calls == cs;
      AcceptNoticeSays(env, d, payload, f);
    }
  }

  // ---------------------------------------------------------------------------------------
  // Whole streams
  // ---------------------------------------------------------------------------------------

  /** Chunks accepted in order; the texts shown so far, or the failure that ended the stream. */
  function AcceptAll(env: Invocation, payloads: seq<Entries>): (Decoder, Result<seq<string>, Failure>) {
    if payloads == [] then (Fresh, Ok([]))
    else
      var (d, shown) := AcceptAll(env, payloads[..|payloads| - 1]);
      if shown.Err? then (d, shown)
      else
        var (next, more) := Accepted(env, d, payloads[|payloads| - 1]);
        (next, if more.Err? then more else Ok(shown.value + more.value))
  }

  lemma {:induction false} GlueConcat(a: seq<string>, b: seq<string>)
    ensures Glue(a + b) == Glue(a) + Glue(b)
  {
    if b == [] {
      assert a + b == a;
    } else {
      assert (a + b)[..|a + b| - 1] == a + b[..|b| - 1];
      GlueConcat(a, b[..|b| - 1]);
    }
  }

  lemma ConsistentPrefix(fs: seq<Fragment>, n: nat)
    requires Consistent(fs) && n + 1 == |fs|
    ensures Consistent(fs[..n])
    ensures |TextOf(fs[..n])| <= |TextOf(fs)|
  {
    var front := fs[..n];
    assert fs == front + [fs[n]];
    Unrolled(front, fs[n]);
    var cs, all := CallFragmentsOf(front), CallFragmentsOf(fs);
    assert forall i | 0 <= i < |cs| :: cs[i] == all[i];
    assert forall i | 0 <= i < n :: front[i] == fs[i];
  }

  /** The chunks were accepted, recorded as these fragments, and their text was shown. */
  ghost predicate Streamed(env: Invocation, payloads: seq<Entries>, fs: seq<Fragment>) {
    var (d, shown) := AcceptAll(env, payloads);
    Holds(d, fs) && shown.Ok? && Glue(shown.value) == TextOf(fs)
  }

  lemma NothingStreamed(env: Invocation)
    ensures Streamed(env, [], [])
  {
    assert CallsOf([]) == map[];
  }

  lemma StreamStep(env: Invocation, payloads: seq<Entries>, fs: seq<Fragment>, payload: Entries, f: Fragment)
    requires Streamed(env, payloads, fs)
    requires Says(payload, f) && Consistent(fs + [f]) && |TextOf(fs + [f])| <= env.maxOutputChars
    ensures Streamed(env, payloads + [payload], fs + [f])
  {
    var (d, shown) := AcceptAll(env, payloads);
    AcceptedSays(env, d, payload, fs, f);
    GlueConcat(shown.value, Accepted(env, d, payload).1.value);
    Unrolled(fs, f);
    var all := payloads + [payload];
    assert all[..|all| - 1] == payloads && all[|all| - 1] == payload;
  }

  predicate SaysAll(payloads: seq<Entries>, fs: seq<Fragment>) {
    |payloads| == |fs| && forall i | 0 <= i < |fs| :: Says(payloads[i], fs[i])
  }

  lemma SaysAllFront(payloads: seq<Entries>, fs: seq<Fragment>)
    requires SaysAll(payloads, fs) && fs != []
    ensures SaysAll(payloads[..|fs| - 1], fs[..|fs| - 1])
    ensures Says(payloads[|fs| - 1], fs[|fs| - 1])
    ensures fs == fs[..|fs| - 1] + [fs[|fs| - 1]] && payloads == payloads[..|fs| - 1] + [payloads[|fs| - 1]]
  {
    FrontAndLast(fs);
    FrontAndLast(payloads);
  }

  lemma {:induction false} StreamAccepted(env: Invocation, payloads: seq<Entries>, fs: seq<Fragment>)
    requires SaysAll(payloads, fs)
    requires Consistent(fs) && |TextOf(fs)| <= env.maxOutputChars
    ensures Streamed(env, payloads, fs)
  {
    if fs == [] {
      NothingStreamed(env);
    } else {
      var n := |fs| - 1;
      SaysAllFront(payloads, fs);
      ConsistentPrefix(fs, n);
      StreamAccepted(env, payloads[..n], fs[..n]);
      StreamStep(env, payloads[..n], fs[..n], payloads[n], fs[n]);
    }
  }

  // ---------------------------------------------------------------------------------------
  // The unsplit message, in any JSON form
  // ---------------------------------------------------------------------------------------

  /** `item` is some JSON form of a complete call. */
  predicate IsCall(item: Json, call: Call) {
    && item.Obj?
    && Lookup(item.entries, "type") == Some(Str("function"))
    && StrOf(Lookup(item.entries, "id")) == call.id
    && match Lookup(item.entries, "function")
       case Some(Obj(entries)) =>
         && Lookup(entries, "name") == Some(Str(call.name))
         && Lookup(entries, "arguments") == Some(Str(call.arguments))
       case _ => false
  }

  predicate AreCalls(items: seq<Json>, calls: map<int, Call>) {
    var indices := Indices(calls, 0);
    |items| == |indices| && forall k | 0 <= k < |indices| :: IsCall(items[k], calls[indices[k]])
  }

  /** An empty content may be missing, null, or anything else that is false. */
  predicate IsMessage(message: Entries, content: string, calls: map<int, Call>, refused: bool) {
    && (if content == "" then !Truthy(Lookup(message, "content")) else Lookup(message, "content") == Some(Str(content)))
    && (Truthy(Lookup(message, "refusal")) <==> refused)
    && IsCallList(Lookup(message, "tool_calls"), calls)
  }

  predicate IsCallList(raws: Option<Json>, calls: map<int, Call>) {
    match raws
    case None => AreCalls([], calls)
    case Some(Arr(items)) => AreCalls(items, calls)
    case _ => false
  }

  predicate IsChoice(choice: Json, content: string, calls: map<int, Call>, finish: Option<string>, refused: bool) {
    && choice.Obj?
    && SaysText(Lookup(choice.entries, "finish_reason"), finish)
    && match Lookup(choice.entries, "message")
       case Some(Obj(message)) => IsMessage(message, content, calls, refused)
       case _ => false
  }

  /** `payload` is some JSON form of the whole message, with its keys in any order, others among
      them, and a provider name or none. */
  predicate IsWhole(payload: Entries, content: string, calls: map<int, Call>, finish: Option<string>,
                    model: Option<string>, usage: Entries, refused: bool)
  {
    && SaysText(Lookup(payload, "model"), model)
    && Identity(Lookup(payload, "provider")).Ok?
    && SafeUsage(Lookup(payload, "usage")) == SafeUsage(Some(Obj(usage)))
    && match Lookup(payload, "choices")
       case Some(Arr(choices)) => |choices| == 1 && IsChoice(choices[0], content, calls, finish, refused)
       case _ => false
  }

  lemma CallValueIsCall(call: Call)
    ensures IsCall(CallValue(call), call)
  {
    var id, inner := if call.id.Some? then Str(call.id.value) else Null, InnerOf(call);
    LookupThree("id", id, "type", Str("function"), "function", inner, "id");
    LookupThree("id", id, "type", Str("function"), "function", inner, "type");
    LookupThree("id", id, "type", Str("function"), "function", inner, "function");
    LookupTwo("name", Str(call.name), "arguments", Str(call.arguments), "name");
    LookupTwo("name", Str(call.name), "arguments", Str(call.arguments), "arguments");
  }

  function InnerOf(call: Call): Json {
    Obj([("name", Str(call.name)), ("arguments", Str(call.arguments))])
  }

  lemma SameCallSameRequest(env: Invocation, a: Json, b: Json, call: Call)
    requires IsCall(a, call) && IsCall(b, call)
    ensures DecodeCall(env, a) == DecodeCall(env, b)
  {
  }

  lemma {:induction false} SameDecodes(env: Invocation, a: seq<Json>, b: seq<Json>)
    requires |a| == |b| && forall k | 0 <= k < |a| :: DecodeCall(env, a[k]) == DecodeCall(env, b[k])
    ensures DecodeCalls(env, a) == DecodeCalls(env, b)
  {
    if a != [] {
      SameDecodes(env, a[1..], b[1..]);
    }
  }

  lemma AnyCallsDecode(env: Invocation, items: seq<Json>, calls: map<int, Call>)
    requires AreCalls(items, calls)
    ensures AreCalls(CallValues(calls), calls) && |items| <= MAX_CALLS
    ensures DecodeCalls(env, items) == DecodeCalls(env, CallValues(calls))
  {
    var indices, values := Indices(calls, 0), CallValues(calls);
    forall k | 0 <= k < |indices|
      ensures IsCall(values[k], calls[indices[k]]) && DecodeCall(env, items[k]) == DecodeCall(env, values[k])
    {
      CallValueIsCall(calls[indices[k]]);
      SameCallSameRequest(env, items[k], values[k], calls[indices[k]]);
    }
    SameDecodes(env, items, values);
    IndicesAreFew(calls, 0);
  }

  lemma {:induction false} IndicesAreFew(calls: map<int, Call>, from: nat)
    requires from <= MAX_CALLS
    ensures |Indices(calls, from)| <= MAX_CALLS - from
    decreases MAX_CALLS - from
  {
    if from < MAX_CALLS {
      IndicesAreFew(calls, from + 1);
    }
  }

  /** What a message decodes to, by its parts. */
  function MessageFrom(env: Invocation, content: string, calls: map<int, Call>, refused: bool)
    : Result<(string, seq<ToolRequest>), Failure>
  {
    PlainMessage(env, content, DecodeCalls(env, CallValues(calls)), refused)
  }

  function PlainMessage(env: Invocation, content: string, requests: Option<seq<ToolRequest>>, refused: bool)
    : Result<(string, seq<ToolRequest>), Failure>
  {
    if refused then Err(RefusedByProvider)
    else if |content| > env.maxOutputChars then Err(InvalidOutput)
    else if requests.None? || (env.blank(content) && requests.value == []) then Err(InvalidOutput)
    else Ok((content, requests.value))
  }

  lemma PartsDecode(env: Invocation, raw: Option<Json>, raws: Option<Json>, reasoning: Result<string, Failure>,
                    content: string, calls: map<int, Call>, refused: bool)
    requires ContentOf(raw) == Some(content)
    requires IsCallList(raws, calls)
    ensures DecodeParts(env, refused, raw, raws, false, reasoning) == MessageFrom(env, content, calls, refused)
  {
    var items := if raws.Some? then raws.value.items else [];
    AnyCallsDecode(env, items, calls);
    ListDecodes(env, raw, raws, items, reasoning, content, refused);
  }

  lemma ListDecodes(env: Invocation, raw: Option<Json>, raws: Option<Json>, items: seq<Json>,
                    reasoning: Result<string, Failure>, content: string, refused: bool)
    requires ContentOf(raw) == Some(content)
    requires raws == Some(Arr(items)) || (raws.None? && items == [])
    requires |items| <= MAX_CALLS
    ensures DecodeParts(env, refused, raw, raws, false, reasoning)
         == PlainMessage(env, content, DecodeCalls(env, items), refused)
  {
  }

  lemma ContentIs(raw: Option<Json>, content: string)
    requires if content == "" then !Truthy(raw) else raw == Some(Str(content))
    ensures ContentOf(raw) == Some(content)
  {
  }

  lemma MessageDecodes(env: Invocation, message: Entries, content: string, calls: map<int, Call>, refused: bool)
    requires IsMessage(message, content, calls, refused)
    ensures DecodeMessage(env, message, false) == MessageFrom(env, content, calls, refused)
  {
    ContentIs(Lookup(message, "content"), content);
    PartsDecode(env, Lookup(message, "content"), Lookup(message, "tool_calls"), ReasoningAnswer(env, message),
                content, calls, refused);
  }

  function ChatFrom(env: Invocation, content: string, calls: map<int, Call>, finish: Option<string>,
                    model: Option<string>, upstream: Option<string>, usage: Entries, refused: bool)
    : Result<Completion, Failure>
  {
    if finish != Some("stop") && finish != Some("tool_calls") then Err(Incomplete)
    else
      var decoded := MessageFrom(env, content, calls, refused);
      var identity := Identity(if model.Some? then Some(Str(model.value)) else None);
      if decoded.Err? then Err(decoded.error)
      else if identity.Err? then Err(InvalidOutput)
      else Ok(Completion(decoded.value.0, decoded.value.1, identity.value, upstream, SafeUsage(Some(Obj(usage)))))
  }

  lemma CompletionFrom(env: Invocation, finishes: Option<Json>, finish: Option<string>,
                       decoded: Result<(string, seq<ToolRequest>), Failure>, named: Option<Json>, model: Option<string>,
                       upstream: Option<string>, usage: Entries, content: string, calls: map<int, Call>, refused: bool)
    requires SaysText(finishes, finish) && SaysText(named, model)
    requires decoded == MessageFrom(env, content, calls, refused)
    ensures CompletionOf(finishes, decoded, Identity(named), Ok(upstream), SafeUsage(Some(Obj(usage))))
         == ChatFrom(env, content, calls, finish, model, upstream, usage, refused)
  {
  }

  lemma ChoiceDecodes(env: Invocation, choice: Json, content: string, calls: map<int, Call>, finish: Option<string>,
                      refused: bool)
    requires IsChoice(choice, content, calls, finish, refused)
    ensures DecodeChoice(env, choice.entries, false) == MessageFrom(env, content, calls, refused)
  {
    MessageDecodes(env, Lookup(choice.entries, "message").value.entries, content, calls, refused);
  }

  lemma WholeDecodes(env: Invocation, payload: Entries, content: string, calls: map<int, Call>,
                     finish: Option<string>, model: Option<string>, usage: Entries, refused: bool)
    requires IsWhole(payload, content, calls, finish, model, usage, refused)
    ensures DecodeChat(env, payload, false)
         == ChatFrom(env, content, calls, finish, model, Identity(Lookup(payload, "provider")).value, usage, refused)
  {
    var choice := Lookup(payload, "choices").value.items[0];
    ChoiceDecodes(env, choice, content, calls, finish, refused);
    CompletionFrom(env, Lookup(choice.entries, "finish_reason"), finish, DecodeChoice(env, choice.entries, false),
                   Lookup(payload, "model"), model, Identity(Lookup(payload, "provider")).value, usage,
                   content, calls, refused);
  }

  /** The message the accumulator completes with. */
  lemma MessageOfWhole(content: string, calls: map<int, Call>, refused: bool)
    ensures IsMessage(WholeMessage(content, calls, refused), content, calls, refused)
  {
    ValuesAreCalls(calls);
    MessageKeys(Str(content), Arr(CallValues(calls)), refused);
    MessageByKeys(WholeMessage(content, calls, refused), content, CallValues(calls), calls, refused);
  }

  lemma MessageKeys(text: Json, requests: Json, refused: bool)
    ensures var message := [("content", text), ("tool_calls", requests)]
                           + if refused then [("refusal", Bool(true))] else [];
            && Lookup(message, "content") == Some(text) && Lookup(message, "tool_calls") == Some(requests)
            && Lookup(message, "refusal") == if refused then Some(Bool(true)) else None
  {
    var head := [("content", text), ("tool_calls", requests)];
    if refused {
      assert head + [("refusal", Bool(true))] == [("content", text), ("tool_calls", requests), ("refusal", Bool(true))];
      LookupThree("content", text, "tool_calls", requests, "refusal", Bool(true), "content");
      LookupThree("content", text, "tool_calls", requests, "refusal", Bool(true), "tool_calls");
      LookupThree("content", text, "tool_calls", requests, "refusal", Bool(true), "refusal");
    } else {
      assert head + [] == head;
      LookupTwo("content", text, "tool_calls", requests, "content");
      LookupTwo("content", text, "tool_calls", requests, "tool_calls");
      LookupTwo("content", text, "tool_calls", requests, "refusal");
    }
  }

  lemma MessageByKeys(message: Entries, content: string, items: seq<Json>, calls: map<int, Call>, refused: bool)
    requires AreCalls(items, calls)
    requires Lookup(message, "content") == Some(Str(content)) && Lookup(message, "tool_calls") == Some(Arr(items))
    requires Lookup(message, "refusal") == if refused then Some(Bool(true)) else None
    ensures IsMessage(message, content, calls, refused)
  {
  }

  lemma ValuesAreCalls(calls: map<int, Call>)
    ensures AreCalls(CallValues(calls), calls)
  {
    forall k | 0 <= k < |Indices(calls, 0)| ensures IsCall(CallValues(calls)[k], calls[Indices(calls, 0)[k]]) {
      CallValueIsCall(calls[Indices(calls, 0)[k]]);
    }
  }

  function WholeChoice(content: string, calls: map<int, Call>, finish: Option<string>, refused: bool): Json {
    Obj([("finish_reason", if finish.Some? then Str(finish.value) else Null),
         ("message", Obj(WholeMessage(content, calls, refused)))])
  }

  lemma ChoiceOfWhole(content: string, calls: map<int, Call>, finish: Option<string>, refused: bool)
    ensures IsChoice(WholeChoice(content, calls, finish, refused), content, calls, finish, refused)
  {
    var reason, message := if finish.Some? then Str(finish.value) else Null, Obj(WholeMessage(content, calls, refused));
    MessageOfWhole(content, calls, refused);
    LookupTwo("finish_reason", reason, "message", message, "finish_reason");
    LookupTwo("finish_reason", reason, "message", message, "message");
  }

  lemma WholeKeys(content: string, calls: map<int, Call>, finish: Option<string>, model: Option<string>,
                  usage: Entries, refused: bool)
    ensures var payload := WholePayload(content, calls, finish, model, usage, refused);
            && Lookup(payload, "choices") == Some(Arr([WholeChoice(content, calls, finish, refused)]))
            && Lookup(payload, "model") == Some(if model.Some? then Str(model.value) else Null)
            && Lookup(payload, "usage") == Some(Obj(usage))
            && Lookup(payload, "provider").None?
  {
    KeysOf(WholeChoice(content, calls, finish, refused), if model.Some? then Str(model.value) else Null, Obj(usage));
  }

  lemma KeysOf(choice: Json, name: Json, usage: Json)
    ensures var payload := [("choices", Arr([choice])), ("model", name), ("usage", usage)];
            && Lookup(payload, "choices") == Some(Arr([choice])) && Lookup(payload, "model") == Some(name)
            && Lookup(payload, "usage") == Some(usage) && Lookup(payload, "provider").None?
  {
    LookupThree("choices", Arr([choice]), "model", name, "usage", usage, "choices");
    LookupThree("choices", Arr([choice]), "model", name, "usage", usage, "model");
    LookupThree("choices", Arr([choice]), "model", name, "usage", usage, "usage");
    LookupThree("choices", Arr([choice]), "model", name, "usage", usage, "provider");
  }

  lemma WholeByKeys(payload: Entries, choice: Json, content: string, calls: map<int, Call>, finish: Option<string>,
                    model: Option<string>, usage: Entries, refused: bool)
    requires IsChoice(choice, content, calls, finish, refused)
    requires Lookup(payload, "choices") == Some(Arr([choice]))
    requires SaysText(Lookup(payload, "model"), model) && Lookup(payload, "usage") == Some(Obj(usage))
    requires Lookup(payload, "provider").None?
    ensures IsWhole(payload, content, calls, finish, model, usage, refused)
  {
  }

  /** The payload the accumulator completes with is one such form, without a provider. */
  lemma AccumulatedIsWhole(content: string, calls: map<int, Call>, finish: Option<string>, model: Option<string>,
                           usage: Entries, refused: bool)
    ensures var payload := WholePayload(content, calls, finish, model, usage, refused);
            && IsWhole(payload, content, calls, finish, model, usage, refused)
            && Lookup(payload, "provider").None?
  {
    WholeKeys(content, calls, finish, model, usage, refused);
    ChoiceOfWhole(content, calls, finish, refused);
    WholeByKeys(WholePayload(content, calls, finish, model, usage, refused),
                WholeChoice(content, calls, finish, refused), content, calls, finish, model, usage, refused);
  }

  /** What completing comes to, by what was accumulated. */
  lemma CompletedFrom(env: Invocation, d: Decoder)
    ensures Completed(env, d)
         == ChatFrom(env, Glue(d.textParts), d.calls, d.finish, d.model, None, d.usage, d.refused)
  {
    AccumulatedIsWhole(Glue(d.textParts), d.calls, d.finish, d.model, d.usage, d.refused);
    WholeDecodes(env, WholePayload(Glue(d.textParts), d.calls, d.finish, d.model, d.usage, d.refused),
                 Glue(d.textParts), d.calls, d.finish, d.model, d.usage, d.refused);
  }

  /** A stream's chunks name no provider behind the model, so its result names none. */
  function WithoutUpstream(result: Result<Completion, Failure>): Result<Completion, Failure> {
    if result.Ok? then Ok(result.value.(upstream := None)) else result
  }

  lemma WholeWithoutUpstream(env: Invocation, whole: Entries, content: string, calls: map<int, Call>,
                             finish: Option<string>, model: Option<string>, usage: Entries, refused: bool)
    requires IsWhole(whole, content, calls, finish, model, usage, refused)
    ensures WithoutUpstream(DecodeChat(env, whole, false))
         == ChatFrom(env, content, calls, finish, model, None, usage, refused)
  {
    WholeDecodes(env, whole, content, calls, finish, model, usage, refused);
  }

  lemma CompletedStream(env: Invocation, d: Decoder, fs: seq<Fragment>)
    requires Holds(d, fs)
    ensures Completed(env, d)
         == ChatFrom(env, TextOf(fs), CallsOf(CallFragmentsOf(fs)), FinishOf(fs), ModelOf(fs), None, UsageOf(fs),
                     RefusedIn(fs))
  {
    CompletedFrom(env, d);
  }

  /** For every way of cutting a message into fragments, with fragments of different calls
      interleaved freely, streaming it and completing equals decoding the whole message, in
      whatever JSON form a provider sends that, and the texts shown on the way join to its
      content. */
  lemma StreamRefinesWhole(env: Invocation, payloads: seq<Entries>, fs: seq<Fragment>, whole: Entries,
                           content: string, calls: map<int, Call>)
    requires SaysAll(payloads, fs)
    requires Consistent(fs)
    requires TextOf(fs) == content && |content| <= env.maxOutputChars
    requires CallsOf(CallFragmentsOf(fs)) == calls
    requires IsWhole(whole, content, calls, FinishOf(fs), ModelOf(fs), UsageOf(fs), RefusedIn(fs))
    ensures var (d, shown) := AcceptAll(env, payloads);
            && shown.Ok? && Glue(shown.value) == content
            && Completed(env, d) == WithoutUpstream(DecodeChat(env, whole, false))
  {
    StreamAccepted(env, payloads, fs);
    CompletedStream(env, AcceptAll(env, payloads).0, fs);
    WholeWithoutUpstream(env, whole, content, calls, FinishOf(fs), ModelOf(fs), UsageOf(fs), RefusedIn(fs));
  }

  lemma {:induction false} ShownIsRecorded(env: Invocation, payloads: seq<Entries>)
    requires AcceptAll(env, payloads).1.Ok?
    ensures Glue(AcceptAll(env, payloads).1.value) == Glue(AcceptAll(env, payloads).0.textParts)
  {
    if payloads != [] {
      var n := |payloads| - 1;
      ShownIsRecorded(env, payloads[..n]);
      var (d, shown) := AcceptAll(env, payloads[..n]);
      var (next, more) := Accepted(env, d, payloads[n]);
      GlueConcat(shown.value, more.value);
      RecordedStep(env, d, payloads[n]);
      GlueConcat(d.textParts, more.value);
    }
  }

  lemma DeltaRecords(env: Invocation, d: Decoder, delta: Entries, finish: Option<Json>)
    requires AcceptDelta(env, d, delta, finish).1.Ok?
    ensures AcceptDelta(env, d, delta, finish).0.textParts
         == d.textParts + AcceptDelta(env, d, delta, finish).1.value
  {
  }

  lemma RecordedStep(env: Invocation, d: Decoder, payload: Entries)
    requires Accepted(env, d, payload).1.Ok?
    ensures Accepted(env, d, payload).0.textParts == d.textParts + Accepted(env, d, payload).1.value
  {
    var model := Identity(Lookup(payload, "model")).value;
    var d1 := d.(model := if model.Some? then model else d.model,
                 usage := Update(d.usage, SafeUsage(Lookup(payload, "usage"))));
    var choices := Lookup(payload, "choices").value.items;
    if choices != [] {
      var choice := choices[0];
      DeltaRecords(env, d1, Lookup(choice.entries, "delta").value.entries, Lookup(choice.entries, "finish_reason"));
    }
  }

  lemma WholeParts(env: Invocation, d: Decoder)
    requires Completed(env, d).Ok?
    ensures Completed(env, d).value.text == Glue(d.textParts)
    ensures DecodeCalls(env, CallValues(d.calls)) == Some(Completed(env, d).value.toolRequests)
  {
    CompletedFrom(env, d);
  }

  /** The service's reconciliation of streamed and completed text cannot fail on this route:
      whatever chunks were accepted, the completed text is what was shown. */
  lemma CompletedTextIsShown(env: Invocation, payloads: seq<Entries>)
    requires AcceptAll(env, payloads).1.Ok?
    requires Completed(env, AcceptAll(env, payloads).0).Ok?
    ensures Completed(env, AcceptAll(env, payloads).0).value.text == Glue(AcceptAll(env, payloads).1.value)
  {
    ShownIsRecorded(env, payloads);
    WholeParts(env, AcceptAll(env, payloads).0);
  }

  /** The requests of a completed stream are its calls in ascending index order, with the
      identifiers, names and arguments recorded for them. */
  lemma RequestsInIndexOrder(env: Invocation, d: Decoder)
    requires Completed(env, d).Ok?
    ensures var indices := Indices(d.calls, 0); var requests := Completed(env, d).value.toolRequests;
            && |requests| == |indices|
            && forall k | 0 <= k < |indices| :: IsRequestOf(env, requests[k], d.calls[indices[k]])
  {
    WholeParts(env, d);
    var calls, indices := CallValues(d.calls), Indices(d.calls, 0);
    var requests := Completed(env, d).value.toolRequests;
    DecodeCallsOneForOne(env, calls);
    forall k | 0 <= k < |indices| ensures IsRequestOf(env, requests[k], d.calls[indices[k]]) {
      DecodeCallValue(env, d.calls[indices[k]]);
      assert DecodeCall(env, calls[k]) == Some(requests[k]);
    }
  }

  predicate IsRequestOf(env: Invocation, request: ToolRequest, call: Call) {
    && Some(request.id) == call.id
    && request.name == call.name
    && Some(request.arguments) == env.parse(call.arguments)
  }

  lemma DecodeCallValue(env: Invocation, call: Call)
    ensures var r := DecodeCall(env, CallValue(call)); r.Some? ==> IsRequestOf(env, r.value, call)
  {
    CallValueIsCall(call);
  }
}
