/** What a schema means, and that the translation only ever accepts more. The meaning follows
    JSON Schema Core and Validation, draft 2020-12. */
module SchemaMeaning {
  import opened Contracts
  import opened SchemaRewrite

  /** A place in an instance: a member of an object or an item of an array. */
  datatype Place = Member(name: string) | At(index: nat)

  /** Verdicts of the keywords that hold no schema, the string-length ones among them, given the
      keyword's value and the instance. */
  type Checks = (Keyword, Json, Json) -> bool

  predicate Named(entries: seq<(string, Json)>, name: string) {
    exists i :: 0 <= i < |entries| && entries[i].0 == name
  }

  /** Position of the first entry with a keyword, the number of entries when there is none. */
  function IndexOf(entries: seq<(string, Json)>, kw: Keyword): (i: nat)
    ensures i <= |entries|
    ensures i < |entries| ==> KeywordOf(entries[i].0) == kw
  {
    if entries == [] || KeywordOf(entries[0].0) == kw then 0 else 1 + IndexOf(entries[1..], kw)
  }

  function ValueOf(entries: seq<(string, Json)>, kw: Keyword): Option<Json> {
    if IndexOf(entries, kw) < |entries| then Some(entries[IndexOf(entries, kw)].1) else None
  }

  predicate Declared(entries: seq<(string, Json)>, name: string) {
    var properties := ValueOf(entries, Properties);
    properties.Some? && properties.value.Obj? && Named(properties.value.entries, name)
  }

  function PrefixCount(entries: seq<(string, Json)>): nat {
    var prefix := ValueOf(entries, PrefixItems);
    if prefix.Some? && prefix.value.Arr? then |prefix.value.items| else 0
  }

  function CountOr(entries: seq<(string, Json)>, kw: Keyword, default: int): int {
    var count := ValueOf(entries, kw);
    if count.Some? && count.value.Int? then count.value.number else default
  }

  /** The number of matching items is within the bounds stated beside `contains`. */
  predicate CountFits(entries: seq<(string, Json)>, found: nat, total: nat) {
    && CountOr(entries, MinContains, 1) <= found
    && (ValueOf(entries, MaxContains).Some? ==> found <= CountOr(entries, MaxContains, total))
  }

  /** The instance is valid against the schema. */
  predicate Accepts(c: Checks, schema: Json, x: Json)
    decreases schema, 3
  {
    match schema
    case Bool(flag) => flag
    case Obj(entries) => forall i | 0 <= i < |entries| :: Holds(c, schema, i, x)
    case _ => true
  }

  /** How many of the first `n` items of an array are valid against a schema. */
  function Matches(c: Checks, schema: Json, items: seq<Json>, n: nat): nat
    requires n <= |items|
    decreases schema, 4, n
  {
    if n == 0 then 0
    else Matches(c, schema, items, n - 1) + if Accepts(c, schema, items[n - 1]) then 1 else 0
  }

  /** Exactly one of the first `n` schemas accepts, or none when `none`. */
  predicate ExactlyOne(c: Checks, list: Json, x: Json)
    requires list.Arr?
    decreases list, 4
  {
    exists k :: 0 <= k < |list.items| && Accepts(c, list.items[k], x)
      && forall m | 0 <= m < |list.items| && m != k :: !Accepts(c, list.items[m], x)
  }

  predicate IfHolds(c: Checks, schema: Json, x: Json)
    requires schema.Obj?
    decreases schema, 0
  {
    var i := IndexOf(schema.entries, If);
    i < |schema.entries| && Accepts(c, schema.entries[i].1, x)
  }

  predicate HasIf(schema: Json)
    requires schema.Obj?
  {
    IndexOf(schema.entries, If) < |schema.entries|
  }

  /** The verdict of one entry of a schema. Entries of older drafts say nothing. */
  predicate Holds(c: Checks, schema: Json, i: nat, x: Json)
    requires schema.Obj? && i < |schema.entries|
    decreases schema, 2
  {
    var v := schema.entries[i].1;
    match KeywordOf(schema.entries[i].0)
    case AllOf => v.Arr? ==> forall k | 0 <= k < |v.items| :: Accepts(c, v.items[k], x)
    case AnyOf => v.Arr? ==> exists k :: 0 <= k < |v.items| && Accepts(c, v.items[k], x)
    case OneOf => v.Arr? ==> ExactlyOne(c, v, x)
    case Not => !Accepts(c, v, x)
    case Then => IfHolds(c, schema, x) ==> Accepts(c, v, x)
    case Else => HasIf(schema) && !IfHolds(c, schema, x) ==> Accepts(c, v, x)
    case Properties =>
      v.Obj? && x.Obj? ==>
        forall k, m | 0 <= k < |v.entries| && 0 <= m < |x.entries| && v.entries[k].0 == x.entries[m].0 ::
          Accepts(c, v.entries[k].1, x.entries[m].1)
    case AdditionalProperties =>
      x.Obj? ==> forall m | 0 <= m < |x.entries|
          && !Declared(schema.entries, x.entries[m].0) :: Accepts(c, v, x.entries[m].1)
    case PropertyNames => x.Obj? ==> forall m | 0 <= m < |x.entries| :: Accepts(c, v, Str(x.entries[m].0))
    case DependentSchemas =>
      v.Obj? && x.Obj? ==>
        forall k | 0 <= k < |v.entries| && Named(x.entries, v.entries[k].0) :: Accepts(c, v.entries[k].1, x)
    case PrefixItems =>
      v.Arr? && x.Arr? ==> forall k | 0 <= k < |v.items| && k < |x.items| :: Accepts(c, v.items[k], x.items[k])
    case Items =>
      x.Arr? ==> forall m | PrefixCount(schema.entries) <= m < |x.items| :: Accepts(c, v, x.items[m])
    case Contains =>
      x.Arr? ==> CountFits(schema.entries, Matches(c, v, x.items, |x.items|), |x.items|)
    case UnevaluatedProperties =>
      x.Obj? ==> forall m | 0 <= m < |x.entries| && !EvaluatedBeside(c, schema, x, Member(x.entries[m].0)) ::
                   Accepts(c, v, x.entries[m].1)
    case UnevaluatedItems =>
      x.Arr? ==> forall m | 0 <= m < |x.items| && !EvaluatedBeside(c, schema, x, At(m)) :: Accepts(c, v, x.items[m])
    case Defs => true
    case Definitions => true
    case Dependencies => true
    case PatternProperties => true
    case AdditionalItems => true
    case ContentSchema => true
    case If => true
    case Reference => true
    case kw => c(kw, v, x)
  }

  predicate IsUnevaluated(kw: Keyword) { kw.UnevaluatedItems? || kw.UnevaluatedProperties? }

  /** A place is evaluated by an entry other than the unevaluated ones. */
  predicate EvaluatedBeside(c: Checks, schema: Json, x: Json, place: Place)
    requires schema.Obj?
    decreases schema, 1
  {
    exists i :: 0 <= i < |schema.entries| && !IsUnevaluated(KeywordOf(schema.entries[i].0))
        && EvaluatedBy(c, schema, i, x, place)
  }

  /** A place of the instance is evaluated by the schema or by one it applies in place. */
  predicate Evaluated(c: Checks, schema: Json, x: Json, place: Place)
    decreases schema, 3
  {
    schema.Obj? && exists i :: 0 <= i < |schema.entries| && EvaluatedBy(c, schema, i, x, place)
  }

  predicate AcceptsAndEvaluates(c: Checks, schema: Json, x: Json, place: Place)
    decreases schema, 4
  {
    Accepts(c, schema, x) && Evaluated(c, schema, x, place)
  }

  predicate EvaluatedBy(c: Checks, schema: Json, i: nat, x: Json, place: Place)
    requires schema.Obj? && i < |schema.entries|
    decreases schema, 0
  {
    var v := schema.entries[i].1;
    match KeywordOf(schema.entries[i].0)
    case Properties => place.Member? && v.Obj? && Named(v.entries, place.name)
    case AdditionalProperties => place.Member? && !Declared(schema.entries, place.name)
    case UnevaluatedProperties => place.Member?
    case PrefixItems => place.At? && v.Arr? && place.index < |v.items|
    case Items => place.At? && PrefixCount(schema.entries) <= place.index
    case UnevaluatedItems => place.At?
    case Contains => place.At? && x.Arr? && place.index < |x.items| && Accepts(c, v, x.items[place.index])
    case AllOf => v.Arr? && exists k :: 0 <= k < |v.items| && AcceptsAndEvaluates(c, v.items[k], x, place)
    case AnyOf => v.Arr? && exists k :: 0 <= k < |v.items| && AcceptsAndEvaluates(c, v.items[k], x, place)
    case OneOf => v.Arr? && exists k :: 0 <= k < |v.items| && AcceptsAndEvaluates(c, v.items[k], x, place)
    case If => AcceptsAndEvaluates(c, v, x, place)
    case Then =>
      var j := IndexOf(schema.entries, If);
      j < |schema.entries| && Accepts(c, schema.entries[j].1, x) && AcceptsAndEvaluates(c, v, x, place)
    case Else =>
      var j := IndexOf(schema.entries, If);
      j < |schema.entries| && !Accepts(c, schema.entries[j].1, x) && AcceptsAndEvaluates(c, v, x, place)
    case DependentSchemas =>
      v.Obj? && x.Obj? && exists k :: 0 <= k < |v.entries| && Named(x.entries, v.entries[k].0)
                                     && AcceptsAndEvaluates(c, v.entries[k].1, x, place)
    case _ => false
  }
}
