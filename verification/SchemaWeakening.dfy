/** The translated schema accepts every instance the original accepts, unless a string length
    is dropped where accepting more counts against the instance. */
module SchemaWeakening {
  import opened Contracts
  import opened SchemaRewrite
  import opened SchemaMeaning

  /** Under `not`, `if` and `oneOf`, and under a `contains` with an upper bound, nothing is
      dropped; references and patterns, which the runtime refuses in any schema it is given, do
      not occur. */
  predicate Safe(schema: Json)
    decreases schema, 1
  {
    schema.Obj? ==> forall i | 0 <= i < |schema.entries| :: SafeEntry(schema, i)
  }

  predicate SafeEntry(schema: Json, i: nat)
    requires schema.Obj? && i < |schema.entries|
    decreases schema, 0
  {
    var kw, v := KeywordOf(schema.entries[i].0), schema.entries[i].1;
    match kw
    case Reference => false
    case PatternProperties => false
    case Not => CleanValue(kw, v)
    case If => CleanValue(kw, v)
    case OneOf => CleanValue(kw, v)
    case Contains => if ValueOf(schema.entries, MaxContains).Some? then CleanValue(kw, v) else Safe(v)
    case AllOf => v.Arr? ==> forall k | 0 <= k < |v.items| :: Safe(v.items[k])
    case AnyOf => v.Arr? ==> forall k | 0 <= k < |v.items| :: Safe(v.items[k])
    case PrefixItems => v.Arr? ==> forall k | 0 <= k < |v.items| :: Safe(v.items[k])
    case Properties => v.Obj? ==> forall k | 0 <= k < |v.entries| :: Safe(v.entries[k].1)
    case DependentSchemas => v.Obj? ==> forall k | 0 <= k < |v.entries| :: Safe(v.entries[k].1)
    case _ => HoldsSchema(kw) ==> Safe(v)
  }

  /** Entry `j` of the translated schema is what became of entry `i`. */
  predicate Became(schema: Json, i: nat, j: nat) {
    && schema.Obj? && i < |schema.entries|
    && !IsLength(KeywordOf(schema.entries[i].0))
    && Compatible(schema).Obj? && j < |Compatible(schema).entries|
    && Compatible(schema).entries[j] == KeptEntry(schema.entries[i])
  }

  function KeptEntry(entry: (string, Json)): (string, Json) {
    (entry.0, CompatibleValue(KeywordOf(entry.0), entry.1))
  }

  lemma KeptStep(schema: Json, from: nat)
    requires schema.Obj? && from < |schema.entries|
    ensures KeptFrom(schema, from)
         == if IsLength(KeywordOf(schema.entries[from].0)) then KeptFrom(schema, from + 1)
            else [KeptEntry(schema.entries[from])] + KeptFrom(schema, from + 1)
  {
  }

  ghost predicate KeptAt(schema: Json, from: nat, i: nat, j: nat)
    requires schema.Obj? && from <= |schema.entries| && i < |schema.entries|
  {
    j < |KeptFrom(schema, from)| && KeptFrom(schema, from)[j] == KeptEntry(schema.entries[i])
  }

  lemma KeptAtNext(schema: Json, from: nat, i: nat, k: nat)
    requires schema.Obj? && from < i < |schema.entries| && KeptAt(schema, from + 1, i, k)
    ensures KeptAt(schema, from, i, if IsLength(KeywordOf(schema.entries[from].0)) then k else k + 1)
  {
    KeptStep(schema, from);
  }

  lemma {:induction false} GoesTo(schema: Json, from: nat, i: nat) returns (j: nat)
    requires schema.Obj? && from <= i < |schema.entries| && !IsLength(KeywordOf(schema.entries[i].0))
    ensures KeptAt(schema, from, i, j)
    decreases |schema.entries| - from
  {
    if from == i {
      KeptStep(schema, from);
      j := 0;
    } else {
      var k := GoesTo(schema, from + 1, i);
      KeptAtNext(schema, from, i, k);
      j := if IsLength(KeywordOf(schema.entries[from].0)) then k else k + 1;
    }
  }

  /** A keyword is present before and after, with its translated value. */
  function Translated(kw: Keyword, value: Option<Json>): Option<Json> {
    if value.Some? then Some(CompatibleValue(kw, value.value)) else None
  }

  lemma {:induction false} ValueStays(schema: Json, i: nat, kw: Keyword)
    requires schema.Obj? && i <= |schema.entries| && !IsLength(kw)
    ensures ValueOf(KeptFrom(schema, i), kw) == Translated(kw, ValueOf(schema.entries[i..], kw))
    decreases |schema.entries| - i
  {
    if i < |schema.entries| {
      ValueStays(schema, i + 1, kw);
      KeptStep(schema, i);
      SuffixCons(schema.entries, i);
      ValueOfCons(schema.entries[i], schema.entries[i + 1..], kw);
      ValueOfCons(KeptEntry(schema.entries[i]), KeptFrom(schema, i + 1), kw);
    }
  }

  lemma SuffixCons<T>(s: seq<T>, i: nat)
    requires i < |s|
    ensures s[i..] == [s[i]] + s[i + 1..]
  {
  }

  lemma ValueOfCons(entry: (string, Json), rest: seq<(string, Json)>, kw: Keyword)
    ensures ValueOf([entry] + rest, kw) == if KeywordOf(entry.0) == kw then Some(entry.1) else ValueOf(rest, kw)
  {
    assert ([entry] + rest)[1..] == rest;
  }

  lemma KeywordStays(schema: Json, kw: Keyword)
    requires schema.Obj? && !IsLength(kw)
    ensures ValueOf(Compatible(schema).entries, kw) == Translated(kw, ValueOf(schema.entries, kw))
  {
    ValueStays(schema, 0, kw);
    assert schema.entries[0..] == schema.entries;
  }

  /** The names a schema declares and the number of its leading items are unchanged. */
  lemma DeclarationsStay(schema: Json)
    requires schema.Obj?
    ensures forall name :: Declared(Compatible(schema).entries, name) <==> Declared(schema.entries, name)
    ensures PrefixCount(Compatible(schema).entries) == PrefixCount(schema.entries)
  {
    KeywordStays(schema, Properties);
    KeywordStays(schema, PrefixItems);
    var before := ValueOf(schema.entries, Properties);
    if before.Some? && before.value.Obj? {
      forall name: string
        ensures Named(CompatibleValue(Properties, before.value).entries, name) <==> Named(before.value.entries, name)
      {
        NamesStay(before.value, name);
      }
    }
  }

  lemma NamesStay(value: Json, name: string)
    requires value.Obj?
    ensures Named(CompatibleValue(Properties, value).entries, name) <==> Named(value.entries, name)
  {
    var after := CompatibleValue(Properties, value).entries;
    if Named(after, name) {
      var i :| 0 <= i < |after| && after[i].0 == name;
      assert value.entries[i].0 == name;
    }
    if Named(value.entries, name) {
      var i :| 0 <= i < |value.entries| && value.entries[i].0 == name;
      assert after[i].0 == name;
    }
  }

  // ---------------------------------------------------------------------------------------
  // Accepting more
  // ---------------------------------------------------------------------------------------

  /** A schema under a keyword that holds one: a list in its place means nothing before and after. */
  lemma ValueMeans(c: Checks, kw: Keyword, v: Json, x: Json)
    requires HoldsSchema(kw)
    ensures Accepts(c, CompatibleValue(kw, v), x) <==> Accepts(c, Compatible(v), x)
  {
  }

  lemma {:induction false} AcceptsMore(c: Checks, schema: Json, x: Json)
    requires Safe(schema) && Accepts(c, schema, x)
    ensures Accepts(c, Compatible(schema), x)
    decreases schema, 5
  {
    if schema.Obj? {
      var kept := Compatible(schema);
      forall j | 0 <= j < |kept.entries| ensures Holds(c, kept, j, x) {
        var i := KeptComesFrom(schema, 0, j);
        HoldsMore(c, schema, i, j, x);
      }
    }
  }

  lemma {:induction false} ValueAcceptsMore(c: Checks, kw: Keyword, v: Json, x: Json)
    requires HoldsSchema(kw) && Safe(v) && Accepts(c, v, x)
    ensures Accepts(c, CompatibleValue(kw, v), x)
    decreases v, 6
  {
    ValueMeans(c, kw, v, x);
    AcceptsMore(c, v, x);
  }

  lemma {:induction false} HoldsMore(c: Checks, schema: Json, i: nat, j: nat, x: Json)
    requires Safe(schema) && Became(schema, i, j) && Accepts(c, schema, x)
    ensures Holds(c, Compatible(schema), j, x)
    decreases schema, 4
  {
    assert SafeEntry(schema, i) && Holds(c, schema, i, x);
    var kw := KeywordOf(schema.entries[i].0);
    if AppliesAlone(kw) {
      AloneMore(c, schema, i, j, x);
    } else if kw.Then? || kw.Else? {
      ThenMore(c, schema, i, j, x);
    } else if IsUnevaluated(kw) {
      UnevaluatedMore(c, schema, i, j, x);
    } else {
      KeptHolds(c, schema, i, j, x);
    }
  }

  /** Every other entry is kept as it is, or its verdict does not depend on the value. */
  lemma KeptHolds(c: Checks, schema: Json, i: nat, j: nat, x: Json)
    requires Became(schema, i, j) && SafeEntry(schema, i) && Holds(c, schema, i, x)
    requires var kw := KeywordOf(schema.entries[i].0);
             !AppliesAlone(kw) && !kw.Then? && !kw.Else? && !IsUnevaluated(kw)
    ensures Holds(c, Compatible(schema), j, x)
  {
    var kw := KeywordOf(schema.entries[i].0);
    if kw.OneOf? || kw.Not? {
      CleanValueIsKept(kw, schema.entries[i].1);
    }
  }

  /** Keywords whose verdict asks nothing of a condition or of what was evaluated. */
  predicate AppliesAlone(kw: Keyword) {
    || kw.AllOf? || kw.AnyOf? || kw.Properties? || kw.AdditionalProperties? || kw.PropertyNames?
    || kw.DependentSchemas? || kw.PrefixItems? || kw.Items? || kw.Contains?
  }

  lemma {:induction false} AloneMore(c: Checks, schema: Json, i: nat, j: nat, x: Json)
    requires Became(schema, i, j) && SafeEntry(schema, i) && Holds(c, schema, i, x)
             && AppliesAlone(KeywordOf(schema.entries[i].0))
    ensures Holds(c, Compatible(schema), j, x)
    decreases schema, 3, 1
  {
    match KeywordOf(schema.entries[i].0)
    case AllOf => AllOfMore(c, schema, i, j, x);
    case AnyOf => AnyOfMore(c, schema, i, j, x);
    case Properties => PropertiesMore(c, schema, i, j, x);
    case AdditionalProperties => AdditionalMore(c, schema, i, j, x);
    case PropertyNames => PropertyNamesMore(c, schema, i, j, x);
    case DependentSchemas => DependentMore(c, schema, i, j, x);
    case PrefixItems => PrefixMore(c, schema, i, j, x);
    case Items => ItemsMore(c, schema, i, j, x);
    case Contains => ContainsMore(c, schema, i, j, x);
  }

  lemma {:induction false} AllOfMore(c: Checks, schema: Json, i: nat, j: nat, x: Json)
    requires Became(schema, i, j) && SafeEntry(schema, i) && Holds(c, schema, i, x)
             && KeywordOf(schema.entries[i].0).AllOf?
    ensures Holds(c, Compatible(schema), j, x)
    decreases schema, 3, 0
  {
    var v := schema.entries[i].1;
    if v.Arr? {
      forall k | 0 <= k < |v.items| ensures Accepts(c, Compatible(v.items[k]), x) {
        AcceptsMore(c, v.items[k], x);
      }
    }
  }

  lemma {:induction false} AnyOfMore(c: Checks, schema: Json, i: nat, j: nat, x: Json)
    requires Became(schema, i, j) && SafeEntry(schema, i) && Holds(c, schema, i, x)
             && KeywordOf(schema.entries[i].0).AnyOf?
    ensures Holds(c, Compatible(schema), j, x)
    decreases schema, 3, 0
  {
    var v := schema.entries[i].1;
    if v.Arr? {
      var k :| 0 <= k < |v.items| && Accepts(c, v.items[k], x);
      AcceptsMore(c, v.items[k], x);
      var after := Compatible(schema).entries[j].1;
      assert Accepts(c, after.items[k], x);
    }
  }

  /** The condition of `then` and `else` is what it was. */
  lemma IfStays(c: Checks, schema: Json, x: Json)
    requires schema.Obj? && Safe(schema)
    ensures HasIf(Compatible(schema)) <==> HasIf(schema)
    ensures IfHolds(c, Compatible(schema), x) <==> IfHolds(c, schema, x)
  {
    KeywordStays(schema, If);
    var i := IndexOf(schema.entries, If);
    if i < |schema.entries| {
      assert SafeEntry(schema, i);
      CleanValueIsKept(If, schema.entries[i].1);
    }
  }

  lemma {:induction false} ThenMore(c: Checks, schema: Json, i: nat, j: nat, x: Json)
    requires Became(schema, i, j) && Safe(schema) && Holds(c, schema, i, x)
    requires KeywordOf(schema.entries[i].0).Then? || KeywordOf(schema.entries[i].0).Else?
    ensures Holds(c, Compatible(schema), j, x)
    decreases schema, 3
  {
    IfStays(c, schema, x);
    assert SafeEntry(schema, i);
    var kw, v := KeywordOf(schema.entries[i].0), schema.entries[i].1;
    if Accepts(c, v, x) {
      ValueAcceptsMore(c, kw, v, x);
    }
  }

  lemma {:induction false} PropertiesMore(c: Checks, schema: Json, i: nat, j: nat, x: Json)
    requires Became(schema, i, j) && SafeEntry(schema, i) && Holds(c, schema, i, x)
             && KeywordOf(schema.entries[i].0).Properties?
    ensures Holds(c, Compatible(schema), j, x)
    decreases schema, 3, 0
  {
    var v := schema.entries[i].1;
    if v.Obj? && x.Obj? {
      forall k, m | 0 <= k < |v.entries| && 0 <= m < |x.entries| && v.entries[k].0 == x.entries[m].0
        ensures Accepts(c, Compatible(v.entries[k].1), x.entries[m].1)
      {
        AcceptsMore(c, v.entries[k].1, x.entries[m].1);
      }
    }
  }

  lemma {:induction false} AdditionalMore(c: Checks, schema: Json, i: nat, j: nat, x: Json)
    requires Became(schema, i, j) && SafeEntry(schema, i) && Holds(c, schema, i, x)
    requires KeywordOf(schema.entries[i].0).AdditionalProperties?
    ensures Holds(c, Compatible(schema), j, x)
    decreases schema, 3, 0
  {
    var kw, v := KeywordOf(schema.entries[i].0), schema.entries[i].1;
    DeclarationsStay(schema);
    if x.Obj? {
      forall m | 0 <= m < |x.entries| && !Declared(schema.entries, x.entries[m].0)
        ensures Accepts(c, CompatibleValue(kw, v), x.entries[m].1)
      {
        ValueAcceptsMore(c, kw, v, x.entries[m].1);
      }
    }
  }

  lemma {:induction false} PropertyNamesMore(c: Checks, schema: Json, i: nat, j: nat, x: Json)
    requires Became(schema, i, j) && SafeEntry(schema, i) && Holds(c, schema, i, x)
             && KeywordOf(schema.entries[i].0).PropertyNames?
    ensures Holds(c, Compatible(schema), j, x)
    decreases schema, 3, 0
  {
    var kw, v := KeywordOf(schema.entries[i].0), schema.entries[i].1;
    if x.Obj? {
      forall m | 0 <= m < |x.entries| ensures Accepts(c, CompatibleValue(kw, v), Str(x.entries[m].0)) {
        ValueAcceptsMore(c, kw, v, Str(x.entries[m].0));
      }
    }
  }

  lemma {:induction false} DependentMore(c: Checks, schema: Json, i: nat, j: nat, x: Json)
    requires Became(schema, i, j) && SafeEntry(schema, i) && Holds(c, schema, i, x)
    requires KeywordOf(schema.entries[i].0).DependentSchemas?
    ensures Holds(c, Compatible(schema), j, x)
    decreases schema, 3, 0
  {
    var v := schema.entries[i].1;
    if v.Obj? && x.Obj? {
      forall k | 0 <= k < |v.entries| && Named(x.entries, v.entries[k].0)
        ensures Accepts(c, Compatible(v.entries[k].1), x)
      {
        AcceptsMore(c, v.entries[k].1, x);
      }
    }
  }

  lemma {:induction false} PrefixMore(c: Checks, schema: Json, i: nat, j: nat, x: Json)
    requires Became(schema, i, j) && SafeEntry(schema, i) && Holds(c, schema, i, x)
             && KeywordOf(schema.entries[i].0).PrefixItems?
    ensures Holds(c, Compatible(schema), j, x)
    decreases schema, 3, 0
  {
    var v := schema.entries[i].1;
    if v.Arr? && x.Arr? {
      forall k | 0 <= k < |v.items| && k < |x.items| ensures Accepts(c, Compatible(v.items[k]), x.items[k]) {
        AcceptsMore(c, v.items[k], x.items[k]);
      }
    }
  }

  lemma {:induction false} ItemsMore(c: Checks, schema: Json, i: nat, j: nat, x: Json)
    requires Became(schema, i, j) && SafeEntry(schema, i) && Holds(c, schema, i, x)
             && KeywordOf(schema.entries[i].0).Items?
    ensures Holds(c, Compatible(schema), j, x)
    decreases schema, 3, 0
  {
    var kw, v := KeywordOf(schema.entries[i].0), schema.entries[i].1;
    DeclarationsStay(schema);
    if x.Arr? {
      forall m | PrefixCount(schema.entries) <= m < |x.items| ensures Accepts(c, CompatibleValue(kw, v), x.items[m]) {
        ValueAcceptsMore(c, kw, v, x.items[m]);
      }
    }
  }

  lemma {:induction false} MatchesMore(c: Checks, v: Json, items: seq<Json>, n: nat)
    requires n <= |items| && Safe(v)
    ensures Matches(c, v, items, n) <= Matches(c, CompatibleValue(Contains, v), items, n)
    decreases v, 7, n
  {
    if n > 0 {
      MatchesMore(c, v, items, n - 1);
      if Accepts(c, v, items[n - 1]) {
        ValueAcceptsMore(c, Contains, v, items[n - 1]);
      }
    }
  }

  lemma {:induction false} ContainsMore(c: Checks, schema: Json, i: nat, j: nat, x: Json)
    requires Became(schema, i, j) && SafeEntry(schema, i) && Holds(c, schema, i, x)
             && KeywordOf(schema.entries[i].0).Contains?
    ensures Holds(c, Compatible(schema), j, x)
    decreases schema, 3, 0
  {
    var v := schema.entries[i].1;
    if x.Arr? {
      var before, after := Matches(c, v, x.items, |x.items|),
                           Matches(c, CompatibleValue(Contains, v), x.items, |x.items|);
      if ValueOf(schema.entries, MaxContains).Some? {
        CleanValueIsKept(Contains, v);
      } else {
        MatchesMore(c, v, x.items, |x.items|);
      }
      CountFitsMore(schema, before, after, |x.items|);
    }
  }

  lemma CountFitsMore(schema: Json, before: nat, after: nat, total: nat)
    requires schema.Obj? && CountFits(schema.entries, before, total) && before <= after
    requires ValueOf(schema.entries, MaxContains).Some? ==> before == after
    ensures CountFits(Compatible(schema).entries, after, total)
  {
    CountStays(schema, MinContains, 1);
    CountStays(schema, MaxContains, total);
  }

  lemma CountStays(schema: Json, kw: Keyword, default: int)
    requires schema.Obj? && (kw.MinContains? || kw.MaxContains?)
    ensures ValueOf(Compatible(schema).entries, kw) == ValueOf(schema.entries, kw)
    ensures CountOr(Compatible(schema).entries, kw, default) == CountOr(schema.entries, kw, default)
  {
    KeywordStays(schema, kw);
    NumbersStay(kw, ValueOf(schema.entries, kw));
  }

  lemma NumbersStay(kw: Keyword, value: Option<Json>)
    requires kw.MinContains? || kw.MaxContains?
    ensures Translated(kw, value) == value
  {
  }

  // ---------------------------------------------------------------------------------------
  // Evaluating more
  // ---------------------------------------------------------------------------------------

  lemma {:induction false} UnevaluatedMore(c: Checks, schema: Json, i: nat, j: nat, x: Json)
    requires Became(schema, i, j) && Safe(schema) && Holds(c, schema, i, x)
    requires IsUnevaluated(KeywordOf(schema.entries[i].0))
    ensures Holds(c, Compatible(schema), j, x)
    decreases schema, 3
  {
    assert SafeEntry(schema, i);
    var kw, v := KeywordOf(schema.entries[i].0), schema.entries[i].1;
    forall place: Place | EvaluatedBeside(c, schema, x, place)
        ensures EvaluatedBeside(c, Compatible(schema), x, place) {
      BesideMore(c, schema, x, place);
    }
    forall y | Accepts(c, v, y) ensures Accepts(c, CompatibleValue(kw, v), y) {
      ValueAcceptsMore(c, kw, v, y);
    }
  }

  lemma {:induction false} BesideMore(c: Checks, schema: Json, x: Json, place: Place)
    requires schema.Obj? && Safe(schema) && EvaluatedBeside(c, schema, x, place)
    ensures EvaluatedBeside(c, Compatible(schema), x, place)
    decreases schema, 2
  {
    var i :| 0 <= i < |schema.entries| && !IsUnevaluated(KeywordOf(schema.entries[i].0))
        && EvaluatedBy(c, schema, i, x, place);
    var j := GoesTo(schema, 0, i);
    EvaluatedByMore(c, schema, i, j, x, place);
    assert EvaluatedBy(c, Compatible(schema), j, x, place);
  }

  lemma {:induction false} BothMore(c: Checks, schema: Json, x: Json, place: Place)
    requires Safe(schema) && AcceptsAndEvaluates(c, schema, x, place)
    ensures AcceptsAndEvaluates(c, Compatible(schema), x, place)
    decreases schema, 6
  {
    AcceptsMore(c, schema, x);
    assert Evaluated(c, schema, x, place);
    var i :| 0 <= i < |schema.entries| && EvaluatedBy(c, schema, i, x, place);
    var j := GoesTo(schema, 0, i);
    EvaluatedByMore(c, schema, i, j, x, place);
    assert EvaluatedBy(c, Compatible(schema), j, x, place);
  }

  lemma {:induction false} EvaluatedByMore(c: Checks, schema: Json, i: nat, j: nat, x: Json, place: Place)
    requires Safe(schema) && Became(schema, i, j) && EvaluatedBy(c, schema, i, x, place)
    ensures EvaluatedBy(c, Compatible(schema), j, x, place)
    decreases schema, 1
  {
    assert SafeEntry(schema, i);
    var kw, v := KeywordOf(schema.entries[i].0), schema.entries[i].1;
    if kw.AllOf? || kw.AnyOf? {
      ListEvaluatesMore(c, schema, i, j, x, place);
    } else if kw.Then? || kw.Else? {
      BranchEvaluatesMore(c, schema, i, j, x, place);
    } else if kw.DependentSchemas? {
      DependentEvaluatesMore(c, schema, i, j, x, place);
    } else if kw.Contains? && !CleanValue(kw, v) {
      ValueAcceptsMore(c, kw, v, x.items[place.index]);
    } else {
      PlaceStays(c, schema, i, j, x, place);
    }
  }

  /** Entries that evaluate the same places after the translation. */
  lemma PlaceStays(c: Checks, schema: Json, i: nat, j: nat, x: Json, place: Place)
    requires Became(schema, i, j) && SafeEntry(schema, i) && EvaluatedBy(c, schema, i, x, place)
    requires var kw := KeywordOf(schema.entries[i].0);
             && !kw.AllOf? && !kw.AnyOf? && !kw.Then? && !kw.Else? && !kw.DependentSchemas?
             && (kw.Contains? ==> CleanValue(kw, schema.entries[i].1))
    ensures EvaluatedBy(c, Compatible(schema), j, x, place)
  {
    var kw, v := KeywordOf(schema.entries[i].0), schema.entries[i].1;
    if kw.Properties? {
      NamesStay(v, place.name);
    } else if kw.AdditionalProperties? || kw.Items? {
      DeclarationsStay(schema);
    } else if kw.OneOf? || kw.If? || kw.Contains? {
      CleanValueIsKept(kw, v);
    }
  }

  lemma {:induction false} ListEvaluatesMore(c: Checks, schema: Json, i: nat, j: nat, x: Json, place: Place)
    requires Became(schema, i, j) && SafeEntry(schema, i) && EvaluatedBy(c, schema, i, x, place)
    requires KeywordOf(schema.entries[i].0).AllOf? || KeywordOf(schema.entries[i].0).AnyOf?
    ensures EvaluatedBy(c, Compatible(schema), j, x, place)
    decreases schema, 0
  {
    var v := schema.entries[i].1;
    var k :| 0 <= k < |v.items| && AcceptsAndEvaluates(c, v.items[k], x, place);
    BothMore(c, v.items[k], x, place);
    var after := Compatible(schema).entries[j].1;
    assert AcceptsAndEvaluates(c, after.items[k], x, place);
  }

  lemma {:induction false} BranchEvaluatesMore(c: Checks, schema: Json, i: nat, j: nat, x: Json, place: Place)
    requires Became(schema, i, j) && Safe(schema) && EvaluatedBy(c, schema, i, x, place)
    requires KeywordOf(schema.entries[i].0).Then? || KeywordOf(schema.entries[i].0).Else?
    ensures EvaluatedBy(c, Compatible(schema), j, x, place)
    decreases schema, 0
  {
    assert SafeEntry(schema, i);
    IfStays(c, schema, x);
    BothMore(c, schema.entries[i].1, x, place);
  }

  lemma {:induction false} DependentEvaluatesMore(c: Checks, schema: Json, i: nat, j: nat, x: Json, place: Place)
    requires Became(schema, i, j) && SafeEntry(schema, i) && EvaluatedBy(c, schema, i, x, place)
    requires KeywordOf(schema.entries[i].0).DependentSchemas?
    ensures EvaluatedBy(c, Compatible(schema), j, x, place)
    decreases schema, 0
  {
    var v := schema.entries[i].1;
    var k :| 0 <= k < |v.entries| && Named(x.entries, v.entries[k].0)
        && AcceptsAndEvaluates(c, v.entries[k].1, x, place);
    BothMore(c, v.entries[k].1, x, place);
    var after := Compatible(schema).entries[j].1;
    assert Named(x.entries, after.entries[k].0) && AcceptsAndEvaluates(c, after.entries[k].1, x, place);
  }

  // ---------------------------------------------------------------------------------------
  // Where it would refuse more
  // ---------------------------------------------------------------------------------------

  lemma {:induction false} FirstListed(before: seq<(string, Keyword)>, rest: seq<(string, Keyword)>, key: string)
    requires Unlisted(before, key) && rest != [] && rest[0].0 == key
    ensures KeywordIn(before + rest, key) == rest[0].1
  {
    if before == [] {
      assert before + rest == rest;
    } else {
      assert (before + rest)[1..] == before[1..] + rest;
      FirstListed(before[1..], rest, key);
    }
  }

  lemma NotIsAKeyword()
    ensures KeywordOf("not") == Not
  {
    var before := LENGTH_KEYWORDS + (MAP_KEYWORDS + SINGLE_KEYWORDS[..7]);
    var rest := SINGLE_KEYWORDS[7..] + (LIST_KEYWORDS + OTHER_KEYWORDS);
    assert Unlisted(SINGLE_KEYWORDS[..7], "not") && Unlisted(MAP_KEYWORDS, "not") && Unlisted(LENGTH_KEYWORDS, "not");
    FirstListed(before, rest, "not");
    assert KEYWORDS == before + rest;
  }

  predicate RefusesMore(c: Checks, schema: Json, x: Json) {
    Accepts(c, schema, x) && !Accepts(c, Compatible(schema), x)
  }

  predicate LengthChecks(kw: Keyword, v: Json, x: Json) {
    kw.MinLength? && v.Int? && x.Str? ==> |x.text| >= v.number
  }

  function UnderNot(not: string, length: string): Json {
    Obj([(not, Obj([(length, Int(2))]))])
  }

  /** Under keys that mean `not` and `minLength`: the original accepts a short string. */
  lemma ShortStringUnderNot(not: string, length: string, x: Json)
    requires KeywordOf(not) == Not && KeywordOf(length) == MinLength && x == Str("a")
    ensures Accepts(LengthChecks, UnderNot(not, length), x)
  {
    var inner := Obj([(length, Int(2))]);
    var schema := Obj([(not, inner)]);
    assert !Holds(LengthChecks, inner, 0, x);
    assert Holds(LengthChecks, schema, 0, x);
  }

  lemma NothingUnderNot(not: string, x: Json)
    requires KeywordOf(not) == Not
    ensures !Accepts(LengthChecks, Obj([(not, Obj([]))]), x)
  {
    var schema := Obj([(not, Obj([]))]);
    assert Accepts(LengthChecks, Obj([]), x);
    assert !Holds(LengthChecks, schema, 0, x);
  }

  lemma LengthIsDropped(not: string, length: string)
    requires KeywordOf(not) == Not && KeywordOf(length) == MinLength
    ensures Compatible(UnderNot(not, length)) == Obj([(not, Obj([]))])
  {
    var inner := Obj([(length, Int(2))]);
    KeptStep(inner, 0);
    KeptStep(UnderNot(not, length), 0);
    assert CompatibleValue(Not, inner) == Compatible(inner) == Obj([]);
    assert KeptFrom(UnderNot(not, length), 0) == [(not, Obj([]))];
  }

  lemma KeysUnderNot(not: string, length: string)
    requires KeywordOf(not) == Not && KeywordOf(length) == MinLength
    ensures RefusesMore(LengthChecks, UnderNot(not, length), Str("a"))
  {
    ShortStringUnderNot(not, length, Str("a"));
    LengthIsDropped(not, length);
    NothingUnderNot(not, Str("a"));
  }

  /** A string length under `not`: the original accepts a short string, the translation none. */
  lemma DroppingUnderNotRefuses()
    ensures RefusesMore(LengthChecks, UnderNot("not", "minLength"), Str("a"))
  {
    NotIsAKeyword();
    assert KeywordOf("minLength") == MinLength;
    KeysUnderNot("not", "minLength");
  }
}
