/** The schema translation of the LM Studio adapter: string-length keywords leave a JSON Schema
    at schema positions only, where they mean something. */
module SchemaRewrite {
  import opened Contracts

  /** The keywords the translation or its meaning depends on; every other one is `Plain`. */
  datatype Keyword =
    | MinLength | MaxLength
    | Properties | PatternProperties | DependentSchemas | Dependencies | Defs | Definitions
    | AdditionalItems | AdditionalProperties | Contains | ContentSchema | Else | If | Items | Not
    | PropertyNames | Then | UnevaluatedItems | UnevaluatedProperties
    | AllOf | AnyOf | OneOf | PrefixItems
    | MinContains | MaxContains | Reference
    | PlainKeyword(name: string)

  const LENGTH_KEYWORDS: seq<(string, Keyword)> := [("minLength", MinLength), ("maxLength", MaxLength)]

  const MAP_KEYWORDS: seq<(string, Keyword)> := [
    ("properties", Properties), ("patternProperties", PatternProperties), ("dependentSchemas", DependentSchemas),
    ("dependencies", Dependencies), ("$defs", Defs), ("definitions", Definitions)]

  const SINGLE_KEYWORDS: seq<(string, Keyword)> := [
    ("additionalItems", AdditionalItems), ("additionalProperties", AdditionalProperties), ("contains", Contains),
    ("contentSchema", ContentSchema), ("else", Else), ("if", If), ("items", Items), ("not", Not),
    ("propertyNames", PropertyNames), ("then", Then), ("unevaluatedItems", UnevaluatedItems),
    ("unevaluatedProperties", UnevaluatedProperties)]

  const LIST_KEYWORDS: seq<(string, Keyword)> := [
    ("allOf", AllOf), ("anyOf", AnyOf), ("oneOf", OneOf), ("prefixItems", PrefixItems)]

  const OTHER_KEYWORDS: seq<(string, Keyword)> := [
    ("minContains", MinContains), ("maxContains", MaxContains),
    ("$ref", Reference), ("$dynamicRef", Reference), ("$recursiveRef", Reference)]

  const KEYWORDS: seq<(string, Keyword)> :=
    LENGTH_KEYWORDS + (MAP_KEYWORDS + (SINGLE_KEYWORDS + (LIST_KEYWORDS + OTHER_KEYWORDS)))

  function KeywordIn(table: seq<(string, Keyword)>, key: string): Keyword {
    if table == [] then PlainKeyword(key)
    else if table[0].0 == key then table[0].1
    else KeywordIn(table[1..], key)
  }

  function KeywordOf(key: string): Keyword { KeywordIn(KEYWORDS, key) }

  predicate IsLength(kw: Keyword) { kw.MinLength? || kw.MaxLength? }

  predicate HoldsMap(kw: Keyword) {
    || kw.Defs? || kw.Definitions? || kw.Dependencies? || kw.DependentSchemas?
    || kw.PatternProperties? || kw.Properties?
  }

  predicate HoldsSchema(kw: Keyword) {
    || kw.AdditionalItems? || kw.AdditionalProperties? || kw.Contains? || kw.ContentSchema?
    || kw.Else? || kw.If? || kw.Items? || kw.Not? || kw.PropertyNames? || kw.Then?
    || kw.UnevaluatedItems? || kw.UnevaluatedProperties?
  }

  predicate HoldsList(kw: Keyword) {
    HoldsSchema(kw) || kw.AllOf? || kw.AnyOf? || kw.OneOf? || kw.PrefixItems?
  }

  /** A schema, translated; a schema that is no object is kept. */
  function Compatible(schema: Json): (r: Json)
    ensures schema.Obj? <==> r.Obj?
    ensures !schema.Obj? ==> r == schema
    decreases schema, 1, 0
  {
    if schema.Obj? then Obj(KeptFrom(schema, 0)) else schema
  }

  /** The entries of a schema from position `i` on, without the string-length ones. */
  function KeptFrom(schema: Json, i: nat): seq<(string, Json)>
    requires schema.Obj? && i <= |schema.entries|
    decreases schema, 0, |schema.entries| - i
  {
    if i == |schema.entries| then []
    else
      var (key, value) := schema.entries[i];
      (if IsLength(KeywordOf(key)) then [] else [(key, CompatibleValue(KeywordOf(key), value))])
      + KeptFrom(schema, i + 1)
  }

  /** The value of a kept keyword: the schemas in it are translated, anything else is kept. */
  function CompatibleValue(kw: Keyword, value: Json): Json
    decreases value, 2, 0
  {
    if HoldsMap(kw) && value.Obj? then
      Obj(seq(|value.entries|, i requires 0 <= i < |value.entries| => (value.entries[i].0,
          Compatible(value.entries[i].1))))
    else if HoldsSchema(kw) && value.Obj? then Compatible(value)
    else if HoldsList(kw) && value.Arr? then
      Arr(seq(|value.items|, i requires 0 <= i < |value.items| => Compatible(value.items[i])))
    else value
  }

  // ---------------------------------------------------------------------------------------
  // What is removed, and what is not
  // ---------------------------------------------------------------------------------------

  /** No string-length keyword stands at a schema position. */
  predicate Clean(schema: Json)
    decreases schema, 1
  {
    schema.Obj? ==>
      forall i | 0 <= i < |schema.entries| ::
        !IsLength(KeywordOf(schema.entries[i].0)) && CleanValue(KeywordOf(schema.entries[i].0), schema.entries[i].1)
  }

  predicate CleanValue(kw: Keyword, value: Json)
    decreases value, 2
  {
    if HoldsMap(kw) && value.Obj? then
      forall i | 0 <= i < |value.entries| :: Clean(value.entries[i].1)
    else if HoldsSchema(kw) && value.Obj? then Clean(value)
    else if HoldsList(kw) && value.Arr? then
      forall i | 0 <= i < |value.items| :: Clean(value.items[i])
    else true
  }

  /** Where the kept entry at position `j` comes from. */
  lemma {:induction false} KeptComesFrom(schema: Json, from: nat, j: nat) returns (i: nat)
    requires schema.Obj? && from <= |schema.entries| && j < |KeptFrom(schema, from)|
    ensures from <= i < |schema.entries| && !IsLength(KeywordOf(schema.entries[i].0))
    ensures KeptFrom(schema, from)[j]
         == (schema.entries[i].0, CompatibleValue(KeywordOf(schema.entries[i].0), schema.entries[i].1))
    decreases |schema.entries| - from
  {
    if IsLength(KeywordOf(schema.entries[from].0)) {
      i := KeptComesFrom(schema, from + 1, j);
    } else if j == 0 {
      i := from;
    } else {
      i := KeptComesFrom(schema, from + 1, j - 1);
    }
  }

  /** The translation leaves no string-length keyword at any schema position. */
  lemma {:induction false} ResultIsClean(schema: Json)
    ensures Clean(Compatible(schema))
    decreases schema, 1
  {
    if schema.Obj? {
      var kept := KeptFrom(schema, 0);
      forall j | 0 <= j < |kept|
        ensures !IsLength(KeywordOf(kept[j].0)) && CleanValue(KeywordOf(kept[j].0), kept[j].1)
      {
        var i := KeptComesFrom(schema, 0, j);
        ValueIsClean(KeywordOf(schema.entries[i].0), schema.entries[i].1);
      }
    }
  }

  lemma {:induction false} ValueIsClean(kw: Keyword, value: Json)
    ensures CleanValue(kw, CompatibleValue(kw, value))
    decreases value, 2
  {
    if HoldsMap(kw) && value.Obj? {
      forall i | 0 <= i < |value.entries| ensures Clean(Compatible(value.entries[i].1)) {
        ResultIsClean(value.entries[i].1);
      }
    } else if HoldsSchema(kw) && value.Obj? {
      ResultIsClean(value);
    } else if HoldsList(kw) && value.Arr? {
      forall i | 0 <= i < |value.items| ensures Clean(Compatible(value.items[i])) {
        ResultIsClean(value.items[i]);
      }
    }
  }

  lemma {:induction false} CleanIsKept(schema: Json)
    requires Clean(schema)
    ensures Compatible(schema) == schema
    decreases schema, 1, 0
  {
    if schema.Obj? {
      CleanEntriesAreKept(schema, 0);
    }
  }

  lemma {:induction false} CleanEntriesAreKept(schema: Json, i: nat)
    requires schema.Obj? && Clean(schema) && i <= |schema.entries|
    ensures KeptFrom(schema, i) == schema.entries[i..]
    decreases schema, 0, |schema.entries| - i
  {
    if i < |schema.entries| {
      CleanValueIsKept(KeywordOf(schema.entries[i].0), schema.entries[i].1);
      CleanEntriesAreKept(schema, i + 1);
      assert schema.entries[i..] == [schema.entries[i]] + schema.entries[i + 1..];
    }
  }

  lemma {:induction false} CleanValueIsKept(kw: Keyword, value: Json)
    requires CleanValue(kw, value)
    ensures CompatibleValue(kw, value) == value
    decreases value, 2, 0
  {
    if HoldsMap(kw) && value.Obj? {
      forall i | 0 <= i < |value.entries| ensures Compatible(value.entries[i].1) == value.entries[i].1 {
        CleanIsKept(value.entries[i].1);
      }
      assert CompatibleValue(kw, value).entries == value.entries;
    } else if HoldsSchema(kw) && value.Obj? {
      CleanIsKept(value);
    } else if HoldsList(kw) && value.Arr? {
      forall i | 0 <= i < |value.items| ensures Compatible(value.items[i]) == value.items[i] {
        CleanIsKept(value.items[i]);
      }
      assert CompatibleValue(kw, value).items == value.items;
    }
  }

  /** A schema is translated to itself exactly when no string-length keyword stands at a schema
      position, and translating twice is translating once. */
  lemma IdentityExactlyOnClean(schema: Json)
    ensures Compatible(schema) == schema <==> Clean(schema)
    ensures Compatible(Compatible(schema)) == Compatible(schema)
  {
    ResultIsClean(schema);
    CleanIsKept(Compatible(schema));
    if Clean(schema) {
      CleanIsKept(schema);
    }
  }

  /** Entries that are no string-length keyword stay, in order, under their own names. */
  function OtherKeys(entries: seq<(string, Json)>): seq<string> {
    if entries == [] then []
    else (if IsLength(KeywordOf(entries[0].0)) then [] else [entries[0].0]) + OtherKeys(entries[1..])
  }

  function Keys(entries: seq<(string, Json)>): seq<string> {
    seq(|entries|, i requires 0 <= i < |entries| => entries[i].0)
  }

  lemma {:induction false} OtherKeysStay(schema: Json, i: nat)
    requires schema.Obj? && i <= |schema.entries|
    ensures Keys(KeptFrom(schema, i)) == OtherKeys(schema.entries[i..])
    decreases |schema.entries| - i
  {
    if i < |schema.entries| {
      OtherKeysStay(schema, i + 1);
      assert schema.entries[i..][1..] == schema.entries[i + 1..];
    }
  }

  /** Names in a map of schemas are kept, `minLength` and `maxLength` among them, and a value
      under a keyword that holds no schema, such as a constant or an enumeration, is kept whole. */
  lemma NamesAndLiteralsStay(kw: Keyword, value: Json)
    ensures HoldsMap(kw) && value.Obj? ==>
              CompatibleValue(kw, value).Obj? && Keys(CompatibleValue(kw, value).entries) == Keys(value.entries)
    ensures !HoldsMap(kw) && !HoldsList(kw) ==> CompatibleValue(kw, value) == value
  {
    if HoldsMap(kw) && value.Obj? {
      assert Keys(CompatibleValue(kw, value).entries) == Keys(value.entries);
    }
  }

  predicate Unlisted(table: seq<(string, Keyword)>, key: string) {
    forall i | 0 <= i < |table| :: table[i].0 != key
  }

  lemma {:induction false} UnlistedIsPlain(table: seq<(string, Keyword)>, key: string)
    requires Unlisted(table, key)
    ensures KeywordIn(table, key) == PlainKeyword(key)
  {
    if table != [] {
      UnlistedIsPlain(table[1..], key);
    }
  }

  /** Constants and enumerations hold no schema. */
  lemma ConstantsArePlain()
    ensures KeywordOf("const") == PlainKeyword("const") && KeywordOf("enum") == PlainKeyword("enum")
  {
    assert Unlisted(SINGLE_KEYWORDS, "const") && Unlisted(SINGLE_KEYWORDS, "enum");
    assert Unlisted(MAP_KEYWORDS, "const") && Unlisted(MAP_KEYWORDS, "enum");
    assert Unlisted(LIST_KEYWORDS, "const") && Unlisted(LIST_KEYWORDS, "enum");
    assert Unlisted(OTHER_KEYWORDS, "const") && Unlisted(OTHER_KEYWORDS, "enum");
    assert Unlisted(LENGTH_KEYWORDS, "const") && Unlisted(LENGTH_KEYWORDS, "enum");
    UnlistedIsPlain(KEYWORDS, "const");
    UnlistedIsPlain(KEYWORDS, "enum");
  }
}
